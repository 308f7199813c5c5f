/** The decision the `skip` command makes: nothing playing, a requester's
    forced skip, a repeated vote, an added vote, or a vote that reaches the
    threshold. */
module SkipVote {
  import opened Wrappers
  import opened Ids

  /** Number of distinct votes that skips the current track. */
  const Threshold: nat := 3

  datatype Outcome =
    | NothingPlaying
    | RequesterSkipped
    | AlreadyVoted
    | VoteAdded(count: nat)
    | VotePassed

  /** The outcome, the vote set afterwards and whether the track is skipped. */
  datatype Decision = Decision(outcome: Outcome, votes: set<UserId>, skipped: bool)

  /** Decide one skip request by `voter`, given whether the session is playing,
      the requester of the current track and the votes recorded so far. */
  function Decide(playing: bool, voter: UserId, requester: Option<UserId>, votes: set<UserId>): (d: Decision)
    // a skip happens exactly on the two skipping outcomes, and then no vote is kept
    ensures d.skipped <==> d.outcome.RequesterSkipped? || d.outcome.VotePassed?
    ensures d.skipped ==> d.votes == {}
    // nothing playing: no change
    ensures !playing ==> d.outcome == NothingPlaying && d.votes == votes
    // the requester skips at once, whatever the count
    ensures playing && requester == Some(voter) ==> d.outcome == RequesterSkipped
    // a repeated vote is refused and the set is left as it was
    ensures playing && requester != Some(voter) && voter in votes ==>
              d.outcome == AlreadyVoted && d.votes == votes
    // a new vote either passes (set cleared) or is counted
    ensures playing && requester != Some(voter) && voter !in votes ==>
              if |votes| + 1 >= Threshold then d.outcome == VotePassed
              else d.outcome == VoteAdded(|votes| + 1) && d.votes == votes + {voter}
    // a reported count is the size of the new set, below the threshold
    ensures d.outcome.VoteAdded? ==> 0 < d.outcome.count == |d.votes| < Threshold
    // the set only ever grows by the voter, and stays below the threshold
    ensures d.votes <= votes + {voter}
    ensures |votes| < Threshold ==> |d.votes| < Threshold
  {
    if !playing then
      Decision(NothingPlaying, votes, false)
    else if requester == Some(voter) then
      Decision(RequesterSkipped, {}, true)
    else if voter !in votes then
      var added := votes + {voter};
      if |added| >= Threshold then Decision(VotePassed, {}, true)
      else Decision(VoteAdded(|added|), added, false)
    else
      Decision(AlreadyVoted, votes, false)
  }
}
