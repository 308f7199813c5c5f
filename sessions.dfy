/** The per-guild voice session as a value: the current entry, the voice
    connection, the FIFO queue, the skip votes and whether the current
    entry's player is done. Each step of `VoiceState` and each session-level
    effect of a command is a function here, and the lemmas at the end relate
    whole runs of steps. */
module Sessions {
  import opened Wrappers
  import opened Ids
  import opened Track
  import SkipVote

  datatype Session = Session(
    current: Option<VoiceEntry>,
    voice: Option<ChannelId>,
    songs: seq<VoiceEntry>,
    skipVotes: set<UserId>,
    playerDone: bool)

  /** The state a new `VoiceState` starts in. No player exists yet, which the
      model records as a done player. */
  function Fresh(): (s: Session)
    ensures s.current.None? && s.voice.None? && s.songs == [] && s.skipVotes == {}
    ensures Valid(s) && !IsPlaying(s)
  {
    Session(None, None, [], {}, true)
  }

  /** What every reachable session satisfies: the vote count is always below
      the threshold (reaching it clears the set), and without a current entry
      no player is running. */
  predicate Valid(s: Session)
  {
    |s.skipVotes| < SkipVote.Threshold && PlayerConsistent(s)
  }

  /** The player half of the invariant: no running player without a current
      entry. */
  predicate PlayerConsistent(s: Session)
  {
    s.current.None? ==> s.playerDone
  }

  /** `VoiceState.is_playing`. */
  function IsPlaying(s: Session): (r: bool)
    ensures s.voice.None? || s.current.None? ==> !r
    ensures s.voice.Some? && s.current.Some? ==> (r <==> !s.playerDone)
  {
    s.voice.Some? && s.current.Some? && !s.playerDone
  }

  /** The id of the current entry's requester, if there is a current entry. */
  function Requester(s: Session): Option<UserId>
  {
    match s.current
    case None => None
    case Some(e) => Some(e.requester.id)
  }

  /** `VoiceState.skip`: clear the votes and stop the player if it plays. */
  function Skip(s: Session): (r: Session)
    ensures r.skipVotes == {}
    ensures r.current == s.current && r.voice == s.voice && r.songs == s.songs
    ensures r.playerDone == (s.playerDone || IsPlaying(s))
    ensures !IsPlaying(r)
    ensures PlayerConsistent(s) ==> Valid(r)
  {
    s.(skipVotes := {}, playerDone := s.playerDone || IsPlaying(s))
  }

  /** The current entry's player ends, at the end of its track or because
      it was stopped. */
  function Finish(s: Session): (r: Session)
    ensures r.playerDone && !IsPlaying(r)
    ensures r.(playerDone := s.playerDone) == s
    ensures Valid(s) ==> Valid(r)
  {
    s.(playerDone := true)
  }

  /** The playback loop is waiting for the queue: nothing has been played
      yet, or the current player has signalled completion. */
  predicate ReadyForNext(s: Session)
  {
    s.current.None? || s.playerDone
  }

  /** One turn of the playback loop: once the loop is ready and the queue
      holds an entry, the head of the queue becomes current and its player
      starts. Otherwise the loop is still waiting and nothing changes. The
      votes are kept as they are. */
  function Advance(s: Session): (r: Session)
    ensures ReadyForNext(s) && s.songs != [] ==>
              && r.current == Some(s.songs[0]) && r.songs == s.songs[1..]
              && !r.playerDone && IsPlaying(r) == s.voice.Some?
    ensures !(ReadyForNext(s) && s.songs != []) ==> r == s
    ensures r.voice == s.voice && r.skipVotes == s.skipVotes
    ensures Valid(s) ==> Valid(r)
  {
    if ReadyForNext(s) && s.songs != [] then
      s.(current := Some(s.songs[0]), songs := s.songs[1..], playerDone := false)
    else
      s
  }

  /** Put a resolved entry at the back of the queue. */
  function Enqueue(s: Session, e: VoiceEntry): (r: Session)
    ensures r.songs == s.songs + [e] && |r.songs| == |s.songs| + 1
    ensures r.(songs := s.songs) == s
    ensures Valid(s) ==> Valid(r)
  {
    s.(songs := s.songs + [e])
  }

  /** Join (or move to) a voice channel. */
  function Connect(s: Session, ch: ChannelId): (r: Session)
    ensures r.voice == Some(ch)
    ensures r.(voice := s.voice) == s
    ensures Valid(s) ==> Valid(r)
  {
    s.(voice := Some(ch))
  }

  /** The session-level effect of the `skip` command by `voter`. */
  function Vote(s: Session, voter: UserId): (r: (Session, SkipVote.Outcome))
    ensures r.0.current == s.current && r.0.voice == s.voice && r.0.songs == s.songs
    ensures r.1 == SkipVote.Decide(IsPlaying(s), voter, Requester(s), s.skipVotes).outcome
    ensures r.0.skipVotes == SkipVote.Decide(IsPlaying(s), voter, Requester(s), s.skipVotes).votes
    // a skip stops playback; any other outcome leaves the player alone
    ensures r.1.RequesterSkipped? || r.1.VotePassed? ==> !IsPlaying(r.0) && r.0.skipVotes == {}
    ensures !(r.1.RequesterSkipped? || r.1.VotePassed?) ==> r.0.playerDone == s.playerDone
    ensures r.1.NothingPlaying? ==> r.0 == s
    ensures Valid(s) ==> Valid(r.0)
  {
    var d := SkipVote.Decide(IsPlaying(s), voter, Requester(s), s.skipVotes);
    var s' := s.(skipVotes := d.votes);
    (if d.skipped then Skip(s') else s', d.outcome)
  }

  datatype SummonOutcome = Joined(channel: ChannelId) | Moved(channel: ChannelId)

  /** The session-level effect of `summon` once the author is known to be in
      channel `ch`: join it when not connected, otherwise move there. */
  function Summon(s: Session, ch: ChannelId): (r: (Session, SummonOutcome))
    ensures r.0.voice == Some(ch) && r.0.(voice := s.voice) == s
    ensures r.1.channel == ch && (r.1.Joined? <==> s.voice.None?)
  {
    (Connect(s, ch), if s.voice.None? then Joined(ch) else Moved(ch))
  }

  datatype PlayOutcome =
    | NotInVoiceChannel
    | ResolutionFailed
    | Enqueued(announced: bool)

  /** The session-level effect of the `yt` command: connect first when there
      is no connection (failing when the author is in no voice channel), then
      queue the resolved track. `resolved` is what the media resolver
      returned; `None` is a failed resolution. "Enqueued" is announced only
      when something is already current. */
  function Request(s: Session, author: Member, channel: Option<ChannelId>, resolved: Option<SongInfo>): (r: (Session, PlayOutcome))
    ensures r.1 == NotInVoiceChannel <==> s.voice.None? && channel.None?
    ensures r.1 == NotInVoiceChannel ==> r.0 == s
    ensures r.1 == ResolutionFailed <==> !(s.voice.None? && channel.None?) && resolved.None?
    ensures r.1.Enqueued? ==>
              && resolved.Some?
              && r.0.songs == s.songs + [VoiceEntry(author, resolved.value)]
              && r.1.announced == s.current.Some?
    ensures !r.1.Enqueued? ==> r.0.songs == s.songs
    ensures r.0.voice == (if s.voice.None? then channel else s.voice)
    // the request never touches playback or votes
    ensures r.0.current == s.current && r.0.skipVotes == s.skipVotes && r.0.playerDone == s.playerDone
    ensures Valid(s) ==> Valid(r.0)
  {
    if s.voice.None? && channel.None? then
      (s, NotInVoiceChannel)
    else
      var s' := if s.voice.None? then Connect(s, channel.value) else s;
      match resolved
      case None => (s', ResolutionFailed)
      case Some(info) => (Enqueue(s', VoiceEntry(author, info)), Enqueued(s'.current.Some?))
  }

  datatype Report = NotPlaying | NowPlaying(summary: Summary, skips: nat, threshold: nat)

  /** The `playing` command's report: nothing when there is no current entry,
      otherwise its summary and the vote count out of the threshold. */
  function NowPlayingReport(s: Session): (r: Report)
    ensures r.NotPlaying? <==> s.current.None?
    ensures r.NowPlaying? ==>
              r.summary == Describe(s.current.value) &&
              r.skips == |s.skipVotes| && r.threshold == SkipVote.Threshold
    ensures r.NowPlaying? && Valid(s) ==> r.skips < r.threshold
  {
    match s.current
    case None => NotPlaying
    case Some(e) => NowPlaying(Describe(e), |s.skipVotes|, SkipVote.Threshold)
  }

  // ---------------------------------------------------------------------
  // Runs of steps

  /** The things that can happen to one session. */
  datatype Event =
    | Put(entry: VoiceEntry)
    | Next
    | Complete
    | ForceSkip
    | Ballot(voter: UserId)
    | Join(channel: ChannelId)

  function Apply(s: Session, ev: Event): Session
  {
    match ev
    case Put(e) => Enqueue(s, e)
    case Next => Advance(s)
    case Complete => Finish(s)
    case ForceSkip => Skip(s)
    case Ballot(v) => Vote(s, v).0
    case Join(ch) => Connect(s, ch)
  }

  function Run(s: Session, evs: seq<Event>): Session
    decreases |evs|
  {
    if evs == [] then s else Run(Apply(s, evs[0]), evs[1..])
  }

  /** The entry an event makes current, if any. */
  function Started(s: Session, ev: Event): seq<VoiceEntry>
  {
    if ev.Next? && ReadyForNext(s) && s.songs != [] then [s.songs[0]] else []
  }

  /** The entries a run makes current, in the order it does so. */
  function Played(s: Session, evs: seq<Event>): seq<VoiceEntry>
    decreases |evs|
  {
    if evs == [] then [] else Started(s, evs[0]) + Played(Apply(s, evs[0]), evs[1..])
  }

  /** The entries a run puts on the queue, in order. */
  function Queued(evs: seq<Event>): seq<VoiceEntry>
    decreases |evs|
  {
    if evs == [] then [] else (if evs[0].Put? then [evs[0].entry] else []) + Queued(evs[1..])
  }

  /** One step keeps the queue's order: what it starts, followed by the queue
      after it, is the queue before it followed by what it puts. */
  lemma StepFifo(s: Session, ev: Event)
    ensures Started(s, ev) + Apply(s, ev).songs ==
            s.songs + (if ev.Put? then [ev.entry] else [])
  {
  }

  /** FIFO: over any run, the entries that became current, followed by what is
      still queued, are exactly the entries that were queued, in queue order.
      So every queued entry becomes current at most once, and in the order it
      was put. */
  lemma {:induction false} RunFifo(s: Session, evs: seq<Event>)
    ensures Played(s, evs) + Run(s, evs).songs == s.songs + Queued(evs)
    decreases |evs|
  {
    if evs != [] {
      var ev, rest := evs[0], evs[1..];
      var s' := Apply(s, ev);
      var started, played, left := Started(s, ev), Played(s', rest), Run(s', rest).songs;
      var put := if ev.Put? then [ev.entry] else [];
      assert Played(s, evs) == started + played;
      assert Run(s, evs).songs == left;
      assert Queued(evs) == put + Queued(rest);
      RunFifo(s', rest);
      StepFifo(s, ev);
      Regroup(started, played, left, s'.songs, Queued(rest), s.songs, put);
    }
  }

  /** The sequence algebra of one induction step of `RunFifo`. */
  lemma Regroup<T>(x: seq<T>, p: seq<T>, l: seq<T>, m: seq<T>, r: seq<T>, s0: seq<T>, u: seq<T>)
    requires p + l == m + r
    requires x + m == s0 + u
    ensures (x + p) + l == s0 + (u + r)
  {
    calc {
      (x + p) + l;
      x + (p + l);
      x + (m + r);
      (x + m) + r;
      (s0 + u) + r;
      s0 + (u + r);
    }
  }

  /** Starting from an empty queue, the entries played are a prefix of the
      entries queued. */
  lemma PlayedIsPrefixOfQueued(s: Session, evs: seq<Event>)
    requires s.songs == []
    ensures Played(s, evs) <= Queued(evs)
  {
    RunFifo(s, evs);
    var p := Played(s, evs);
    assert p + Run(s, evs).songs == Queued(evs);
    assert Queued(evs)[..|p|] == p;
  }

  /** After a run the current entry is the last entry it started, or the
      original one when it started none: only the loop's turn changes it. */
  lemma {:induction false} RunCurrent(s: Session, evs: seq<Event>)
    ensures Played(s, evs) == [] ==> Run(s, evs).current == s.current
    ensures Played(s, evs) != [] ==> Run(s, evs).current == Some(Played(s, evs)[|Played(s, evs)| - 1])
    decreases |evs|
  {
    if evs != [] {
      var s' := Apply(s, evs[0]);
      assert Played(s, evs) == Started(s, evs[0]) + Played(s', evs[1..]);
      assert Run(s, evs) == Run(s', evs[1..]);
      RunCurrent(s', evs[1..]);
      StepCurrent(s, evs[0]);
    }
  }

  /** Only a loop turn that starts an entry changes the current entry, and it
      makes that entry current. */
  lemma StepCurrent(s: Session, ev: Event)
    ensures Started(s, ev) == [] ==> Apply(s, ev).current == s.current
    ensures Started(s, ev) != [] ==> Apply(s, ev).current == Some(Started(s, ev)[0]) && |Started(s, ev)| == 1
  {
  }

  /** `n` rounds of "the current player ends, then the loop takes its next
      turn". */
  function Drain(n: nat): seq<Event>
  {
    if n == 0 then [] else [Complete, Next] + Drain(n - 1)
  }

  /** Liveness of the loop: when each player ends in turn, every queued entry
      becomes current, in queue order, and the queue empties. With `RunFifo`
      this makes each queued entry current exactly once. */
  lemma {:induction false} DrainPlaysAll(s: Session)
    ensures Played(s, Drain(|s.songs|)) == s.songs
    ensures Run(s, Drain(|s.songs|)).songs == []
    decreases |s.songs|
  {
    if s.songs != [] {
      var n := |s.songs|;
      var evs := Drain(n);
      var s1 := Finish(s);
      var s2 := Advance(s1);
      assert evs == [Complete, Next] + Drain(n - 1);
      assert evs[0] == Complete && evs[1..] == [Next] + Drain(n - 1);
      assert evs[1..][0] == Next && evs[1..][1..] == Drain(n - 1);
      assert Started(s, Complete) == [];
      assert Started(s1, Next) == [s.songs[0]];
      assert s2.songs == s.songs[1..] && |s2.songs| == n - 1;
      DrainPlaysAll(s2);
      assert Played(s, evs) == [] + ([s.songs[0]] + Played(s2, Drain(n - 1)));
      assert Run(s, evs) == Run(s2, Drain(n - 1));
    }
  }

  /** Every step keeps the session invariant. */
  lemma StepValid(s: Session, ev: Event)
    requires Valid(s)
    ensures Valid(Apply(s, ev))
  {
  }

  /** Every run from a valid session (in particular a fresh one) ends valid:
      the vote count never reaches the threshold and there is never a running
      player without a current entry. */
  lemma {:induction false} RunValid(s: Session, evs: seq<Event>)
    requires Valid(s)
    ensures Valid(Run(s, evs))
    decreases |evs|
  {
    if evs != [] {
      StepValid(s, evs[0]);
      RunValid(Apply(s, evs[0]), evs[1..]);
    }
  }

  // ---------------------------------------------------------------------
  // The skip-vote scenarios

  /** A requester's skip works whatever the vote count, and clears the set. */
  lemma RequesterAlwaysSkips(s: Session)
    requires IsPlaying(s)
    ensures Vote(s, s.current.value.requester.id).1 == SkipVote.RequesterSkipped
    ensures !IsPlaying(Vote(s, s.current.value.requester.id).0)
    ensures Vote(s, s.current.value.requester.id).0.skipVotes == {}
  {
  }

  /** With no votes recorded, a non-requester's vote is counted as 1, and the
      same voter voting again is refused without changing anything. */
  lemma FirstVoteThenRepeat(s: Session, v: UserId)
    requires IsPlaying(s) && s.skipVotes == {} && Requester(s) != Some(v)
    ensures Vote(s, v).1 == SkipVote.VoteAdded(1)
    ensures IsPlaying(Vote(s, v).0)
    ensures Vote(Vote(s, v).0, v).1 == SkipVote.AlreadyVoted
    ensures Vote(Vote(s, v).0, v).0 == Vote(s, v).0
  {
  }

  /** Three distinct non-requesters voting while a track plays: the first two
      are counted as 1 and 2 without touching playback, the third passes the
      vote, stops the player and leaves the set empty. */
  lemma ThreeVotesSkip(s: Session, a: UserId, b: UserId, c: UserId)
    requires IsPlaying(s) && s.skipVotes == {}
    requires a != b && b != c && a != c
    requires Requester(s) !in {Some(a), Some(b), Some(c)}
    ensures Vote(s, a).1 == SkipVote.VoteAdded(1) && IsPlaying(Vote(s, a).0)
    ensures Vote(Vote(s, a).0, b).1 == SkipVote.VoteAdded(2) && IsPlaying(Vote(Vote(s, a).0, b).0)
    ensures Vote(Vote(Vote(s, a).0, b).0, c).1 == SkipVote.VotePassed
    ensures !IsPlaying(Vote(Vote(Vote(s, a).0, b).0, c).0)
    ensures Vote(Vote(Vote(s, a).0, b).0, c).0.skipVotes == {}
  {
  }

  /** The playback loop does not clear the votes when it starts the next
      entry: votes cast while one track played still count against the next
      one. With two votes left over, a single new vote skips the new track. */
  lemma VotesOutliveTrack(s: Session, a: UserId, b: UserId, c: UserId)
    requires s.voice.Some? && ReadyForNext(s) && s.songs != []
    requires s.skipVotes == {a, b} && a != b && c !in {a, b}
    requires s.songs[0].requester.id != c
    ensures Advance(s).current == Some(s.songs[0]) && IsPlaying(Advance(s))
    ensures Advance(s).skipVotes == {a, b}
    ensures Vote(Advance(s), c).1 == SkipVote.VotePassed
  {
  }
}
