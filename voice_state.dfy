/** `VoiceState`: the mutable per-guild session. Each method changes the
    fields the way the matching function of `Sessions` changes the value. */
module VoiceStates {
  import opened Wrappers
  import opened Ids
  import opened Track
  import Sessions

  class VoiceState {
    var current: Option<VoiceEntry>
    var voice: Option<ChannelId>
    var songs: seq<VoiceEntry>
    var skipVotes: set<UserId>
    /** The current entry's player has finished or been stopped. */
    var playerDone: bool

    /** The session value these fields hold. */
    function Snapshot(): Sessions.Session
      reads this
    {
      Sessions.Session(current, voice, songs, skipVotes, playerDone)
    }

    ghost predicate Valid()
      reads this
    {
      Sessions.Valid(Snapshot())
    }

    /** A new session: no current entry, no connection, an empty queue and
        no votes. */
    constructor ()
      ensures Valid()
      ensures Snapshot() == Sessions.Fresh()
    {
      current := None;
      voice := None;
      songs := [];
      skipVotes := {};
      playerDone := true;
    }

    /** `is_playing`: connected, with a current entry whose player is not
        done. */
    function IsPlaying(): (r: bool)
      reads this
      ensures voice.None? || current.None? ==> !r
      ensures r == Sessions.IsPlaying(Snapshot())
    {
      voice.Some? && current.Some? && !playerDone
    }

    /** Record `voter`'s skip vote. The set may reach the threshold here; the
        caller then skips, which empties it again. */
    method AddVote(voter: UserId)
      modifies this
      ensures Snapshot() == old(Snapshot()).(skipVotes := old(skipVotes) + {voter})
      ensures old(Sessions.PlayerConsistent(Snapshot())) ==> Sessions.PlayerConsistent(Snapshot())
    {
      skipVotes := skipVotes + {voter};
    }

    /** Clear the votes and stop the player if it is playing; the queue, the
        current entry and the connection stay as they are. */
    method Skip()
      requires Sessions.PlayerConsistent(Snapshot())
      modifies this
      ensures Valid()
      ensures Snapshot() == Sessions.Skip(old(Snapshot()))
      ensures skipVotes == {} && !IsPlaying()
      ensures current == old(current) && songs == old(songs) && voice == old(voice)
    {
      skipVotes := {};
      if IsPlaying() {
        playerDone := true;
      }
    }

    /** The current player ends: it reaches the end of its track, or it is
        stopped from outside (`player.stop()`). */
    method Finish()
      requires Valid()
      modifies this
      ensures Valid()
      ensures Snapshot() == Sessions.Finish(old(Snapshot()))
    {
      playerDone := true;
    }

    /** One turn of the playback loop: when the previous player is done (or
        there was none) and an entry is queued, take the head of the queue,
        make it current and start its player. `started` is the entry taken. */
    method Advance() returns (started: Option<VoiceEntry>)
      requires Valid()
      modifies this
      ensures Valid()
      ensures Snapshot() == Sessions.Advance(old(Snapshot()))
      ensures started.Some? <==> Sessions.ReadyForNext(old(Snapshot())) && old(songs) != []
      ensures started.Some? ==> started.value == old(songs)[0] && current == started
    {
      if (current.None? || playerDone) && songs != [] {
        current := Some(songs[0]);
        songs := songs[1..];
        playerDone := false;
        started := current;
      } else {
        started := None;
      }
    }

    /** Put an entry at the back of the queue. */
    method Enqueue(e: VoiceEntry)
      requires Valid()
      modifies this
      ensures Valid()
      ensures Snapshot() == Sessions.Enqueue(old(Snapshot()), e)
    {
      songs := songs + [e];
    }

    /** Record the voice connection, now in channel `ch`. */
    method Connect(ch: ChannelId)
      requires Valid()
      modifies this
      ensures Valid()
      ensures Snapshot() == Sessions.Connect(old(Snapshot()), ch)
    {
      voice := Some(ch);
    }
  }
}
