/** The `Music` cog: the guild registry and the decision logic of its
    commands. Every command but `summon` first looks the guild up with
    get-or-create; each then changes that one session the way the matching
    function of `Sessions` does. Chat replies are returned as outcomes. */
module Commands {
  import opened Wrappers
  import opened Ids
  import opened Track
  import Sessions
  import SkipVote
  import Registry
  import opened VoiceStates

  /** The dev-mode switch and the one member it still answers. */
  datatype Config = Config(devMode: bool, devId: UserId)

  /** A command's answer: refused by the dev-mode gate, or what it did. */
  datatype Reply<T> = DevModeOnly | Ran(result: T)

  datatype SummonResult = NoVoiceChannel | Summoned(how: Sessions.SummonOutcome)

  datatype StopOutcome = Stopped | NothingToStop

  class Music {
    const config: Config
    var voiceStates: map<ServerId, VoiceState>

    /** Every session is valid, and no two guilds share one. */
    ghost predicate Valid()
      reads this, voiceStates.Values
    {
      && (forall k :: k in voiceStates ==> voiceStates[k].Valid())
      && (forall a, b :: a in voiceStates && b in voiceStates && a != b ==> voiceStates[a] != voiceStates[b])
    }

    /** The registry's value: each guild's session. */
    function Snapshot(): Registry.Table
      reads this, voiceStates.Values
    {
      map k | k in voiceStates :: voiceStates[k].Snapshot()
    }

    /** The session object of `server`, if it has one. */
    function Slot(server: ServerId): set<VoiceState>
      reads this
    {
      if server in voiceStates then {voiceStates[server]} else {}
    }

    /** Changing one guild's session object changes the registry's value at
        that guild only. */
    twostate lemma SlotChanged(server: ServerId)
      requires old(Valid()) && server in voiceStates && voiceStates == old(voiceStates)
      requires forall k :: k in voiceStates && k != server ==> unchanged(voiceStates[k])
      requires voiceStates[server].Valid()
      ensures Valid()
      ensures Snapshot() == old(Snapshot())[server := voiceStates[server].Snapshot()]
    {
    }

    /** Recording a new session object for a guild that had none leaves
        every other guild's session as it was. */
    twostate lemma SlotAdded(server: ServerId)
      requires old(Valid()) && server !in old(voiceStates)
      requires server in voiceStates && voiceStates == old(voiceStates)[server := voiceStates[server]]
      requires voiceStates[server] !in old(voiceStates).Values && voiceStates[server].Valid()
      requires forall k :: k in old(voiceStates) ==> unchanged(voiceStates[k])
      ensures Valid()
      ensures Snapshot() == old(Snapshot())[server := voiceStates[server].Snapshot()]
    {
      forall k | k in old(voiceStates)
        ensures voiceStates[k] == old(voiceStates[k]) && voiceStates[k] != voiceStates[server]
      {
      }
    }

    /** Dropping one guild's entry, with every other session object left as
        it was, drops exactly that guild from the registry's value. */
    twostate lemma SlotRemoved(server: ServerId)
      requires old(Valid()) && voiceStates == old(voiceStates) - {server}
      requires forall k :: k in voiceStates ==> unchanged(voiceStates[k])
      ensures Valid()
      ensures Snapshot() == Registry.Remove(old(Snapshot()), server)
    {
    }

    /** In dev mode, only the developer's commands are answered. */
    function Refused(author: UserId): (r: bool)
      ensures !config.devMode || author == config.devId ==> !r
      ensures config.devMode && author != config.devId ==> r
    {
      config.devMode && author != config.devId
    }

    constructor (config: Config)
      ensures Valid()
      ensures this.config == config && Snapshot() == map[]
    {
      this.config := config;
      voiceStates := map[];
    }

    /** `get_voice_state`: the guild's session, created (fresh, and recorded)
        only when the guild has none; an existing one is returned as it is and
        no other guild's entry is touched. */
    method GetVoiceState(server: ServerId) returns (st: VoiceState)
      requires Valid()
      modifies this
      ensures Valid()
      ensures server in voiceStates && st == voiceStates[server]
      ensures server in old(voiceStates) ==> voiceStates == old(voiceStates)
      ensures server !in old(voiceStates) ==> fresh(st) && voiceStates == old(voiceStates)[server := st]
      ensures Snapshot() == Registry.GetOrCreate(old(Snapshot()), server)
    {
      if server in voiceStates {
        st := voiceStates[server];
      } else {
        label Absent:
        st := new VoiceState();
        voiceStates := voiceStates[server := st];
        SlotAdded@Absent(server);
      }
    }

    /** `create_voice_client`: record the connection just made to `ch`. */
    method CreateVoiceClient(server: ServerId, ch: ChannelId)
      requires Valid()
      modifies this, Slot(server)
      ensures Valid()
      ensures Snapshot() == old(Snapshot())[server := Sessions.Connect(Registry.Lookup(old(Snapshot()), server), ch)]
    {
      var st := GetVoiceState(server);
      label Found:
      st.Connect(ch);
      SlotChanged@Found(server);
      Registry.UpdateAfterGet(old(Snapshot()), server, st.Snapshot());
    }

    /** `summon`: join the author's voice channel, or move there when already
        connected. Without a channel nothing is looked up or created. */
    method Summon(server: ServerId, author: Member, channel: Option<ChannelId>) returns (reply: Reply<SummonResult>)
      requires Valid()
      modifies this, Slot(server)
      ensures Valid()
      ensures Refused(author.id) ==> reply == DevModeOnly && Snapshot() == old(Snapshot())
      ensures !Refused(author.id) && channel.None? ==>
                reply == Ran(NoVoiceChannel) && Snapshot() == old(Snapshot())
      ensures !Refused(author.id) && channel.Some? ==>
                var r := Sessions.Summon(Registry.Lookup(old(Snapshot()), server), channel.value);
                reply == Ran(Summoned(r.1)) && Snapshot() == old(Snapshot())[server := r.0]
    {
      if Refused(author.id) {
        return DevModeOnly;
      }
      if channel.None? {
        return Ran(NoVoiceChannel);
      }
      var st := GetVoiceState(server);
      label Found:
      var how := if st.voice.None? then Sessions.Joined(channel.value) else Sessions.Moved(channel.value);
      st.Connect(channel.value);
      SlotChanged@Found(server);
      Registry.UpdateAfterGet(old(Snapshot()), server, st.Snapshot());
      reply := Ran(Summoned(how));
    }

    /** `yt`: connect through `summon` when not connected, then queue the
        track the resolver returned (`None` for a failed resolution, which
        queues nothing). */
    method Play(server: ServerId, author: Member, channel: Option<ChannelId>, resolved: Option<SongInfo>)
      returns (reply: Reply<Sessions.PlayOutcome>)
      requires Valid()
      modifies this, Slot(server)
      ensures Valid()
      ensures Refused(author.id) ==> reply == DevModeOnly && Snapshot() == old(Snapshot())
      ensures !Refused(author.id) ==>
                var r := Sessions.Request(Registry.Lookup(old(Snapshot()), server), author, channel, resolved);
                reply == Ran(r.1) && Snapshot() == old(Snapshot())[server := r.0]
    {
      if Refused(author.id) {
        return DevModeOnly;
      }
      var st := GetVoiceState(server);
      label Found:
      ghost var s0 := st.Snapshot();
      if st.voice.None? && channel.None? {
        reply := Ran(Sessions.NotInVoiceChannel);
      } else {
        if st.voice.None? {
          st.Connect(channel.value);
        }
        match resolved
        case None =>
          reply := Ran(Sessions.ResolutionFailed);
        case Some(info) =>
          var announced := st.current.Some?;
          st.Enqueue(VoiceEntry(author, info));
          reply := Ran(Sessions.Enqueued(announced));
      }
      assert (st.Snapshot(), reply.result) == Sessions.Request(s0, author, channel, resolved);
      SlotChanged@Found(server);
      Registry.UpdateAfterGet(old(Snapshot()), server, st.Snapshot());
    }

    /** `stop`: stop the player if it is playing and drop the guild's entry
        from the registry, so that the next lookup starts afresh. */
    method Stop(server: ServerId, author: Member) returns (reply: Reply<StopOutcome>)
      requires Valid()
      modifies this, Slot(server)
      ensures Valid()
      ensures Refused(author.id) ==> reply == DevModeOnly && Snapshot() == old(Snapshot())
      ensures !Refused(author.id) ==>
                && reply == Ran(if Sessions.IsPlaying(Registry.Lookup(old(Snapshot()), server)) then Stopped else NothingToStop)
                && Snapshot() == Registry.Remove(old(Snapshot()), server)
                && server !in voiceStates
      // the dropped session's player is left stopped
      ensures !Refused(author.id) ==> forall st :: st in old(Slot(server)) ==> !st.IsPlaying()
    {
      if Refused(author.id) {
        return DevModeOnly;
      }
      var st := GetVoiceState(server);
      label Found:
      assert st.Snapshot() == Registry.Lookup(old(Snapshot()), server);
      if st.IsPlaying() {
        st.Finish();
        reply := Ran(Stopped);
      } else {
        reply := Ran(NothingToStop);
      }
      voiceStates := voiceStates - {server};
      SlotRemoved@Found(server);
      Registry.RemoveAfterGet(old(Snapshot()), server);
    }

    /** `skip`: the requester skips at once; anyone else votes, and the third
        distinct vote skips. */
    method Skip(server: ServerId, voter: Member) returns (reply: Reply<SkipVote.Outcome>)
      requires Valid()
      modifies this, Slot(server)
      ensures Valid()
      ensures Refused(voter.id) ==> reply == DevModeOnly && Snapshot() == old(Snapshot())
      ensures !Refused(voter.id) ==>
                var r := Sessions.Vote(Registry.Lookup(old(Snapshot()), server), voter.id);
                reply == Ran(r.1) && Snapshot() == old(Snapshot())[server := r.0]
    {
      if Refused(voter.id) {
        return DevModeOnly;
      }
      var st := GetVoiceState(server);
      label Found:
      if !st.IsPlaying() {
        reply := Ran(SkipVote.NothingPlaying);
      } else if voter.id == st.current.value.requester.id {
        st.Skip();
        reply := Ran(SkipVote.RequesterSkipped);
      } else if voter.id !in st.skipVotes {
        st.AddVote(voter.id);
        var total := |st.skipVotes|;
        if total >= SkipVote.Threshold {
          st.Skip();
          reply := Ran(SkipVote.VotePassed);
        } else {
          reply := Ran(SkipVote.VoteAdded(total));
        }
      } else {
        reply := Ran(SkipVote.AlreadyVoted);
      }
      SlotChanged@Found(server);
      Registry.UpdateAfterGet(old(Snapshot()), server, st.Snapshot());
    }

    /** `playing`: report the current entry with its vote count. */
    method Playing(server: ServerId, author: Member) returns (reply: Reply<Sessions.Report>)
      requires Valid()
      modifies this
      ensures Valid()
      ensures Refused(author.id) ==> reply == DevModeOnly && Snapshot() == old(Snapshot())
      ensures !Refused(author.id) ==>
                && reply == Ran(Sessions.NowPlayingReport(Registry.Lookup(old(Snapshot()), server)))
                && Snapshot() == Registry.GetOrCreate(old(Snapshot()), server)
    {
      if Refused(author.id) {
        return DevModeOnly;
      }
      var st := GetVoiceState(server);
      reply := Ran(Sessions.NowPlayingReport(st.Snapshot()));
    }
  }
}
