# Casper voice session, modelled in Dafny

Casper is a chat bot that plays audio tracks in a guild's voice channel.
Members queue tracks with `yt`, and they vote with `skip` to cut the current
track short. This project models the part of `casper.py` with logic of its own:

- the per-guild `VoiceState`: the current entry, the voice connection, the FIFO
  queue `songs`, the `skip_votes` set, and the player's "done" flag;
- the playback loop, taken one turn at a time;
- the `Music` registry `voice_states`, with get-or-create and `stop`'s deletion;
- the decision logic of the `summon`, `yt`, `stop`, `skip` and `playing` commands;
- the length split that `VoiceEntry.__str__` shows.

Layout:

- `wrappers.dfy`: `Option`, and the ids of members, channels and guilds.
- `track.dfy`: `VoiceEntry`, its metadata and its summary.
- `skip_vote.dfy`: the pure skip-vote decision, with threshold 3.
- `sessions.dfy`: the session as a value. It has one function per step
  (`Skip`, `Finish`, `Advance`, `Enqueue`, `Connect`) and one per command effect
  (`Vote`, `Summon`, `Request`, `NowPlayingReport`). It also has lemmas over
  runs of events: FIFO order, the invariant, and the vote scenarios.
- `voice_state.dfy`: the class `VoiceState`. Each state-changing method other
  than `AddVote` changes its fields exactly as the matching `Sessions` function
  changes `Snapshot()`; `AddVote` only adds one id to the vote set.
- `registry.dfy`: `voice_states` as a map value, with get-or-create and removal.
- `commands.dfy`: the class `Music`. It holds a `map` from guild to `VoiceState`
  object. Each command's `ensures` gives the new registry value (`Snapshot()`)
  and the reply in terms of the `Sessions` and `Registry` functions.

How the code's parts are abstracted:

- The player is abstracted to the flag `playerDone`.
- `Finish` is the player ending, either at the end of its track or through
  `player.stop()`. Either way its `after` callback wakes the loop.
- `Advance` is one turn of `audio_player_task`'s `while True` loop. When the
  previous player is done, or there was none, it makes the head of the queue
  current and starts its player. Otherwise the loop is still waiting, and
  nothing changes.
- The media resolver's result is an input to `yt`: `Some(info)` or `None` for a
  failure.
- The dev-mode gate is a `Config` value given to the `Music` constructor. A
  refused command changes nothing.

Behaviour of the code that the model keeps:

- Votes are not reset when a new track starts. `skip_votes` is cleared only in
  `VoiceState.skip` (`casper.py:59-62`), never in `audio_player_task`
  (`casper.py:67-73`). So votes cast during one track still count against the
  next track when the first one ends on its own. `Sessions.VotesOutliveTrack`
  shows that two left-over votes plus one new vote skip the new track.
- Commands on a guild with no session create one. `skip`, `playing` and `stop`
  all call `get_voice_state` first, so on a guild with no session they create
  one, and `stop` then deletes it again.
- The requester is compared by member id, which is how the platform's member
  objects compare.

## Model

| member | source | states |
|---|---|---|
| Track.TotalSeconds | casper.py:27-29 | the duration used is the reported one, and 0 when it is missing |
| Track.Length | casper.py:27-34 | the displayed length is `divmod(d, 60)`: seconds below 60, minutes*60 + seconds equals the duration, and a missing duration gives 0m 0s |
| Track.LengthUnique | casper.py:34 | the (minutes, seconds) pair with seconds below 60 that recombines to the duration is unique, so it is exactly Python's `divmod` on a non-negative duration |
| Track.Describe | casper.py:26-35 | the summary carries the title, the uploader, the requester's display name and the length split, with 0m 0s for a missing duration |
| SkipVote.Decide | casper.py:223-241 | not playing: no change. Requester: immediate skip whatever the count. Repeat voter: refused, set unchanged. New vote: the voter is added; at 3 or more the vote passes and the set is emptied, otherwise the new size (1 or 2) is reported. A skip happens exactly on the two skipping outcomes. The set stays below 3. |
| Commands.Music.Refused | casper.py:109-112 | in dev mode every member but the developer is refused; outside dev mode, and for the developer, nobody is |
| Sessions.Fresh | casper.py:39-45 | a new session has no current entry, no connection, an empty queue and no votes; it is valid and nothing plays |
| Sessions.IsPlaying | casper.py:48-53 | false without a connection or a current entry; otherwise exactly "the current player is not done" |
| Sessions.Skip | casper.py:59-62 | votes become empty. The player is stopped exactly when it was playing. Queue, current entry and connection are unchanged. Nothing plays afterwards. |
| Sessions.Finish | casper.py:64-73 | the player ending marks it done; nothing else changes and nothing plays afterwards |
| Sessions.Advance | casper.py:67-73 | once the loop is ready and the queue is non-empty, the head becomes current, its player is marked running (not done) and the rest stays queued; otherwise nothing changes; connection and votes are kept |
| Sessions.Enqueue | casper.py:184 | the entry is appended at the back of the queue and nothing else changes |
| Sessions.Connect | casper.py:119-123 | the connection is now the given channel and nothing else changes |
| Sessions.Vote | casper.py:223-241 | the skip command on a session: outcome and vote set as `SkipVote.Decide`; a skip stops playback and empties the votes; otherwise the player is untouched; nothing playing means no change; queue and current never change |
| Sessions.Summon | casper.py:119-125 | when not connected it joins, otherwise it moves; either way the session is connected to the author's channel |
| Sessions.Request | casper.py:137-184 | not connected and no channel: not-in-voice-channel, no change. Failed resolution: queue unchanged. Otherwise the entry (the author plus the resolved info) is appended, and announced iff something is current. It never touches playback or votes. |
| Sessions.NowPlayingReport | casper.py:253-258 | "not playing" iff no current entry; otherwise the current entry's summary and the vote count, out of 3, and below 3 |
| Sessions.StepFifo | casper.py:70 | one step: the entry it starts, followed by the queue after it, equals the queue before it followed by what it puts |
| Sessions.RunFifo | casper.py:67-73 | over any run, the entries that became current, followed by those still queued, are the queued entries in queue order: strict FIFO, and each at most once |
| Sessions.DrainPlaysAll | casper.py:67-73 | when each player ends in turn, the loop makes every queued entry current, in queue order, and empties the queue; with `RunFifo`, each queued entry becomes current exactly once |
| Sessions.PlayedIsPrefixOfQueued | casper.py:70 | from an empty queue, the play order is a prefix of the enqueue order |
| Sessions.RunCurrent | casper.py:70 | after a run, the current entry is the last entry the loop started, or unchanged if it started none |
| Sessions.StepCurrent | casper.py:70 | only a loop turn that starts an entry changes the current entry, and that entry becomes current |
| Sessions.StepValid | casper.py:60 | every step keeps the invariant: fewer than 3 votes, and no running player without a current entry |
| Sessions.RunValid | casper.py:232-237 | every run from a valid (for example fresh) session ends valid |
| Sessions.RequesterAlwaysSkips | casper.py:229-231 | while playing, the requester's skip succeeds whatever the vote count; it empties the votes and stops playback |
| Sessions.FirstVoteThenRepeat | casper.py:232-241 | with no votes, a non-requester's vote is counted as 1; the same voter again is refused with no change |
| Sessions.ThreeVotesSkip | casper.py:232-239 | three distinct non-requesters: counts 1 and 2 leave playback alone; the third passes, stops the player and leaves the set empty |
| Sessions.VotesOutliveTrack | casper.py:67-73 | starting the next entry keeps the votes, so two left-over votes and one new vote skip the new track |
| Registry.Lookup | casper.py:81-87 | a guild's session is the stored one, or a fresh one when the guild has none |
| Registry.GetOrCreate | casper.py:81-87 | a fresh session is added only when the guild is absent; the map is otherwise unchanged, and other guilds are never touched |
| Registry.Remove | casper.py:208 | the guild's key goes, and every other entry stays |
| Registry.GetOrCreateIdempotent | casper.py:81-87 | looking a guild up twice equals looking it up once |
| Registry.StopThenGetIsFresh | casper.py:207-208 | after removal, the next get-or-create gives a fresh session (empty queue, nothing current); other guilds keep theirs |
| VoiceStates.VoiceState.constructor | casper.py:39-46 | a new state: no current entry, no connection, empty queue, no votes |
| VoiceStates.VoiceState.IsPlaying | casper.py:48-53 | false without a connection or a current entry; otherwise exactly "the current player is not done", as `Sessions.IsPlaying` of the fields |
| VoiceStates.VoiceState.AddVote | casper.py:233 | the voter's id is added to the vote set and nothing else changes |
| VoiceStates.VoiceState.Skip | casper.py:59-62 | fields change as `Sessions.Skip`: votes cleared, player stopped only if playing, queue, current and connection kept |
| VoiceStates.VoiceState.Finish | casper.py:64-73 | the player ends, as `Sessions.Finish` |
| VoiceStates.VoiceState.Advance | casper.py:67-73 | one loop turn, as `Sessions.Advance`; returns the entry taken, which is the old queue head |
| VoiceStates.VoiceState.Enqueue | casper.py:184 | the queue becomes the old queue followed by the entry |
| VoiceStates.VoiceState.Connect | casper.py:119-123 | the connection is recorded, as `Sessions.Connect` |
| Commands.Music.constructor | casper.py:77-79 | the registry starts empty |
| Commands.Music.GetVoiceState | casper.py:81-87 | returns the stored object when the guild has one, with the map unchanged; otherwise a fresh object is stored under the guild; the registry value becomes `GetOrCreate` of the old one |
| Commands.Music.CreateVoiceClient | casper.py:89-92 | the guild's session (created if needed) records the connection |
| Commands.Music.Summon | casper.py:103-125 | refused in dev mode, or without a channel, with no change and no lookup; otherwise it joins or moves, changing only that guild's session |
| Commands.Music.Play | casper.py:127-184 | refused in dev mode with no change; otherwise the guild's session becomes `Sessions.Request` of its looked-up session, and the reply is its outcome |
| Commands.Music.Stop | casper.py:186-211 | refused in dev mode with no change; otherwise replies stopped iff the guild's session was playing, leaves that session's player stopped, and the registry loses exactly that guild |
| Commands.Music.Skip | casper.py:213-241 | refused in dev mode with no change; otherwise the guild's session and the reply are `Sessions.Vote` of its looked-up session |
| Commands.Music.Playing | casper.py:243-258 | refused in dev mode with no change; otherwise replies with the guild's now-playing report, after get-or-create |

## Left out

- Chat I/O is not modelled: the reply and announcement texts, joining, moving and
  disconnecting voice, command registration and decorators, and the bot's start-up
  (`casper.py:89-125` for the platform calls, `casper.py:261-271`). These are calls
  into the chat platform. Replies are outcome datatypes, and a voice connection is
  just the channel it is in.
- Track resolution is not modelled: youtube_dl metadata extraction, the audio-cache
  check, the download and the ffmpeg player (`casper.py:138-176`). These are an
  external library and the filesystem. The resolver's answer is an input, and a
  failure queues nothing.
- asyncio is not modelled: tasks, the `play_next_song` event,
  `call_soon_threadsafe`, cancelling the loop and blocking waits. Waking the loop
  is the `Finish` step followed by the `Advance` step. A loop turn that would
  block leaves the session unchanged.
- Concurrency is not modelled. Commands and loop turns run one at a time, so
  races between command handlers and the loop are out of scope.
- `__unload` (`casper.py:94-101`) and the teardown in `stop` are not modelled.
  They cancel loop tasks and disconnect voice, swallowing every error. Only
  `stop`'s registry deletion and its player stop are modelled.
- Opus loading, logging and the token are configuration, so they are left out.
  The dev-mode gate is a `Config` value.
- Ids and durations are simplified. Platform ids are opaque naturals. A duration
  is a natural number of seconds, so a fractional duration from the resolver and
  the float `divmod` that would follow are not modelled.
- The `VoiceEntry` fields `channel` and `player` are not modelled. The first is
  used only for announcements. The second is the session's `playerDone` flag.
