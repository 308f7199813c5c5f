/** A queued track (`VoiceEntry`) and the summary its string form shows:
    title, uploader, requester and the length split into minutes and seconds. */
module Track {
  import opened Wrappers
  import opened Ids

  /** Seconds in a minute, the divisor of the length split. */
  const SecondsPerMinute: nat := 60

  /** The metadata the media resolver reports for one track. The duration
      may be missing. */
  datatype SongInfo = SongInfo(title: string, uploader: string, duration: Option<nat>)

  /** One queued track: who asked for it and what it is. The player the
      entry carries is abstracted by the session's `playerDone` flag. */
  datatype VoiceEntry = VoiceEntry(requester: Member, info: SongInfo)

  /** What the text form of an entry shows. */
  datatype Summary = Summary(
    title: string,
    uploader: string,
    requestedBy: string,
    minutes: nat,
    seconds: nat)

  /** The duration used for display: a missing (or zero) duration counts as 0. */
  function TotalSeconds(info: SongInfo): (d: nat)
    ensures info.duration.None? ==> d == 0
    ensures info.duration.Some? ==> d == info.duration.value
  {
    match info.duration
    case None => 0
    case Some(d) => d
  }

  /** The `divmod(duration, 60)` pair: whole minutes and leftover seconds. */
  function Length(info: SongInfo): (len: (nat, nat))
    ensures len.1 < SecondsPerMinute
    ensures len.0 * SecondsPerMinute + len.1 == TotalSeconds(info)
    ensures info.duration.None? ==> len == (0, 0)
  {
    var d := TotalSeconds(info);
    (d / SecondsPerMinute, d % SecondsPerMinute)
  }

  /** The split is the only one with seconds below a minute: any (m, s)
      that recombines to the duration with s < 60 is the pair `Length` gives. */
  lemma LengthUnique(info: SongInfo, m: nat, s: nat)
    requires s < SecondsPerMinute
    requires m * SecondsPerMinute + s == TotalSeconds(info)
    ensures Length(info) == (m, s)
  {
  }

  /** The summary of an entry, as `VoiceEntry.__str__` renders it. */
  function Describe(e: VoiceEntry): (s: Summary)
    ensures s.title == e.info.title && s.uploader == e.info.uploader
    ensures s.requestedBy == e.requester.displayName
    ensures s.seconds < SecondsPerMinute
    ensures s.minutes * SecondsPerMinute + s.seconds == TotalSeconds(e.info)
    ensures e.info.duration.None? ==> s.minutes == 0 && s.seconds == 0
  {
    var len := Length(e.info);
    Summary(e.info.title, e.info.uploader, e.requester.displayName, len.0, len.1)
  }
}
