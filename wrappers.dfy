/** Small shared vocabulary: an optional value and the opaque identities the
    chat platform hands the bot. */
module Wrappers {
  datatype Option<T> = None | Some(value: T)
}

module Ids {
  /** Identity of a chat member (the platform's user id). */
  type UserId = nat
  /** Identity of a voice channel the bot can join. */
  type ChannelId = nat
  /** Identity of a guild (server); one voice session is kept per guild. */
  type ServerId = nat

  /** A member as the bot sees one: its id and its display name. */
  datatype Member = Member(id: UserId, displayName: string)
}
