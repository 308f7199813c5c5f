/** `Music.voice_states` as a value: a map from guild to session, read with
    get-or-create and shrunk by `stop`. */
module Registry {
  import opened Ids
  import Sessions

  type Table = map<ServerId, Sessions.Session>

  /** The session a guild has, or the fresh one `get_voice_state` would make. */
  function Lookup(m: Table, server: ServerId): (s: Sessions.Session)
    ensures server in m ==> s == m[server]
    ensures server !in m ==> s == Sessions.Fresh()
  {
    if server in m then m[server] else Sessions.Fresh()
  }

  /** `get_voice_state`: add a fresh session only when the guild has none. */
  function GetOrCreate(m: Table, server: ServerId): (r: Table)
    ensures r.Keys == m.Keys + {server}
    ensures server in m ==> r == m
    ensures server !in m ==> r[server] == Sessions.Fresh()
    ensures forall k :: k in m ==> r[k] == m[k]
  {
    if server in m then m else m[server := Sessions.Fresh()]
  }

  /** `stop`'s deletion of the guild's entry. */
  function Remove(m: Table, server: ServerId): (r: Table)
    ensures r.Keys == m.Keys - {server}
    ensures forall k :: k in r ==> r[k] == m[k]
  {
    m - {server}
  }

  /** Looking up twice creates nothing the second time. */
  lemma GetOrCreateIdempotent(m: Table, server: ServerId)
    ensures GetOrCreate(GetOrCreate(m, server), server) == GetOrCreate(m, server)
    ensures Lookup(GetOrCreate(m, server), server) == Lookup(m, server)
  {
  }

  /** After `stop`, the next lookup of the same guild gives a fresh session
      (empty queue, nothing current, no connection, no votes), and every
      other guild keeps its own. */
  lemma StopThenGetIsFresh(m: Table, server: ServerId)
    ensures GetOrCreate(Remove(m, server), server)[server] == Sessions.Fresh()
    ensures forall k :: k in m && k != server ==> GetOrCreate(Remove(m, server), server)[k] == m[k]
  {
  }

  /** Looking a guild up and then replacing its session is the same as
      replacing it directly. */
  lemma UpdateAfterGet(m: Table, server: ServerId, s: Sessions.Session)
    ensures GetOrCreate(m, server)[server := s] == m[server := s]
  {
  }

  /** Looking a guild up and then dropping it is the same as dropping it. */
  lemma RemoveAfterGet(m: Table, server: ServerId)
    ensures Remove(GetOrCreate(m, server), server) == Remove(m, server)
  {
  }
}
