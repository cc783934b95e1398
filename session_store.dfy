/** The `session` table as the auth service uses it through
    `SessionService`: rows keyed by a SERIAL id, each owned by a user and
    soft-deleted through a nullable `deleted_at`. */
module SessionStore {
  import opened Wrappers

  /** One row: the owning user's id and whether `deleted_at` is set. */
  datatype Session = Session(userId: int, deleted: bool)

  type SessionTable = map<int, Session>

  /** `findOne({where: {id}})`: the ORM does not return soft-deleted rows. */
  function FindActive(t: SessionTable, id: int): (r: Option<Session>)
    ensures r.Some? <==> id in t && !t[id].deleted
    ensures r.Some? ==> r.value == t[id]
  {
    if id in t && !t[id].deleted then Some(t[id]) else None
  }

  /** `softDelete({id})`: sets `deleted_at` on that row, if there is one;
      a missing id matches no row and is not an error. */
  function SoftDelete(t: SessionTable, id: int): (r: SessionTable)
    ensures r.Keys == t.Keys
    ensures id in t ==> r[id] == Session(t[id].userId, true)
    ensures forall j :: j in t && j != id ==> r[j] == t[j]
  {
    if id in t then t[id := Session(t[id].userId, true)] else t
  }

  /** After a soft delete the session is no longer found, and every other
      session is found exactly as before. */
  lemma SoftDeleteHides(t: SessionTable, id: int, other: int)
    ensures FindActive(SoftDelete(t, id), id) == None
    ensures other != id ==> FindActive(SoftDelete(t, id), other) == FindActive(t, other)
  {
  }

  /** Soft-deleting twice leaves the table as soft-deleting once. */
  lemma SoftDeleteIdempotent(t: SessionTable, id: int)
    ensures SoftDelete(SoftDelete(t, id), id) == SoftDelete(t, id)
  {
  }
}
