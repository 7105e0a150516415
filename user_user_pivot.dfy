/** The contact pivot: a directed edge between two users with an acceptance flag. */
module UserUserPivot {
  import opened Wrappers
  import opened Tables
  import opened Records

  /**
   * `UserUserPivot(first, second)`: the left key comes from the first user, the right key from
   * the second, and the flag starts unset; `requireID` fails for a user that has no id.
   */
  function NewContactEdge(first: User, second: User): (r: Result<ContactEdge, HttpError>)
    ensures r.Ok? <==> first.id.Some? && second.id.Some?
    ensures r.Ok? ==> Some(r.value.firstUserID) == first.id && Some(r.value.secondUserID) == second.id
    ensures r.Ok? ==> !r.value.areContacs
    ensures r.Err? ==> r.error == InternalServerError
  {
    if first.id.None? || second.id.None? then Err(InternalServerError)
    else Ok(ContactEdge(first.id.value, second.id.value, false))
  }

  /** An edge touches user `u` on either side. */
  predicate Involves(e: ContactEdge, u: Uuid)
  {
    e.firstUserID == u || e.secondUserID == u
  }

  /**
   * The edge table once user `u` is hard-deleted: both foreign keys cascade, so every edge
   * touching `u` goes and every other edge stays with its multiplicity.
   */
  function WithoutUser(edges: seq<ContactEdge>, u: Uuid): (r: seq<ContactEdge>)
    ensures forall e :: e in r ==> !Involves(e, u)
    ensures forall e :: !Involves(e, u) ==> multiset(r)[e] == multiset(edges)[e]
    ensures |r| <= |edges|
  {
    Filter(edges, (e: ContactEdge) => !Involves(e, u))
  }
}
