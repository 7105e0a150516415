/** The perimeter pivot: a directed edge from a centre department to a department of its perimeter. */
module DepartmentDepartmentPivot {
  import opened Wrappers
  import opened Tables
  import opened Records

  /**
   * `DepartmentDepartmentPivot(first, second)`: the left key comes from the first department and
   * the right key from the second; `requireID` fails for a department that has no id.
   */
  function NewPerimeterEdge(first: Department, second: Department): (r: Result<PerimeterEdge, HttpError>)
    ensures r.Ok? <==> first.id.Some? && second.id.Some?
    ensures r.Ok? ==> Some(r.value.firstDepartmentID) == first.id && Some(r.value.secondDepartmentID) == second.id
    ensures r.Err? ==> r.error == InternalServerError
  {
    if first.id.None? || second.id.None? then Err(InternalServerError)
    else Ok(PerimeterEdge(first.id.value, second.id.value))
  }

  /** An edge touches department `d` on either side. */
  predicate Touches(e: PerimeterEdge, d: Uuid)
  {
    e.firstDepartmentID == d || e.secondDepartmentID == d
  }

  /**
   * The edge table once department `d` is deleted: both foreign keys cascade, so every edge
   * touching `d` goes and every other edge stays with its multiplicity.
   */
  function WithoutDepartment(edges: seq<PerimeterEdge>, d: Uuid): (r: seq<PerimeterEdge>)
    ensures forall e :: e in r ==> !Touches(e, d)
    ensures forall e :: !Touches(e, d) ==> multiset(r)[e] == multiset(edges)[e]
    ensures |r| <= |edges|
  {
    Filter(edges, (e: PerimeterEdge) => !Touches(e, d))
  }
}
