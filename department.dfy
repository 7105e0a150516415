/** The department entity: its perimeter relations and the two ways of linking departments. */
module DepartmentEntity {
  import opened Wrappers
  import opened Tables
  import opened Records
  import opened Database
  import opened DepartmentDepartmentPivot

  /**
   * The sibling query over the perimeter pivot: for each edge, in storage order, with `d` on the
   * given side (`left`: the centre side), the department row on the other side.
   */
  function Linked(edges: seq<PerimeterEdge>, departments: seq<Department>, d: Uuid, left: bool): (r: seq<Department>)
    ensures forall x :: x in r <==> exists e :: e in edges && Near(e, left) == d && FindDepartment(departments, Far(e, left)) == Some(x)
    ensures forall x :: x in r ==> x in departments && x.id.Some?
    ensures |r| <= |edges|
  {
    if edges == [] then []
    else
      var rest := Linked(edges[1..], departments, d, left);
      assert forall e :: e in edges <==> e == edges[0] || e in edges[1..];
      LinkedStep(edges[0], departments, d, left) + rest
  }

  /** What a single edge contributes to `Linked`. */
  function LinkedStep(e: PerimeterEdge, departments: seq<Department>, d: Uuid, left: bool): seq<Department>
  {
    if Near(e, left) == d && FindDepartment(departments, Far(e, left)).Some? then
      [FindDepartment(departments, Far(e, left)).value]
    else []
  }

  /** The side of an edge `d` stands on: the centre side when `left`. */
  function Near(e: PerimeterEdge, left: bool): Uuid
  {
    if left then e.firstDepartmentID else e.secondDepartmentID
  }

  /** The other side of an edge. */
  function Far(e: PerimeterEdge, left: bool): Uuid
  {
    if left then e.secondDepartmentID else e.firstDepartmentID
  }

  /** `departmentsInsideOfPerimeter`: the departments in the perimeter centred on `d`. */
  function PerimeterOf(d: Uuid, edges: seq<PerimeterEdge>, departments: seq<Department>): (r: seq<Department>)
    ensures forall x :: x in r <==> exists e :: e in edges && e.firstDepartmentID == d && FindDepartment(departments, e.secondDepartmentID) == Some(x)
    ensures forall x :: x in r ==> x in departments && x.id.Some?
  {
    Linked(edges, departments, d, true)
  }

  /** `departmentInsideOfPerimeters`: the centres of the perimeters that `d` belongs to. */
  function CentresOf(d: Uuid, edges: seq<PerimeterEdge>, departments: seq<Department>): (r: seq<Department>)
    ensures forall x :: x in r <==> exists e :: e in edges && e.secondDepartmentID == d && FindDepartment(departments, e.firstDepartmentID) == Some(x)
  {
    Linked(edges, departments, d, false)
  }

  /** Appending an edge appends its contribution and leaves the earlier results in order. */
  lemma {:induction false} LinkedAppend(edges: seq<PerimeterEdge>, e: PerimeterEdge, departments: seq<Department>, d: Uuid, left: bool)
    ensures Linked(edges + [e], departments, d, left) == Linked(edges, departments, d, left) + LinkedStep(e, departments, d, left)
  {
    if edges == [] {
      assert edges + [e] == [e];
    } else {
      assert (edges + [e])[1..] == edges[1..] + [e];
      LinkedAppend(edges[1..], e, departments, d, left);
    }
  }

  /**
   * Linking `centre` to `member` appends the member row to the centre's perimeter and the centre
   * row to the member's centres, keeping the earlier entries in order; every other department's
   * perimeter is unchanged.
   */
  lemma LinkEffect(edges: seq<PerimeterEdge>, departments: seq<Department>, centre: Department, member: Department, other: Uuid)
    requires NewPerimeterEdge(centre, member).Ok?
    requires FindDepartment(departments, member.id.value) == Some(member)
    requires FindDepartment(departments, centre.id.value) == Some(centre)
    requires Some(other) != centre.id
    ensures PerimeterOf(centre.id.value, edges + [NewPerimeterEdge(centre, member).value], departments) == PerimeterOf(centre.id.value, edges, departments) + [member]
    ensures CentresOf(member.id.value, edges + [NewPerimeterEdge(centre, member).value], departments) == CentresOf(member.id.value, edges, departments) + [centre]
    ensures PerimeterOf(other, edges + [NewPerimeterEdge(centre, member).value], departments) == PerimeterOf(other, edges, departments)
  {
    var e := NewPerimeterEdge(centre, member).value;
    assert e == PerimeterEdge(centre.id.value, member.id.value);
    LinkedAppend(edges, e, departments, centre.id.value, true);
    assert LinkedStep(e, departments, centre.id.value, true) == [member];
    LinkedAppend(edges, e, departments, member.id.value, false);
    assert LinkedStep(e, departments, member.id.value, false) == [centre];
    LinkedAppend(edges, e, departments, other, true);
    assert LinkedStep(e, departments, other, true) == [];
  }

  /** The first department row with that name (`filter(\.departmentName == name).first()`). */
  function FindDepartmentByName(departments: seq<Department>, name: string): (r: Option<Department>)
    ensures r.Some? ==> r.value in departments && r.value.departmentName == name
    ensures r.Some? ==> exists i :: 0 <= i < |departments| && departments[i] == r.value &&
                                    forall j :: 0 <= j < i ==> departments[j].departmentName != name
    ensures r.None? <==> forall d :: d in departments ==> d.departmentName != name
  {
    match FindFirst(departments, (d: Department) => d.departmentName == name)
    case None => None
    case Some(i) => Some(departments[i])
  }

  /**
   * `addDepartment(name:to:)`: links `dept` to the department named `name`; no such department,
   * or a department without an id, fails with 500 and stores nothing.
   */
  method AddDepartment(db: Store, name: string, dept: Department) returns (r: Result<(), HttpError>)
    modifies db`perimeter
    ensures r.Ok? <==> FindDepartmentByName(db.departments, name).Some? && dept.id.Some? && FindDepartmentByName(db.departments, name).value.id.Some?
    ensures r.Err? ==> r.error == InternalServerError && db.perimeter == old(db.perimeter)
    ensures r.Ok? ==> db.perimeter == old(db.perimeter) + [PerimeterEdge(dept.id.value, FindDepartmentByName(db.departments, name).value.id.value)]
  {
    var found := FindDepartmentByName(db.departments, name);
    if found.None? {
      return Err(InternalServerError);
    }
    var edge := NewPerimeterEdge(dept, found.value);
    if edge.Err? {
      return Err(edge.error);
    }
    db.perimeter := db.perimeter + [edge.value];
    r := Ok(());
  }

  /**
   * `addPivot(neighbourID:to:)`: links `dept` to the department with id `neighbourID`; an unknown
   * id fails with 404, a `dept` without an id with 500, and either stores nothing.
   */
  method AddPivot(db: Store, neighbourID: Uuid, dept: Department) returns (r: Result<(), HttpError>)
    modifies db`perimeter
    ensures FindDepartment(db.departments, neighbourID).None? ==> r == Err(NotFound)
    ensures FindDepartment(db.departments, neighbourID).Some? && dept.id.None? ==> r == Err(InternalServerError)
    ensures r.Ok? <==> FindDepartment(db.departments, neighbourID).Some? && dept.id.Some?
    ensures r.Err? ==> db.perimeter == old(db.perimeter)
    ensures r.Ok? ==> db.perimeter == old(db.perimeter) + [PerimeterEdge(dept.id.value, neighbourID)]
  {
    var found := FindDepartment(db.departments, neighbourID);
    if found.None? {
      return Err(NotFound);
    }
    var edge := NewPerimeterEdge(dept, found.value);
    if edge.Err? {
      return Err(edge.error);
    }
    db.perimeter := db.perimeter + [edge.value];
    r := Ok(());
  }
}
