/** The city entity: creating a city or moving an existing one to another department. */
module CityEntity {
  import opened Wrappers
  import opened Tables
  import opened Records
  import opened Database

  /** The first city row with that name (`filter(\.city == name).first()`). */
  function FindCityByName(cities: seq<City>, name: string): (r: Option<nat>)
    ensures r.Some? ==> r.value < |cities| && cities[r.value].city == name
    ensures r.Some? ==> forall k :: 0 <= k < r.value ==> cities[k].city != name
    ensures r.None? <==> forall c :: c in cities ==> c.city != name
  {
    FindFirst(cities, (c: City) => c.city == name)
  }

  /** The identifier column of the city table. */
  function CityKey(c: City): Uuid
  {
    c.id
  }

  /** `save(on:)` of a city that has an id: every row with that id is overwritten. */
  function SaveCity(cities: seq<City>, c: City): seq<City>
  {
    Overwrite(cities, c, CityKey)
  }

  /**
   * `createCity(_:to:)`: the first city named `name` is moved to `department`, or, when there is
   * none, a new city row with the fresh identifier `newID` is inserted. A department without an
   * id fails with 500 and changes nothing. Afterwards the city of that name is the returned one.
   */
  method CreateCity(db: Store, name: string, department: Department, newID: Uuid) returns (r: Result<City, HttpError>)
    modifies db`cities
    ensures r.Err? <==> department.id.None?
    ensures r.Err? ==> r.error == InternalServerError && db.cities == old(db.cities)
    ensures r.Ok? ==> r.value.city == name && Some(r.value.departmentID) == department.id
    ensures r.Ok? ==> FindCityByName(db.cities, name).Some? && db.cities[FindCityByName(db.cities, name).value] == r.value
    ensures r.Ok? && FindCityByName(old(db.cities), name).None? ==>
              r.value.id == newID && db.cities == old(db.cities) + [r.value]
    ensures r.Ok? && FindCityByName(old(db.cities), name).Some? ==>
              r.value == old(db.cities)[FindCityByName(old(db.cities), name).value].(departmentID := department.id.value)
              && db.cities == SaveCity(old(db.cities), r.value)
  {
    var existing := FindCityByName(db.cities, name);
    if department.id.None? {
      return Err(InternalServerError);
    }
    match existing {
      case Some(i) =>
        var moved := db.cities[i].(departmentID := department.id.value);
        var before := db.cities;
        db.cities := SaveCity(db.cities, moved);
        CityAfterSave(before, i, moved);
        r := Ok(moved);
      case None =>
        var created := City(newID, name, department.id.value);
        var before := db.cities;
        db.cities := db.cities + [created];
        assert db.cities[|before|] == created;
        assert forall c :: c in before ==> c.city != name;
        r := Ok(created);
    }
  }

  /** Saving the first city named like `moved` keeps it the first city of that name. */
  lemma CityAfterSave(cities: seq<City>, i: nat, moved: City)
    requires i < |cities| && cities[i].id == moved.id && cities[i].city == moved.city
    requires forall k :: 0 <= k < i ==> cities[k].city != moved.city
    ensures FindCityByName(SaveCity(cities, moved), moved.city).Some?
    ensures SaveCity(cities, moved)[FindCityByName(SaveCity(cities, moved), moved.city).value] == moved
  {
    var s := SaveCity(cities, moved);
    assert s[i] == moved;
    var j := FindCityByName(s, moved.city).value;
    assert j <= i;
    if j < i {
      assert s[j].city == moved.city;
      assert cities[j].id == moved.id;
    }
  }
}
