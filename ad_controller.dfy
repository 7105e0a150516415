/**
 * The ad routes: creating, liking and deleting ads, reconciling an ad's demands and offers with
 * an edited list, and the listing of the ads around a department.
 */
module AdController {
  import opened Wrappers
  import opened Tables
  import opened Records
  import opened Database
  import opened DepartmentEntity
  import opened Middlewares

  // ---------------------------------------------------------------------------------------
  // Creating an ad

  /**
   * `createHandler`: a new ad with the note and city of the payload, owned by the caller, and
   * the fresh identifier `newID`; a caller without an id fails with 500.
   */
  method CreateAd(db: Store, caller: User, data: CreateAdData, newID: Uuid) returns (r: Result<Ad, HttpError>)
    modifies db`ads
    ensures r.Err? <==> caller.id.None?
    ensures r.Err? ==> r.error == InternalServerError && db.ads == old(db.ads)
    ensures r.Ok? ==> r.value == Ad(newID, data.note, data.cityID, caller.id.value, None)
    ensures r.Ok? ==> db.ads == old(db.ads) + [r.value] && r.value in AdsOfUser(db.ads, caller.id.value)
  {
    if caller.id.None? {
      return Err(InternalServerError);
    }
    var ad := Ad(newID, data.note, data.cityID, caller.id.value, None);
    db.ads := db.ads + [ad];
    r := Ok(ad);
  }

  // ---------------------------------------------------------------------------------------
  // Likes

  /**
   * The heart table after a toggle of heart `h`: the first row equal to `h` is deleted when
   * there is one, otherwise `h` is added. No other heart changes.
   */
  function Toggled(hearts: seq<Heart>, h: Heart): (r: seq<Heart>)
    ensures h in hearts ==> multiset(r)[h] == multiset(hearts)[h] - 1
    ensures h !in hearts ==> r == hearts + [h]
    ensures forall x :: x != h ==> multiset(r)[x] == multiset(hearts)[x]
  {
    match HeartIndex(hearts, h)
    case Some(i) => RemoveAt(hearts, i)
    case None => hearts + [h]
  }

  /** Position of the first heart equal to `h` (`filter(userID).filter(adID).first()`). */
  function HeartIndex(hearts: seq<Heart>, h: Heart): (r: Option<nat>)
    ensures r.Some? ==> r.value < |hearts| && hearts[r.value] == h
    ensures r.Some? ==> forall j :: 0 <= j < r.value ==> hearts[j] != h
    ensures r.None? <==> h !in hearts
  {
    FindFirst(hearts, (x: Heart) => x == h)
  }

  /**
   * While a user likes an ad at most once, a toggle flips whether it likes the ad, and never
   * makes a second heart for the pair; two toggles in a row restore the table (up to the order
   * of its rows, and exactly when the ad was not liked).
   */
  lemma ToggleFlipsLike(hearts: seq<Heart>, h: Heart)
    requires multiset(hearts)[h] <= 1
    ensures h in Toggled(hearts, h) <==> h !in hearts
    ensures multiset(Toggled(hearts, h))[h] <= 1
    ensures multiset(Toggled(Toggled(hearts, h), h)) == multiset(hearts)
    ensures h !in hearts ==> Toggled(Toggled(hearts, h), h) == hearts
  {
    var once := Toggled(hearts, h);
    var twice := Toggled(once, h);
    if h in hearts {
      assert multiset(once)[h] == 0;
      assert h !in once;
      assert twice == once + [h];
      assert forall x :: multiset(twice)[x] == multiset(hearts)[x];
    } else {
      assert once == hearts + [h];
      RemoveAppended(hearts, h);
    }
  }

  /** Toggling a heart that was just appended to a table without it removes exactly that row. */
  lemma RemoveAppended(hearts: seq<Heart>, h: Heart)
    requires h !in hearts
    ensures Toggled(hearts + [h], h) == hearts
  {
    var once := hearts + [h];
    assert forall j :: 0 <= j < |hearts| ==> once[j] != h;
    assert HeartIndex(once, h) == Some(|hearts|);
    assert RemoveAt(once, |hearts|) == hearts;
  }

  /**
   * `likeUnlikeHandler`: a caller without an id fails with 500 and an unknown ad with 404;
   * otherwise the caller's heart for the ad is toggled.
   */
  method LikeUnlike(db: Store, caller: User, adID: Uuid) returns (r: Result<(), HttpError>)
    modifies db`hearts
    ensures caller.id.None? ==> r == Err(InternalServerError)
    ensures caller.id.Some? && FindAd(db.ads, adID).None? ==> r == Err(NotFound)
    ensures r.Ok? <==> caller.id.Some? && FindAd(db.ads, adID).Some?
    ensures r.Err? ==> db.hearts == old(db.hearts)
    ensures r.Ok? ==> db.hearts == Toggled(old(db.hearts), Heart(adID, caller.id.value))
  {
    if caller.id.None? {
      return Err(InternalServerError);
    }
    if FindAd(db.ads, adID).None? {
      return Err(NotFound);
    }
    db.hearts := Toggled(db.hearts, Heart(adID, caller.id.value));
    r := Ok(());
  }

  // ---------------------------------------------------------------------------------------
  // Deleting an ad

  /** The ad table once every row with id `id` is deleted. */
  function AdsWithout(ads: seq<Ad>, id: Uuid): (r: seq<Ad>)
    ensures FindAd(r, id).None?
    ensures forall a :: a in r <==> a in ads && a.id != id
    ensures forall a: Ad :: a.id != id ==> multiset(r)[a] == multiset(ads)[a]
  {
    Filter(ads, (a: Ad) => a.id != id)
  }

  /**
   * `deleteHandler`: an unknown ad fails with 404; an administrator or the ad's owner deletes
   * it; a non-administrator without an id fails with 500; anyone else gets 403 and nothing
   * changes.
   */
  method DeleteAd(db: Store, caller: User, adID: Uuid) returns (r: Result<(), HttpError>)
    modifies db`ads
    ensures OwnerOf(old(db.ads), adID).None? ==> r == Err(NotFound)
    ensures OwnerOf(old(db.ads), adID).Some? ==>
              var allowed := AdminOrOwner(caller, OwnerOf(old(db.ads), adID).value);
              (r.Ok? <==> allowed == Ok(true)) &&
              (allowed.Err? ==> r == Err(InternalServerError)) &&
              (allowed == Ok(false) ==> r == Err(Forbidden))
    ensures r.Err? ==> db.ads == old(db.ads)
    ensures r.Ok? ==> db.ads == AdsWithout(old(db.ads), adID)
  {
    var owner := OwnerOf(db.ads, adID);
    if owner.None? {
      return Err(NotFound);
    }
    var allowed := AdminOrOwner(caller, owner.value);
    if allowed.Err? {
      return Err(allowed.error);
    }
    if !allowed.value {
      return Err(Forbidden);
    }
    db.ads := AdsWithout(db.ads, adID);
    r := Ok(());
  }

  // ---------------------------------------------------------------------------------------
  // Reconciling the demands (or the offers) of an ad with an edited list

  /** The distinct texts of the rows of ad `a` (`Set(existing.map { $0.demand })`). */
  function StoredTexts(rows: seq<Tag>, a: Uuid): (r: set<string>)
    ensures forall s :: s in r <==> Tag(s, a) in rows
  {
    set t | t in TagsOfAd(rows, a) :: t.text
  }

  /**
   * How the number of rows equal to `x` changes: a non-empty submitted text not yet stored for
   * ad `a` gains one row, a stored text no longer submitted loses one row, and nothing else
   * changes.
   */
  function Delta(rows: seq<Tag>, a: Uuid, submitted: seq<string>, x: Tag): int
  {
    if x.adID != a then 0
    else if x.text !in StoredTexts(rows, a) && x.text in submitted && |x.text| > 0 then 1
    else if x.text in StoredTexts(rows, a) && x.text !in submitted then -1
    else 0
  }

  /** `out` is the table `rows` once the texts of ad `a` are reconciled with `submitted`. */
  ghost predicate IsReconciled(out: seq<Tag>, rows: seq<Tag>, a: Uuid, submitted: seq<string>)
  {
    forall x :: multiset(out)[x] == multiset(rows)[x] + Delta(rows, a, submitted, x)
  }

  /** The first loop: one row `Tag(s, a)` is added for each non-empty text `s` of `texts`. */
  method AddTexts(rows: seq<Tag>, a: Uuid, texts: set<string>) returns (out: seq<Tag>)
    ensures forall x :: multiset(out)[x] == multiset(rows)[x] + (if x.adID == a && x.text in texts && |x.text| > 0 then 1 else 0)
  {
    out := rows;
    var pending := texts;
    while pending != {}
      invariant pending <= texts
      invariant forall x :: multiset(out)[x] ==
                  multiset(rows)[x] + (if x.adID == a && x.text in texts && x.text !in pending && |x.text| > 0 then 1 else 0)
      decreases pending
    {
      var s :| s in pending;
      if |s| > 0 {
        out := out + [Tag(s, a)];
      }
      pending := pending - {s};
    }
  }

  /**
   * One step of the second loop: the first row of `existing` with text `s` is looked up and one
   * row equal to it is deleted from the table; when there is no such row nothing is deleted.
   */
  method RemoveFirstWithText(out: seq<Tag>, existing: seq<Tag>, a: Uuid, s: string) returns (r: seq<Tag>)
    requires forall t :: t in existing ==> t.adID == a
    requires Tag(s, a) in out
    ensures Tag(s, a) in existing ==> multiset(r) == multiset(out) - multiset{Tag(s, a)}
    ensures Tag(s, a) !in existing ==> r == out
  {
    r := out;
    var first := FindFirst(existing, (t: Tag) => t.text == s);
    if first.Some? {
      var row := existing[first.value];
      assert row == Tag(s, a);
      var j := FindFirst(out, (t: Tag) => t == row);
      r := RemoveAt(out, j.value);
    }
  }

  /**
   * The second loop: for each text `s` of `texts`, the first row of `existing` with that text
   * is looked up and that row is deleted from the table once.
   */
  method RemoveTexts(rows: seq<Tag>, existing: seq<Tag>, a: Uuid, texts: set<string>) returns (out: seq<Tag>)
    requires forall t :: t in existing ==> t.adID == a
    requires forall s :: s in texts ==> Tag(s, a) in existing && Tag(s, a) in rows
    ensures forall x :: multiset(out)[x] == multiset(rows)[x] - (if x.adID == a && x.text in texts then 1 else 0)
  {
    out := rows;
    var pending := texts;
    while pending != {}
      invariant pending <= texts
      invariant forall x :: multiset(out)[x] ==
                  multiset(rows)[x] - (if x.adID == a && x.text in texts && x.text !in pending then 1 else 0)
      decreases pending
    {
      var s :| s in pending;
      assert multiset(out)[Tag(s, a)] == multiset(rows)[Tag(s, a)];
      out := RemoveFirstWithText(out, existing, a, s);
      pending := pending - {s};
    }
  }

  /**
   * The reconciliation of `updateAdHandler`: each text of the submitted set missing from the
   * stored set is added, when non-empty, then for each stored text missing from the submitted
   * set the first stored row with that text is deleted. Sets are visited in no particular
   * order, so the result is specified up to the order of its rows.
   */
  method ReconcileTags(rows: seq<Tag>, a: Uuid, submitted: seq<string>) returns (out: seq<Tag>)
    ensures IsReconciled(out, rows, a, submitted)
  {
    var existing := TagsOfAd(rows, a);
    var existingSet := set t | t in existing :: t.text;
    var newSet := set s | s in submitted;
    assert existingSet == StoredTexts(rows, a);
    var added := AddTexts(rows, a, newSet - existingSet);
    out := RemoveTexts(added, existing, a, existingSet - newSet);
  }

  /**
   * After a reconciliation every non-empty submitted text is stored for the ad, the rows of a
   * text both stored and submitted are untouched, and the rows of other ads are untouched.
   */
  lemma ReconcileKeepsSubmitted(out: seq<Tag>, rows: seq<Tag>, a: Uuid, submitted: seq<string>)
    requires IsReconciled(out, rows, a, submitted)
    ensures forall s :: s in submitted && |s| > 0 ==> Tag(s, a) in out
    ensures forall s :: s in submitted && Tag(s, a) in rows ==> multiset(out)[Tag(s, a)] == multiset(rows)[Tag(s, a)]
    ensures forall x: Tag :: x.adID != a ==> multiset(out)[x] == multiset(rows)[x]
  {
    forall s | s in submitted && |s| > 0
      ensures Tag(s, a) in out
    {
      assert multiset(out)[Tag(s, a)] == multiset(rows)[Tag(s, a)] + Delta(rows, a, submitted, Tag(s, a));
    }
  }

  /**
   * When the stored texts of the ad are distinct, afterwards the ad has exactly the submitted
   * texts (an empty one only if it was already stored), each once.
   */
  lemma ReconcileDistinct(out: seq<Tag>, rows: seq<Tag>, a: Uuid, submitted: seq<string>)
    requires IsReconciled(out, rows, a, submitted)
    requires forall s :: multiset(rows)[Tag(s, a)] <= 1
    ensures forall s :: Tag(s, a) in out <==> s in submitted && (|s| > 0 || Tag(s, a) in rows)
    ensures forall s :: multiset(out)[Tag(s, a)] <= 1
  {
    forall s
      ensures Tag(s, a) in out <==> s in submitted && (|s| > 0 || Tag(s, a) in rows)
      ensures multiset(out)[Tag(s, a)] <= 1
    {
      assert multiset(out)[Tag(s, a)] == multiset(rows)[Tag(s, a)] + Delta(rows, a, submitted, Tag(s, a));
    }
  }

  /** Index of the caller's first ad with that id (`user.adsOfUser.query(on:).filter(\Ad.id == adID).first()`). */
  function FindOwnAd(ads: seq<Ad>, owner: Uuid, adID: Uuid): (r: Option<nat>)
    ensures r.Some? ==> r.value < |ads| && ads[r.value].id == adID && ads[r.value].userID == owner
    ensures r.None? <==> forall a :: a in ads ==> !(a.id == adID && a.userID == owner)
  {
    FindFirst(ads, (a: Ad) => a.id == adID && a.userID == owner)
  }

  /**
   * `updateAdHandler`: only the caller's own ads can be edited (a caller without an id fails
   * with 500, any other id with 404, and nothing changes). The note is replaced, then the
   * demands and the offers are each reconciled with the submitted lists.
   */
  method UpdateAd(db: Store, caller: User, adID: Uuid, data: AdInfoPostData) returns (r: Result<(), HttpError>)
    modifies db`ads, db`demands, db`offers
    ensures caller.id.None? ==> r == Err(InternalServerError)
    ensures caller.id.Some? && FindOwnAd(old(db.ads), caller.id.value, adID).None? ==> r == Err(NotFound)
    ensures r.Ok? <==> caller.id.Some? && FindOwnAd(old(db.ads), caller.id.value, adID).Some?
    ensures r.Err? ==> db.ads == old(db.ads) && db.demands == old(db.demands) && db.offers == old(db.offers)
    ensures r.Ok? ==>
              var ad := old(db.ads)[FindOwnAd(old(db.ads), caller.id.value, adID).value];
              db.ads == SaveAd(old(db.ads), ad.(note := data.note)) &&
              IsReconciled(db.demands, old(db.demands), adID, data.demands) &&
              IsReconciled(db.offers, old(db.offers), adID, data.offers)
  {
    if caller.id.None? {
      return Err(InternalServerError);
    }
    var found := FindOwnAd(db.ads, caller.id.value, adID);
    if found.None? {
      return Err(NotFound);
    }
    var ad := db.ads[found.value];
    db.ads := SaveAd(db.ads, ad.(note := data.note));
    db.demands := ReconcileTags(db.demands, adID, data.demands);
    db.offers := ReconcileTags(db.offers, adID, data.offers);
    r := Ok(());
  }

  // ---------------------------------------------------------------------------------------
  // The ads around a department

  /** At most this many ads are listed per city. */
  const AdsPerCity: nat := 50

  /** The cities of a department (`department.cities`), in storage order. */
  function CitiesOf(cities: seq<City>, d: Uuid): (r: seq<City>)
    ensures forall c :: c in r <==> c in cities && c.departmentID == d
  {
    Filter(cities, (c: City) => c.departmentID == d)
  }

  /** The cities of each department of `ring`, department after department. */
  function CitiesOfRing(ring: seq<Department>, cities: seq<City>): (r: seq<City>)
    requires forall d :: d in ring ==> d.id.Some?
    ensures forall c :: c in r <==> c in cities && exists d :: d in ring && d.id == Some(c.departmentID)
  {
    if ring == [] then []
    else
      assert forall d :: d in ring <==> d == ring[0] || d in ring[1..];
      CitiesOf(cities, ring[0].id.value) + CitiesOfRing(ring[1..], cities)
  }

  /** Whether an ad belongs to city `c`. */
  function InCity(c: City): Ad -> bool
  {
    (a: Ad) => a.cityID == c.id
  }

  /**
   * The ads of a city (`city.adsOfCity.query(on:).range(..<50)`): the first 50 in storage
   * order. With fewer than 50 listed, every ad of the city is listed.
   */
  function AdsOfCity(ads: seq<Ad>, c: City): (r: seq<Ad>)
    ensures |r| <= AdsPerCity
    ensures forall k :: 0 <= k < |r| ==> r[k] in ads && r[k].cityID == c.id
    ensures |r| < AdsPerCity ==> forall a :: a in ads && a.cityID == c.id ==> a in r
  {
    var all := Filter(ads, InCity(c));
    assert forall k :: 0 <= k < |all| ==> all[k] in ads && all[k].cityID == c.id by {
      forall k | 0 <= k < |all|
        ensures all[k] in ads && all[k].cityID == c.id
      {
        assert all[k] in all && InCity(c)(all[k]);
      }
    }
    Take(all, AdsPerCity)
  }

  /**
   * A new ad row is listed for its city, at the end, exactly when fewer than 50 ads of that
   * city come before it; the listing of every other city is unchanged. With the empty table,
   * for which nothing is listed, this fixes the listing of every table.
   */
  lemma AdsOfCityAppend(ads: seq<Ad>, a: Ad, c: City)
    ensures AdsOfCity(ads + [a], c) ==
              if a.cityID == c.id && |AdsOfCity(ads, c)| < AdsPerCity then AdsOfCity(ads, c) + [a]
              else AdsOfCity(ads, c)
  {
    FilterAppendOne(ads, a, InCity(c));
    TakeAppendOne(Filter(ads, InCity(c)), a, AdsPerCity);
  }

  /** The per-city query of the listing, as a function of the city. */
  function CityAds(ads: seq<Ad>): City -> seq<Ad>
  {
    (c: City) => AdsOfCity(ads, c)
  }

  /** The ads of each city of `cs`, city after city: at most 50 per city. */
  function AdsOfCities(cs: seq<City>, ads: seq<Ad>): (r: seq<Ad>)
    ensures |r| <= AdsPerCity * |cs|
  {
    ConcatBound(cs, CityAds(ads), AdsPerCity);
    Concat(cs, CityAds(ads))
  }

  /** The listing for a single city is that city's `AdsOfCity`. */
  lemma AdsOfCitiesOne(c: City, ads: seq<Ad>)
    ensures AdsOfCities([c], ads) == AdsOfCity(ads, c)
  {
    assert Concat([c], CityAds(ads)) == CityAds(ads)(c) + Concat([c][1..], CityAds(ads));
    assert [c][1..] == [];
    assert AdsOfCity(ads, c) + [] == AdsOfCity(ads, c);
  }

  /**
   * An ad is listed for a run of cities exactly when it is listed for one of those cities; every
   * listed ad is an ad of one of the cities.
   */
  lemma AdsOfCitiesMembers(cs: seq<City>, ads: seq<Ad>)
    ensures forall a :: a in AdsOfCities(cs, ads) <==> exists c :: c in cs && a in AdsOfCity(ads, c)
    ensures forall a :: a in AdsOfCities(cs, ads) ==> a in ads && exists c :: c in cs && a.cityID == c.id
  {
    ConcatMembers(cs, CityAds(ads));
    ConcatContains(cs, CityAds(ads));
    forall a | a in AdsOfCities(cs, ads)
      ensures a in ads && exists c :: c in cs && a.cityID == c.id
    {
      var c :| c in cs && a in AdsOfCity(ads, c);
      var k :| 0 <= k < |AdsOfCity(ads, c)| && AdsOfCity(ads, c)[k] == a;
    }
    forall a, c | c in cs && a in AdsOfCity(ads, c)
      ensures a in AdsOfCities(cs, ads)
    {
      assert a in CityAds(ads)(c);
    }
  }

  /** Listing two runs of cities lists the first run's ads before the second's. */
  lemma AdsOfCitiesAppend(cs: seq<City>, more: seq<City>, ads: seq<Ad>)
    ensures AdsOfCities(cs + more, ads) == AdsOfCities(cs, ads) + AdsOfCities(more, ads)
  {
    ConcatAppend(cs, more, CityAds(ads));
  }

  /** The selected department followed by the departments of its perimeter. */
  function Ring(d: Department, perimeter: seq<PerimeterEdge>, departments: seq<Department>): (r: seq<Department>)
    requires d.id.Some?
    ensures |r| >= 1 && r[0] == d && r[1..] == PerimeterOf(d.id.value, perimeter, departments)
    ensures forall x :: x in r ==> x.id.Some?
  {
    [d] + PerimeterOf(d.id.value, perimeter, departments)
  }

  /** The ads listed around department `d`, before they are turned into objects. */
  function ListedAds(d: Department, perimeter: seq<PerimeterEdge>, departments: seq<Department>, cities: seq<City>, ads: seq<Ad>): seq<Ad>
    requires d.id.Some?
  {
    AdsOfCities(CitiesOfRing(Ring(d, perimeter, departments), cities), ads)
  }

  /**
   * The ads of the selected department's own cities come first in the listing, followed by
   * those of its perimeter; there are at most 50 per listed city.
   */
  lemma SelectedDepartmentFirst(d: Department, perimeter: seq<PerimeterEdge>, departments: seq<Department>, cities: seq<City>, ads: seq<Ad>)
    requires d.id.Some?
    ensures ListedAds(d, perimeter, departments, cities, ads) ==
              AdsOfCities(CitiesOf(cities, d.id.value), ads) +
              AdsOfCities(CitiesOfRing(PerimeterOf(d.id.value, perimeter, departments), cities), ads)
    ensures |ListedAds(d, perimeter, departments, cities, ads)| <= AdsPerCity * |CitiesOfRing(Ring(d, perimeter, departments), cities)|
  {
    var ring := Ring(d, perimeter, departments);
    assert ring[1..] == PerimeterOf(d.id.value, perimeter, departments);
    AdsOfCitiesAppend(CitiesOf(cities, d.id.value), CitiesOfRing(ring[1..], cities), ads);
  }

  /** Whether the ad's city (`ad.city`) and that city's department (`city.department`) both exist. */
  predicate Placed(a: Ad, cities: seq<City>, departments: seq<Department>)
  {
    FindCity(cities, a.cityID).Some? && FindDepartment(departments, FindCity(cities, a.cityID).value.departmentID).Some?
  }

  /**
   * Whether `o` is the listing object of ad `a`: its note and id, its demands and offers, a city
   * with the ad's city id, and a department with that city's department id.
   */
  predicate Describes(o: AdObject, a: Ad, demands: seq<Tag>, offers: seq<Tag>, cities: seq<City>, departments: seq<Department>)
  {
    o.note == a.note && o.adID == a.id &&
    o.demands == TagsOfAd(demands, a.id) && o.offers == TagsOfAd(offers, a.id) &&
    o.city.id == a.cityID && o.city in cities &&
    o.department.id == Some(o.city.departmentID) && o.department in departments
  }

  /** The `AdObject` of one ad; a missing city or department fails with 500. */
  function BuildObject(a: Ad, demands: seq<Tag>, offers: seq<Tag>, cities: seq<City>, departments: seq<Department>)
    : (r: Result<AdObject, HttpError>)
    ensures r.Ok? <==> Placed(a, cities, departments)
    ensures r.Err? ==> r.error == InternalServerError
    ensures r.Ok? ==> Describes(r.value, a, demands, offers, cities, departments)
  {
    match FindCity(cities, a.cityID)
    case None => Err(InternalServerError)
    case Some(city) =>
      match FindDepartment(departments, city.departmentID)
      case None => Err(InternalServerError)
      case Some(dep) => Ok(AdObject(a.note, a.id, TagsOfAd(demands, a.id), TagsOfAd(offers, a.id), city, dep))
  }

  /** One `AdObject` per ad, in order; any ad whose city or department is missing fails the whole list with 500. */
  function BuildObjects(ads: seq<Ad>, demands: seq<Tag>, offers: seq<Tag>, cities: seq<City>, departments: seq<Department>)
    : (r: Result<seq<AdObject>, HttpError>)
    ensures r.Err? ==> r.error == InternalServerError
    ensures r.Ok? ==> |r.value| == |ads|
  {
    if ads == [] then Ok([])
    else
      match BuildObject(ads[0], demands, offers, cities, departments)
      case Err(e) => Err(e)
      case Ok(o) =>
        match BuildObjects(ads[1..], demands, offers, cities, departments)
        case Err(e) => Err(e)
        case Ok(rest) => Ok([o] + rest)
  }

  /**
   * The list of objects is built exactly when every ad has its city and department, and then
   * its k-th object is the `BuildObject` of the k-th ad.
   */
  lemma {:induction false} BuildObjectsSpec(ads: seq<Ad>, demands: seq<Tag>, offers: seq<Tag>, cities: seq<City>, departments: seq<Department>)
    ensures BuildObjects(ads, demands, offers, cities, departments).Ok? <==>
              forall k :: 0 <= k < |ads| ==> Placed(ads[k], cities, departments)
    ensures BuildObjects(ads, demands, offers, cities, departments).Ok? ==>
              forall k :: 0 <= k < |ads| ==>
                BuildObject(ads[k], demands, offers, cities, departments) == Ok(BuildObjects(ads, demands, offers, cities, departments).value[k])
  {
    if ads != [] {
      var tail := ads[1..];
      BuildObjectsSpec(tail, demands, offers, cities, departments);
      var first := BuildObject(ads[0], demands, offers, cities, departments);
      var rest := BuildObjects(tail, demands, offers, cities, departments);
      var r := BuildObjects(ads, demands, offers, cities, departments);
      if first.Err? {
        assert !Placed(ads[0], cities, departments);
      } else if rest.Err? {
        var j :| 0 <= j < |tail| && !Placed(tail[j], cities, departments);
        assert ads[j + 1] == tail[j];
      } else {
        assert r == Ok([first.value] + rest.value);
        forall k | 0 <= k < |ads|
          ensures Placed(ads[k], cities, departments)
          ensures BuildObject(ads[k], demands, offers, cities, departments) == Ok(r.value[k])
        {
          if k > 0 {
            assert ads[k] == tail[k - 1] && r.value[k] == rest.value[k - 1];
          }
        }
      }
    }
  }

  /**
   * `getAdsOfPerimeter`: an unknown department fails with 404; otherwise the objects of the
   * ads listed around it, in listing order, with the department as `selectedDepartment`.
   */
  function AdsOfPerimeter(deptID: Uuid, perimeter: seq<PerimeterEdge>, departments: seq<Department>, cities: seq<City>,
                          ads: seq<Ad>, demands: seq<Tag>, offers: seq<Tag>): (r: Result<AdsOfPerimeterData, HttpError>)
    ensures FindDepartment(departments, deptID).None? ==> r == Err(NotFound)
    ensures r.Ok? ==> r.value.selectedDepartment == FindDepartment(departments, deptID).value
    ensures FindDepartment(departments, deptID).Some? ==>
              var listed := ListedAds(FindDepartment(departments, deptID).value, perimeter, departments, cities, ads);
              (r.Ok? <==> forall k :: 0 <= k < |listed| ==> Placed(listed[k], cities, departments)) &&
              (r.Err? ==> r.error == InternalServerError) &&
              (r.Ok? ==> |r.value.ads| == |listed| &&
                         forall k :: 0 <= k < |listed| ==> Describes(r.value.ads[k], listed[k], demands, offers, cities, departments))
  {
    match FindDepartment(departments, deptID)
    case None => Err(NotFound)
    case Some(d) =>
      BuildObjectsSpec(ListedAds(d, perimeter, departments, cities, ads), demands, offers, cities, departments);
      match BuildObjects(ListedAds(d, perimeter, departments, cities, ads), demands, offers, cities, departments)
      case Err(e) => Err(e)
      case Ok(objects) => Ok(AdsOfPerimeterData(objects, d))
  }
}
