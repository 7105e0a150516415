/** The relational store as in-memory tables, and the lookups the handlers run on them. */
module Database {
  import opened Wrappers
  import opened Tables
  import opened Records

  /**
   * Every table of the service. A table is a sequence of rows in storage order, except the
   * bearer tokens, which are an ordered list per user (a missing key is an empty list).
   */
  class Store {
    var users: seq<User>
    var ads: seq<Ad>
    var demands: seq<Tag>
    var offers: seq<Tag>
    var hearts: seq<Heart>
    var authTokens: map<Uuid, seq<string>>
    var resetTokens: seq<ResetToken>
    var contacts: seq<ContactEdge>
    var perimeter: seq<PerimeterEdge>
    var departments: seq<Department>
    var cities: seq<City>

    constructor ()
      ensures users == [] && ads == [] && demands == [] && offers == [] && hearts == []
      ensures authTokens == map[] && resetTokens == [] && contacts == [] && perimeter == []
      ensures departments == [] && cities == []
    {
      users, ads, demands, offers, hearts := [], [], [], [], [];
      authTokens, resetTokens, contacts, perimeter := map[], [], [], [];
      departments, cities := [], [];
    }
  }

  /** The tokens of user `u`. */
  function TokensOf(tokens: map<Uuid, seq<string>>, u: Uuid): seq<string>
  {
    if u in tokens then tokens[u] else []
  }

  /** `User.find(id)`: the first user row with that id. */
  function FindUser(users: seq<User>, id: Uuid): (r: Option<User>)
    ensures r.Some? ==> r.value in users && r.value.id == Some(id)
    ensures r.None? <==> forall u :: u in users ==> u.id != Some(id)
  {
    match FindFirst(users, (u: User) => u.id == Some(id))
    case None => None
    case Some(i) => Some(users[i])
  }

  /** `Ad.find(id)`: index of the first ad row with that id. */
  function FindAd(ads: seq<Ad>, id: Uuid): (r: Option<nat>)
    ensures r.Some? ==> r.value < |ads| && ads[r.value].id == id
    ensures r.None? <==> forall a :: a in ads ==> a.id != id
  {
    FindFirst(ads, (a: Ad) => a.id == id)
  }

  /** `Department.find(id)`. */
  function FindDepartment(departments: seq<Department>, id: Uuid): (r: Option<Department>)
    ensures r.Some? ==> r.value in departments && r.value.id == Some(id)
    ensures r.None? <==> forall d :: d in departments ==> d.id != Some(id)
  {
    match FindFirst(departments, (d: Department) => d.id == Some(id))
    case None => None
    case Some(i) => Some(departments[i])
  }

  /** `City.find(id)`. */
  function FindCity(cities: seq<City>, id: Uuid): (r: Option<City>)
    ensures r.Some? ==> r.value in cities && r.value.id == id
    ensures r.None? <==> forall c :: c in cities ==> c.id != id
  {
    match FindFirst(cities, (c: City) => c.id == id)
    case None => None
    case Some(i) => Some(cities[i])
  }

  /** The ad rows owned by the user with identifier `owner` (`user.adsOfUser`). */
  function AdsOfUser(ads: seq<Ad>, owner: Uuid): (r: seq<Ad>)
    ensures forall a :: a in r <==> a in ads && a.userID == owner
  {
    Filter(ads, (a: Ad) => a.userID == owner)
  }

  /** The demand or offer rows of one ad, in storage order (`ad.demands`, `ad.offers`). */
  function TagsOfAd(tags: seq<Tag>, ad: Uuid): (r: seq<Tag>)
    ensures forall t :: multiset(r)[t] == if t.adID == ad then multiset(tags)[t] else 0
  {
    Filter(tags, (t: Tag) => t.adID == ad)
  }

  /**
   * `save(on:)` of a user object: a user without an id is inserted, otherwise every row
   * with that id is overwritten by the object.
   */
  function SaveUser(users: seq<User>, u: User): (r: seq<User>)
    ensures u.id.None? ==> r == users + [u]
    ensures u.id.Some? ==> |r| == |users|
    ensures u.id.Some? ==> forall k :: 0 <= k < |users| ==>
              r[k] == if users[k].id == u.id then u else users[k]
  {
    if u.id.None? then users + [u]
    else seq(|users|, k requires 0 <= k < |users| => if users[k].id == u.id then u else users[k])
  }

  /** Once saved, a user with an id is what a lookup by that id returns. */
  lemma SaveUserFinds(users: seq<User>, u: User)
    requires u.id.Some? && FindUser(users, u.id.value).Some?
    ensures FindUser(SaveUser(users, u), u.id.value) == Some(u)
  {
    var s := SaveUser(users, u);
    var k :| k in users && k.id == u.id;
    var i :| 0 <= i < |users| && users[i] == k;
    assert s[i] == u;
    var f := FindUser(s, u.id.value).value;
    var j :| 0 <= j < |s| && s[j] == f;
    assert users[j].id == u.id;
  }

  /** The identifier column of the ad table. */
  function AdKey(a: Ad): Uuid
  {
    a.id
  }

  /** `save(on:)` of an ad row: every row with that id is overwritten. */
  function SaveAd(ads: seq<Ad>, ad: Ad): seq<Ad>
  {
    Overwrite(ads, ad, AdKey)
  }
}
