/** The user entity: its public view, its two contact relations and its pre-delete cleanup. */
module UserEntity {
  import opened Wrappers
  import opened Tables
  import opened Records
  import opened Database
  import opened UserUserPivot

  /** `convertToPublic`: the profile without the password hash. */
  function ConvertToPublic(u: User): PublicUser
  {
    PublicUser(u.id, u.firstname, u.lastname, u.email, u.userType)
  }

  /** Two users have the same public view exactly when they differ at most in their password. */
  lemma PublicViewHidesOnlyPassword(u: User, v: User)
    ensures ConvertToPublic(u) == ConvertToPublic(v) <==> u.(password := v.password) == v
  {
  }

  /** The side of an edge the user stands on: the left (first) side when `left`. */
  function Near(e: ContactEdge, left: bool): Uuid
  {
    if left then e.firstUserID else e.secondUserID
  }

  /** The other side of an edge. */
  function Far(e: ContactEdge, left: bool): Uuid
  {
    if left then e.secondUserID else e.firstUserID
  }

  /**
   * The sibling query of Fluent: for each edge, in storage order, with `me` on the given side,
   * the user row on the other side; an edge whose user row is missing drops out of the join.
   */
  function Siblings(edges: seq<ContactEdge>, users: seq<User>, me: Uuid, left: bool): (r: seq<User>)
    ensures forall v :: v in r <==> exists e :: e in edges && Near(e, left) == me && FindUser(users, Far(e, left)) == Some(v)
    ensures forall v :: v in r ==> v.id.Some?
    ensures |r| <= |edges|
  {
    if edges == [] then []
    else
      var rest := Siblings(edges[1..], users, me, left);
      assert forall e :: e in edges <==> e == edges[0] || e in edges[1..];
      if Near(edges[0], left) == me && FindUser(users, Far(edges[0], left)).Some? then
        [FindUser(users, Far(edges[0], left)).value] + rest
      else rest
  }

  /** The edges, in storage order, with `me` on the given side and an existing user on the other. */
  function SiblingEdges(edges: seq<ContactEdge>, users: seq<User>, me: Uuid, left: bool): seq<ContactEdge>
  {
    Filter(edges, (e: ContactEdge) => Near(e, left) == me && FindUser(users, Far(e, left)).Some?)
  }

  /** The user on the far side of each edge, edge after edge. */
  function FarUsers(es: seq<ContactEdge>, users: seq<User>, left: bool): seq<User>
    requires forall e :: e in es ==> FindUser(users, Far(e, left)).Some?
  {
    if es == [] then []
    else [FindUser(users, Far(es[0], left)).value] + FarUsers(es[1..], users, left)
  }

  /**
   * The join lists one user per edge of `SiblingEdges`, in the same order: the existing user on
   * the far side of that edge.
   */
  lemma {:induction false} SiblingsByEdge(edges: seq<ContactEdge>, users: seq<User>, me: Uuid, left: bool)
    ensures Siblings(edges, users, me, left) == FarUsers(SiblingEdges(edges, users, me, left), users, left)
  {
    if edges != [] {
      var e, rest := edges[0], edges[1..];
      SiblingsByEdge(rest, users, me, left);
      assert edges == [e] + rest;
      var se, tail := SiblingEdges(edges, users, me, left), SiblingEdges(rest, users, me, left);
      if Near(e, left) == me && FindUser(users, Far(e, left)).Some? {
        assert se == [e] + tail;
        assert se[0] == e && se[1..] == tail;
      } else {
        assert se == tail;
      }
    }
  }

  /** `myFriends`: the users this user sent a request to (edges where it is the left side). */
  function MyFriends(me: Uuid, edges: seq<ContactEdge>, users: seq<User>): (r: seq<User>)
    ensures forall v :: v in r <==> exists e :: e in edges && e.firstUserID == me && FindUser(users, e.secondUserID) == Some(v)
  {
    Siblings(edges, users, me, true)
  }

  /** `friendOf`: the users who sent this user a request (edges where it is the right side). */
  function FriendOf(me: Uuid, edges: seq<ContactEdge>, users: seq<User>): (r: seq<User>)
    ensures forall v :: v in r <==> exists e :: e in edges && e.secondUserID == me && FindUser(users, e.firstUserID) == Some(v)
  {
    Siblings(edges, users, me, false)
  }

  /** `friendOf.detachAll`: deletes the edges whose right side is `u`. */
  function DetachFriendOf(edges: seq<ContactEdge>, u: Uuid): seq<ContactEdge>
  {
    Filter(edges, (e: ContactEdge) => e.secondUserID != u)
  }

  /** `myFriends.detachAll`: deletes the edges whose left side is `u`. */
  function DetachMyFriends(edges: seq<ContactEdge>, u: Uuid): seq<ContactEdge>
  {
    Filter(edges, (e: ContactEdge) => e.firstUserID != u)
  }

  /** Detaching both relations leaves exactly the edges that do not involve the user. */
  lemma {:induction false} DetachBothSides(edges: seq<ContactEdge>, u: Uuid)
    ensures DetachMyFriends(DetachFriendOf(edges, u), u) == WithoutUser(edges, u)
  {
    if edges != [] {
      var e, rest := edges[0], edges[1..];
      DetachBothSides(rest, u);
      if e.secondUserID == u {
        assert DetachFriendOf(edges, u) == DetachFriendOf(rest, u);
        assert WithoutUser(edges, u) == WithoutUser(rest, u);
      } else {
        var kept := DetachFriendOf(rest, u);
        assert DetachFriendOf(edges, u) == [e] + kept;
        assert ([e] + kept)[0] == e && ([e] + kept)[1..] == kept;
        if e.firstUserID == u {
          assert DetachMyFriends([e] + kept, u) == DetachMyFriends(kept, u);
          assert WithoutUser(edges, u) == WithoutUser(rest, u);
        } else {
          assert DetachMyFriends([e] + kept, u) == [e] + DetachMyFriends(kept, u);
          assert WithoutUser(edges, u) == [e] + WithoutUser(rest, u);
        }
      }
    }
  }

  /**
   * `willSoftDelete`: deletes all the user's bearer tokens, then detaches it from every contact
   * edge on either side; edges between other users stay. A user without an id makes the first
   * query throw before anything is deleted.
   */
  method WillSoftDelete(db: Store, u: User) returns (r: Result<(), HttpError>)
    modifies db`authTokens, db`contacts
    ensures r.Err? <==> u.id.None?
    ensures r.Err? ==> r.error == InternalServerError
    ensures r.Err? ==> db.authTokens == old(db.authTokens) && db.contacts == old(db.contacts)
    ensures r.Ok? ==> db.authTokens == old(db.authTokens) - {u.id.value}
    ensures r.Ok? ==> db.contacts == WithoutUser(old(db.contacts), u.id.value)
  {
    if u.id.None? {
      return Err(InternalServerError);
    }
    var id := u.id.value;
    db.authTokens := db.authTokens - {id};
    db.contacts := DetachFriendOf(db.contacts, id);
    db.contacts := DetachMyFriends(db.contacts, id);
    DetachBothSides(old(db.contacts), id);
    r := Ok(());
  }
}
