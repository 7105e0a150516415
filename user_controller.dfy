/**
 * The user routes: contact requests and the contact card of an ad's owner, login with its
 * token cap, password reset, account deletion and profile edits.
 */
module UserController {
  import opened Wrappers
  import opened Tables
  import opened Records
  import opened Database
  import opened UserUserPivot
  import opened UserEntity
  import opened Middlewares

  // ---------------------------------------------------------------------------------------
  // Contact requests

  /** Index of the first edge from `from` to `to` (`pivots(on:).filter(...).first()`). */
  function FirstEdge(edges: seq<ContactEdge>, from: Uuid, to: Uuid): (r: Option<nat>)
    ensures r.Some? ==> r.value < |edges| && edges[r.value].firstUserID == from && edges[r.value].secondUserID == to
    ensures r.Some? ==> forall j :: 0 <= j < r.value ==> !(edges[j].firstUserID == from && edges[j].secondUserID == to)
    ensures r.None? <==> forall e :: e in edges ==> !(e.firstUserID == from && e.secondUserID == to)
  {
    FindFirst(edges, (e: ContactEdge) => e.firstUserID == from && e.secondUserID == to)
  }

  /** Appending edges never changes which edge between two users is found first, once there is one. */
  lemma FirstEdgeAppend(edges: seq<ContactEdge>, more: seq<ContactEdge>, from: Uuid, to: Uuid)
    ensures FirstEdge(edges + more, from, to) ==
              if FirstEdge(edges, from, to).Some? then FirstEdge(edges, from, to)
              else if FirstEdge(more, from, to).Some? then Some(|edges| + FirstEdge(more, from, to).value)
              else None
  {
    FindFirstAppend(edges, more, (e: ContactEdge) => e.firstUserID == from && e.secondUserID == to);
  }

  /**
   * The owner of ad `adID` as the join `Ad ⋈ User on userID` finds it: the user row of the
   * first ad row with that id whose owner exists.
   */
  function AdOwner(ads: seq<Ad>, users: seq<User>, adID: Uuid): (r: Option<User>)
    ensures r.Some? ==> exists a :: a in ads && a.id == adID && FindUser(users, a.userID) == r
    ensures r.None? <==> forall a :: a in ads && a.id == adID ==> FindUser(users, a.userID).None?
  {
    match FindFirst(ads, (a: Ad) => a.id == adID && FindUser(users, a.userID).Some?)
    case None => None
    case Some(i) => FindUser(users, ads[i].userID)
  }

  /**
   * `sendContactRequestHandler`: a new unaccepted edge from the caller to the owner of the ad.
   * An ad without an existing owner fails with 404, a caller without an id with 500. Nothing
   * prevents a second request to the same owner, or a request to oneself.
   */
  method SendContactRequest(db: Store, caller: User, adID: Uuid) returns (r: Result<ContactEdge, HttpError>)
    modifies db`contacts
    ensures AdOwner(db.ads, db.users, adID).None? ==> r == Err(NotFound)
    ensures AdOwner(db.ads, db.users, adID).Some? ==> r == NewContactEdge(caller, AdOwner(db.ads, db.users, adID).value)
    ensures r.Err? ==> db.contacts == old(db.contacts)
    ensures r.Ok? ==> db.contacts == old(db.contacts) + [r.value]
  {
    var owner := AdOwner(db.ads, db.users, adID);
    if owner.None? {
      return Err(NotFound);
    }
    r := NewContactEdge(caller, owner.value);
    if r.Ok? {
      db.contacts := db.contacts + [r.value];
    }
  }

  /**
   * The edge table after user `me` accepts the request from user `from`: the first edge from
   * `from` to `me` gets its flag set and every other edge stays as it was; without such an edge
   * the request fails with 404.
   */
  function AcceptRequest(edges: seq<ContactEdge>, me: Uuid, from: Uuid): (r: Result<seq<ContactEdge>, HttpError>)
    ensures r.Err? <==> FirstEdge(edges, from, me).None?
    ensures r.Err? ==> r.error == NotFound
    ensures r.Ok? ==> |r.value| == |edges|
    ensures r.Ok? ==> r.value[FirstEdge(edges, from, me).value] == ContactEdge(from, me, true)
    ensures r.Ok? ==> forall k :: 0 <= k < |edges| && k != FirstEdge(edges, from, me).value ==> r.value[k] == edges[k]
  {
    match FirstEdge(edges, from, me)
    case None => Err(NotFound)
    case Some(i) => Ok(edges[i := edges[i].(areContacs := true)])
  }

  /**
   * The edge table after user `me` declines the request from user `from`: the first edge from
   * `from` to `me` is deleted, and only it; without such an edge the request fails with 404.
   */
  function DeclineRequest(edges: seq<ContactEdge>, me: Uuid, from: Uuid): (r: Result<seq<ContactEdge>, HttpError>)
    ensures r.Err? <==> FirstEdge(edges, from, me).None?
    ensures r.Err? ==> r.error == NotFound
    ensures r.Ok? ==> multiset(r.value) == multiset(edges) - multiset{edges[FirstEdge(edges, from, me).value]}
    ensures r.Ok? ==> |r.value| + 1 == |edges|
  {
    match FirstEdge(edges, from, me)
    case None => Err(NotFound)
    case Some(i) => Ok(RemoveAt(edges, i))
  }

  /** `acceptContactRequestHandler`: `friendOf` needs the caller's id, so a caller without one fails with 500. */
  method AcceptContactRequest(db: Store, caller: User, from: Uuid) returns (r: Result<(), HttpError>)
    modifies db`contacts
    ensures caller.id.None? ==> r == Err(InternalServerError) && db.contacts == old(db.contacts)
    ensures caller.id.Some? && AcceptRequest(old(db.contacts), caller.id.value, from).Err? ==>
              r == Err(NotFound) && db.contacts == old(db.contacts)
    ensures caller.id.Some? && AcceptRequest(old(db.contacts), caller.id.value, from).Ok? ==>
              r == Ok(()) && db.contacts == AcceptRequest(old(db.contacts), caller.id.value, from).value
  {
    if caller.id.None? {
      return Err(InternalServerError);
    }
    var next := AcceptRequest(db.contacts, caller.id.value, from);
    if next.Err? {
      return Err(next.error);
    }
    db.contacts := next.value;
    r := Ok(());
  }

  /** `declineContactRequestHandler`: a caller without an id fails with 500. */
  method DeclineContactRequest(db: Store, caller: User, from: Uuid) returns (r: Result<(), HttpError>)
    modifies db`contacts
    ensures caller.id.None? ==> r == Err(InternalServerError) && db.contacts == old(db.contacts)
    ensures caller.id.Some? && DeclineRequest(old(db.contacts), caller.id.value, from).Err? ==>
              r == Err(NotFound) && db.contacts == old(db.contacts)
    ensures caller.id.Some? && DeclineRequest(old(db.contacts), caller.id.value, from).Ok? ==>
              r == Ok(()) && db.contacts == DeclineRequest(old(db.contacts), caller.id.value, from).value
  {
    if caller.id.None? {
      return Err(InternalServerError);
    }
    var next := DeclineRequest(db.contacts, caller.id.value, from);
    if next.Err? {
      return Err(next.error);
    }
    db.contacts := next.value;
    r := Ok(());
  }

  /** The edges whose flag is set. */
  function AcceptedEdges(edges: seq<ContactEdge>): seq<ContactEdge>
  {
    Filter(edges, (e: ContactEdge) => e.areContacs)
  }

  /** The edges whose flag is not set. */
  function PendingEdges(edges: seq<ContactEdge>): seq<ContactEdge>
  {
    Filter(edges, (e: ContactEdge) => !e.areContacs)
  }

  /**
   * The contacts of user `me`: the users of the accepted requests `me` received, followed by
   * the users of the accepted requests `me` sent, one per accepted edge whose other user
   * exists, in storage order. A user is a contact exactly when an accepted edge joins it to
   * `me` in either direction.
   */
  function ContactUsers(me: Uuid, edges: seq<ContactEdge>, users: seq<User>): (r: seq<User>)
    ensures forall v :: v in r <==>
              exists e :: e in edges && e.areContacs && Involves(e, me) &&
                          ((e.secondUserID == me && FindUser(users, e.firstUserID) == Some(v)) ||
                           (e.firstUserID == me && FindUser(users, e.secondUserID) == Some(v)))
    ensures forall v :: v in r ==> v.id.Some?
    ensures r == FarUsers(SiblingEdges(AcceptedEdges(edges), users, me, false), users, false) +
                 FarUsers(SiblingEdges(AcceptedEdges(edges), users, me, true), users, true)
  {
    SiblingsByEdge(AcceptedEdges(edges), users, me, false);
    SiblingsByEdge(AcceptedEdges(edges), users, me, true);
    FriendOf(me, AcceptedEdges(edges), users) + MyFriends(me, AcceptedEdges(edges), users)
  }

  /** One `ContactInfoData` per user: its public view and its ads. */
  function ContactInfos(vs: seq<User>, ads: seq<Ad>): (r: seq<ContactInfo>)
    requires forall v :: v in vs ==> v.id.Some?
    ensures |r| == |vs|
    ensures forall k :: 0 <= k < |vs| ==> r[k].contact == ConvertToPublic(vs[k]) && r[k].ads == AdsOfUser(ads, vs[k].id.value)
  {
    if vs == [] then []
    else
      var rest := vs[1..];
      assert forall k :: 0 <= k < |rest| ==> rest[k] == vs[k + 1];
      var card := ContactInfo(ConvertToPublic(vs[0]), AdsOfUser(ads, vs[0].id.value));
      var tail := ContactInfos(rest, ads);
      assert forall k :: 1 <= k < |vs| ==> ([card] + tail)[k] == tail[k - 1];
      [card] + tail
  }

  /**
   * `getContactsHandler`: every card lists exactly the ads its user owns, and there is a card
   * per contact edge found, in the order of `ContactUsers`.
   */
  function Contacts(me: Uuid, edges: seq<ContactEdge>, users: seq<User>, ads: seq<Ad>): (r: seq<ContactInfo>)
    ensures |r| == |ContactUsers(me, edges, users)|
    ensures forall k :: 0 <= k < |r| ==>
              r[k].contact == ConvertToPublic(ContactUsers(me, edges, users)[k]) &&
              r[k].contact.id.Some? &&
              forall a :: a in r[k].ads <==> a in ads && a.userID == r[k].contact.id.value
  {
    ContactInfos(ContactUsers(me, edges, users), ads)
  }

  /** One `ContactRequestFromData` per requesting user. */
  function RequestsFrom(vs: seq<User>): (r: seq<ContactRequestFrom>)
    requires forall v :: v in vs ==> v.id.Some?
    ensures forall x :: x in r <==> exists v :: v in vs && x == ContactRequestFrom(v.id.value, v.firstname)
  {
    if vs == [] then []
    else
      assert forall v :: v in vs <==> v == vs[0] || v in vs[1..];
      [ContactRequestFrom(vs[0].id.value, vs[0].firstname)] + RequestsFrom(vs[1..])
  }

  /** A pending request as `getContactRequestsHandler` reports it. */
  ghost predicate PendingFrom(x: ContactRequestFrom, me: Uuid, edges: seq<ContactEdge>, users: seq<User>)
  {
    exists e :: e in edges && !e.areContacs && e.secondUserID == me && e.firstUserID == x.userID &&
                FindUser(users, e.firstUserID).Some? && FindUser(users, e.firstUserID).value.firstname == x.firstname
  }

  /**
   * `getContactRequestsHandler`: the requests `me` received and has not accepted, each naming
   * the requesting user by id and first name.
   */
  function ContactRequests(me: Uuid, edges: seq<ContactEdge>, users: seq<User>): (r: seq<ContactRequestFrom>)
    ensures forall x :: x in r <==> PendingFrom(x, me, edges, users)
  {
    ContactRequestsMembership(me, edges, users);
    RequestsFrom(FriendOf(me, PendingEdges(edges), users))
  }

  lemma ContactRequestsMembership(me: Uuid, edges: seq<ContactEdge>, users: seq<User>)
    ensures forall x :: x in RequestsFrom(FriendOf(me, PendingEdges(edges), users)) <==> PendingFrom(x, me, edges, users)
  {
    var vs := FriendOf(me, PendingEdges(edges), users);
    forall x | x in RequestsFrom(vs)
      ensures PendingFrom(x, me, edges, users)
    {
      var v :| v in vs && x == ContactRequestFrom(v.id.value, v.firstname);
      var e :| e in PendingEdges(edges) && e.secondUserID == me && FindUser(users, e.firstUserID) == Some(v);
      assert e in edges && !e.areContacs;
    }
    forall x: ContactRequestFrom | PendingFrom(x, me, edges, users)
      ensures x in RequestsFrom(vs)
    {
      var e :| e in edges && !e.areContacs && e.secondUserID == me && e.firstUserID == x.userID &&
               FindUser(users, e.firstUserID).Some? && FindUser(users, e.firstUserID).value.firstname == x.firstname;
      var v := FindUser(users, e.firstUserID).value;
      assert e in PendingEdges(edges);
      assert v in vs;
    }
  }

  // ---------------------------------------------------------------------------------------
  // The contact card of an ad's owner

  /** The owner's details, all shown. */
  function FullCard(id: Uuid, u: User, youAccepted: bool, otherAccepted: bool): ContactData
  {
    ContactData(id, Some(u.firstname), Some(u.lastname), Some(u.email), youAccepted, otherAccepted)
  }

  /** Only the owner's first name. */
  function NameOnlyCard(id: Uuid, u: User, youAccepted: bool, otherAccepted: bool): ContactData
  {
    ContactData(id, Some(u.firstname), None, None, youAccepted, otherAccepted)
  }

  /**
   * The decision table of `getSingleContactHandler` for caller `caller` (id `me`) looking at the
   * owner `owner` (id `ownerID`). The first request from the owner to the caller decides when
   * there is one; otherwise the first request from the caller to the owner; otherwise whether
   * the caller is the owner. The last name and e-mail are shown exactly when `youAccepted`.
   */
  function ContactView(caller: User, me: Uuid, ownerID: Uuid, owner: User, edges: seq<ContactEdge>): (r: ContactData)
    ensures r.contactID == ownerID && r.firstname.Some?
    ensures r.lastname.Some? <==> r.youAccepted
    ensures r.email.Some? <==> r.youAccepted
    ensures FirstEdge(edges, ownerID, me).Some? ==>
              r.otherAccepted && (r.youAccepted <==> edges[FirstEdge(edges, ownerID, me).value].areContacs) &&
              r == (if r.youAccepted then FullCard(ownerID, owner, true, true) else NameOnlyCard(ownerID, owner, false, true))
    ensures FirstEdge(edges, ownerID, me).None? && FirstEdge(edges, me, ownerID).Some? ==>
              r.youAccepted && (r.otherAccepted <==> edges[FirstEdge(edges, me, ownerID).value].areContacs) &&
              r == FullCard(ownerID, owner, true, r.otherAccepted)
    ensures FirstEdge(edges, ownerID, me).None? && FirstEdge(edges, me, ownerID).None? ==>
              (r.youAccepted <==> me == ownerID) && (r.otherAccepted <==> me == ownerID) &&
              r == (if me == ownerID then FullCard(ownerID, caller, true, true) else NameOnlyCard(ownerID, owner, false, false))
  {
    match FirstEdge(edges, ownerID, me)
    case Some(i) =>
      if edges[i].areContacs then FullCard(ownerID, owner, true, true)
      else NameOnlyCard(ownerID, owner, false, true)
    case None =>
      match FirstEdge(edges, me, ownerID)
      case Some(j) =>
        if edges[j].areContacs then FullCard(ownerID, owner, true, true)
        else FullCard(ownerID, owner, true, false)
      case None =>
        if me != ownerID then NameOnlyCard(ownerID, owner, false, false)
        else FullCard(ownerID, caller, true, true)
  }

  /**
   * A request from the owner to the caller takes precedence over any request the other way:
   * once there is one, further edges of any kind leave the card unchanged.
   */
  lemma IncomingTakesPrecedence(caller: User, me: Uuid, ownerID: Uuid, owner: User, edges: seq<ContactEdge>, more: seq<ContactEdge>)
    requires FirstEdge(edges, ownerID, me).Some?
    ensures ContactView(caller, me, ownerID, owner, edges + more) == ContactView(caller, me, ownerID, owner, edges)
  {
    FirstEdgeAppend(edges, more, ownerID, me);
    assert (edges + more)[FirstEdge(edges, ownerID, me).value] == edges[FirstEdge(edges, ownerID, me).value];
  }

  /**
   * `getSingleContactHandler`: an unknown ad fails with 404, a caller without an id with 500,
   * and an owner missing from the users table with 500; otherwise the card of `ContactView`.
   */
  function SingleContact(caller: User, adID: Uuid, ads: seq<Ad>, edges: seq<ContactEdge>, users: seq<User>): (r: Result<ContactData, HttpError>)
    ensures OwnerOf(ads, adID).None? ==> r == Err(NotFound)
    ensures r.Ok? <==> OwnerOf(ads, adID).Some? && caller.id.Some? && FindUser(users, OwnerOf(ads, adID).value).Some?
    ensures r.Ok? ==> r.value == ContactView(caller, caller.id.value, OwnerOf(ads, adID).value,
                                             FindUser(users, OwnerOf(ads, adID).value).value, edges)
    ensures OwnerOf(ads, adID).Some? && r.Err? ==> r.error == InternalServerError
  {
    match OwnerOf(ads, adID)
    case None => Err(NotFound)
    case Some(ownerID) =>
      if caller.id.None? then Err(InternalServerError)
      else match FindUser(users, ownerID)
        case None => Err(InternalServerError)
        case Some(owner) => Ok(ContactView(caller, caller.id.value, ownerID, owner, edges))
  }

  /**
   * The request lifecycle between two users with no edge between them yet. After the caller
   * sends a request, the caller sees the owner's details with `youAccepted` and not
   * `otherAccepted`, and the owner sees only the caller's first name with `otherAccepted`.
   * Once the owner accepts, both see each other in full with both flags set, and each is among
   * the other's contacts. Declining instead restores the table.
   */
  lemma ContactLifecycle(edges: seq<ContactEdge>, users: seq<User>, c: User, o: User, cid: Uuid, oid: Uuid)
    requires c.id == Some(cid) && o.id == Some(oid) && cid != oid
    requires FindUser(users, cid) == Some(c) && FindUser(users, oid) == Some(o)
    requires FirstEdge(edges, cid, oid).None? && FirstEdge(edges, oid, cid).None?
    ensures var sent := edges + [NewContactEdge(c, o).value];
            ContactView(c, cid, oid, o, sent) == FullCard(oid, o, true, false) &&
            ContactView(o, oid, cid, c, sent) == NameOnlyCard(cid, c, false, true)
    ensures var sent := edges + [NewContactEdge(c, o).value];
            AcceptRequest(sent, oid, cid).Ok? &&
            ContactView(c, cid, oid, o, AcceptRequest(sent, oid, cid).value) == FullCard(oid, o, true, true) &&
            ContactView(o, oid, cid, c, AcceptRequest(sent, oid, cid).value) == FullCard(cid, c, true, true) &&
            c in ContactUsers(oid, AcceptRequest(sent, oid, cid).value, users) &&
            o in ContactUsers(cid, AcceptRequest(sent, oid, cid).value, users)
    ensures var sent := edges + [NewContactEdge(c, o).value];
            DeclineRequest(sent, oid, cid) == Ok(edges)
  {
    var e := ContactEdge(cid, oid, false);
    var sent := edges + [e];
    assert NewContactEdge(c, o).value == e;
    FirstEdgeAppend(edges, [e], cid, oid);
    FirstEdgeAppend(edges, [e], oid, cid);
    assert FirstEdge([e], cid, oid) == Some(0);
    assert FirstEdge(sent, cid, oid) == Some(|edges|);
    assert FirstEdge(sent, oid, cid).None?;
    var n := |edges|;
    var accepted := sent[n := ContactEdge(cid, oid, true)];
    assert AcceptRequest(sent, oid, cid) == Ok(accepted);
    FindFirstUpdate(sent, n, ContactEdge(cid, oid, true), (x: ContactEdge) => x.firstUserID == cid && x.secondUserID == oid);
    FindFirstUpdate(sent, n, ContactEdge(cid, oid, true), (x: ContactEdge) => x.firstUserID == oid && x.secondUserID == cid);
    assert FirstEdge(accepted, cid, oid) == Some(n);
    assert FirstEdge(accepted, oid, cid).None?;
    assert accepted[n] in accepted;
    assert RemoveAt(sent, n) == edges;
  }

  // ---------------------------------------------------------------------------------------
  // Login

  /**
   * How many of `n` stored tokens survive the trimming loop: with two or more tokens the loop
   * removes the oldest at least once and then keeps removing while more than two remain.
   */
  function KeptCount(n: nat): nat
  {
    if n < 2 then n else if n == 2 then 1 else 2
  }

  /**
   * The token list of a user after a login: the survivors of the trimming, then the new token.
   * The survivors are the newest stored tokens; with two or more stored tokens at least one is
   * dropped; at most two survive, so a user with at most two tokens still has at most two.
   */
  function TokensAfterLogin(tokens: seq<string>, newToken: string): (r: seq<string>)
    ensures |r| >= 1 && r[|r| - 1] == newToken
    ensures |r| - 1 <= 2 && |r| - 1 <= |tokens|
    ensures r[..|r| - 1] == tokens[|tokens| - (|r| - 1)..]
    ensures |tokens| >= 2 ==> |r| - 1 < |tokens|
    ensures |tokens| > 2 ==> |r| - 1 == 2
    ensures |tokens| < 2 ==> r == tokens + [newToken]
    ensures |tokens| <= 2 ==> |r| <= 2
  {
    tokens[|tokens| - KeptCount(|tokens|)..] + [newToken]
  }

  /**
   * The repeat-while loop of `loginPostHandler` over the list of the user's tokens: when there
   * are at least two, remove the first, and repeat while more than two remain.
   */
  method TrimTokens(tokens: seq<string>) returns (kept: seq<string>)
    ensures kept == tokens[|tokens| - KeptCount(|tokens|)..]
  {
    kept := tokens;
    if |tokens| >= 2 {
      kept := kept[1..];
      while |kept| > 2
        invariant 1 <= |kept| < |tokens|
        invariant |tokens| > 2 ==> |kept| >= 2
        invariant kept == tokens[|tokens| - |kept|..]
        decreases |kept|
      {
        kept := kept[1..];
      }
    }
  }

  /** `User.authenticate`: the first user with that e-mail, if the password verifies against its hash. */
  function Authenticate(users: seq<User>, email: string, password: string, verify: (string, string) -> bool): (r: Option<User>)
    ensures r.Some? ==> r.value in users && r.value.email == email && verify(password, r.value.password)
    ensures r.Some? ==> exists i :: 0 <= i < |users| && users[i] == r.value && forall j :: 0 <= j < i ==> users[j].email != email
    ensures (forall u :: u in users ==> u.email != email) ==> r.None?
    ensures forall i :: 0 <= i < |users| && users[i].email == email && (forall j :: 0 <= j < i ==> users[j].email != email) ==>
              r == if verify(password, users[i].password) then Some(users[i]) else None
  {
    match FindFirst(users, (u: User) => u.email == email)
    case None => None
    case Some(i) => if verify(password, users[i].password) then Some(users[i]) else None
  }

  /**
   * `loginPostHandler`, for credentials already decoded: wrong credentials fail with 401; the
   * user's token list is trimmed by `TrimTokens` and the new token `newToken` is stored after it.
   */
  method Login(db: Store, email: string, password: string, verify: (string, string) -> bool, newToken: string)
    returns (r: Result<TokenData, HttpError>)
    modifies db`authTokens
    ensures Authenticate(db.users, email, password, verify).None? ==> r == Err(Unauthorized)
    ensures Authenticate(db.users, email, password, verify).Some? && Authenticate(db.users, email, password, verify).value.id.None? ==>
              r == Err(InternalServerError)
    ensures r.Err? ==> db.authTokens == old(db.authTokens)
    ensures r.Ok? <==> Authenticate(db.users, email, password, verify).Some? && Authenticate(db.users, email, password, verify).value.id.Some?
    ensures r.Ok? ==>
              var u := Authenticate(db.users, email, password, verify).value;
              r.value == TokenData(newToken, u.userType) &&
              db.authTokens == old(db.authTokens)[u.id.value := TokensAfterLogin(TokensOf(old(db.authTokens), u.id.value), newToken)]
  {
    var found := Authenticate(db.users, email, password, verify);
    if found.None? {
      return Err(Unauthorized);
    }
    var u := found.value;
    if u.id.None? {
      return Err(InternalServerError);
    }
    StoreLoginToken(db, u.id.value, newToken);
    r := Ok(TokenData(newToken, u.userType));
  }

  /** The token-list update of a successful login: trim the user's stored tokens, then store the new one. */
  method StoreLoginToken(db: Store, id: Uuid, newToken: string)
    modifies db`authTokens
    ensures db.authTokens == old(db.authTokens)[id := TokensAfterLogin(TokensOf(old(db.authTokens), id), newToken)]
  {
    var stored := TokensOf(db.authTokens, id);
    var kept := TrimTokens(stored);
    var after := kept + [newToken];
    assert after == TokensAfterLogin(stored, newToken);
    db.authTokens := db.authTokens[id := after];
  }

  // ---------------------------------------------------------------------------------------
  // Password reset

  /** A reset token lasts one hour. */
  const ResetLifetime: int := 60 * 60

  /** A reset token is valid at time `now` when it has a creation time and is less than an hour old. */
  predicate ResetTokenValid(t: ResetToken, now: int)
  {
    t.createdAt.Some? && now < t.createdAt.value + ResetLifetime
  }

  /** Once expired, a reset token stays expired; a token valid now was valid since its creation. */
  lemma ExpiryIsFinal(t: ResetToken, now: int, later: int)
    requires now <= later
    ensures !ResetTokenValid(t, now) ==> !ResetTokenValid(t, later)
    ensures ResetTokenValid(t, later) && t.createdAt.value <= now ==> ResetTokenValid(t, now)
  {
  }

  /** Index of the first reset-token row with that string. */
  function FindResetToken(tokens: seq<ResetToken>, token: string): (r: Option<nat>)
    ensures r.Some? ==> r.value < |tokens| && tokens[r.value].token == token
    ensures r.Some? ==> forall j :: 0 <= j < r.value ==> tokens[j].token != token
    ensures r.None? <==> forall t :: t in tokens ==> t.token != token
  {
    FindFirst(tokens, (t: ResetToken) => t.token == token)
  }

  /**
   * `confirmResetTokenHandler`: true exactly when the first row with that string is valid at
   * `now`. A found row that is not valid is deleted; an unknown string deletes nothing.
   */
  method ConfirmResetToken(db: Store, token: string, now: int) returns (valid: bool)
    modifies db`resetTokens
    ensures valid <==> FindResetToken(old(db.resetTokens), token).Some? &&
                       ResetTokenValid(old(db.resetTokens)[FindResetToken(old(db.resetTokens), token).value], now)
    ensures FindResetToken(old(db.resetTokens), token).Some? && !valid ==>
              db.resetTokens == RemoveAt(old(db.resetTokens), FindResetToken(old(db.resetTokens), token).value)
    ensures FindResetToken(old(db.resetTokens), token).None? || valid ==> db.resetTokens == old(db.resetTokens)
  {
    var found := FindResetToken(db.resetTokens, token);
    if found.None? {
      return false;
    }
    var i := found.value;
    if db.resetTokens[i].createdAt.None? {
      db.resetTokens := RemoveAt(db.resetTokens, i);
      return false;
    }
    if now < db.resetTokens[i].createdAt.value + ResetLifetime {
      return true;
    }
    db.resetTokens := RemoveAt(db.resetTokens, i);
    valid := false;
  }

  /** Index of the first reset-token row with that string whose user exists (the join with `User`). */
  function FindResetPair(tokens: seq<ResetToken>, users: seq<User>, token: string): (r: Option<nat>)
    ensures r.Some? ==> r.value < |tokens| && tokens[r.value].token == token && FindUser(users, tokens[r.value].userID).Some?
    ensures r.Some? ==> forall j :: 0 <= j < r.value ==> tokens[j].token != token || FindUser(users, tokens[j].userID).None?
    ensures r.None? <==> forall t :: t in tokens && t.token == token ==> FindUser(users, t.userID).None?
  {
    FindFirst(tokens, (t: ResetToken) => t.token == token && FindUser(users, t.userID).Some?)
  }

  /**
   * `updatePasswordHandler`: with a valid token, the user's password becomes `hash` of the new
   * password, the reset-token row is deleted and every bearer token of the user is revoked; an
   * expired token, or one without a creation time, is deleted and the request fails with 404.
   * An unknown token, or a new password that did not decode (`newPassword` is None), fails
   * with 404 and changes nothing.
   */
  method UpdatePassword(db: Store, token: string, newPassword: Option<string>, hash: string -> string, now: int)
    returns (r: Result<(), HttpError>)
    modifies db`resetTokens, db`users, db`authTokens
    ensures r.Err? ==> r.error == NotFound
    ensures FindResetPair(old(db.resetTokens), old(db.users), token).None? ==>
              r.Err? && db.resetTokens == old(db.resetTokens)
    ensures r.Ok? <==> FindResetPair(old(db.resetTokens), old(db.users), token).Some? && newPassword.Some? &&
                       ResetTokenValid(old(db.resetTokens)[FindResetPair(old(db.resetTokens), old(db.users), token).value], now)
    ensures r.Err? ==> db.users == old(db.users) && db.authTokens == old(db.authTokens)
    ensures FindResetPair(old(db.resetTokens), old(db.users), token).Some? ==>
              var i := FindResetPair(old(db.resetTokens), old(db.users), token).value;
              var t := old(db.resetTokens)[i];
              var u := FindUser(old(db.users), t.userID).value;
              (!ResetTokenValid(t, now) ==> db.resetTokens == RemoveAt(old(db.resetTokens), i)) &&
              (ResetTokenValid(t, now) && newPassword.None? ==> db.resetTokens == old(db.resetTokens)) &&
              (r.Ok? ==> db.resetTokens == RemoveAt(old(db.resetTokens), i) &&
                         db.users == SaveUser(old(db.users), u.(password := hash(newPassword.value))) &&
                         FindUser(db.users, t.userID) == Some(u.(password := hash(newPassword.value))) &&
                         db.authTokens == old(db.authTokens) - {t.userID} &&
                         TokensOf(db.authTokens, t.userID) == [])
  {
    var found := FindResetPair(db.resetTokens, db.users, token);
    if found.None? {
      return Err(NotFound);
    }
    var i := found.value;
    var t := db.resetTokens[i];
    var u := FindUser(db.users, t.userID).value;
    if t.createdAt.None? {
      db.resetTokens := RemoveAt(db.resetTokens, i);
      return Err(NotFound);
    }
    if now < t.createdAt.value + ResetLifetime {
      if newPassword.None? {
        return Err(NotFound);
      }
      ApplyPasswordReset(db, i, u.(password := hash(newPassword.value)));
      r := Ok(());
    } else {
      db.resetTokens := RemoveAt(db.resetTokens, i);
      r := Err(NotFound);
    }
  }

  /**
   * The writes of a successful password reset: the user row is saved with its new password,
   * reset-token row `i` is deleted and every bearer token of the user is revoked.
   */
  method ApplyPasswordReset(db: Store, i: nat, updated: User)
    requires i < |db.resetTokens|
    requires updated.id == Some(db.resetTokens[i].userID) && FindUser(db.users, db.resetTokens[i].userID).Some?
    modifies db`resetTokens, db`users, db`authTokens
    ensures db.resetTokens == RemoveAt(old(db.resetTokens), i)
    ensures db.users == SaveUser(old(db.users), updated)
    ensures FindUser(db.users, old(db.resetTokens)[i].userID) == Some(updated)
    ensures db.authTokens == old(db.authTokens) - {old(db.resetTokens)[i].userID}
    ensures TokensOf(db.authTokens, old(db.resetTokens)[i].userID) == []
  {
    var id := db.resetTokens[i].userID;
    SaveUserFinds(db.users, updated);
    db.users := SaveUser(db.users, updated);
    db.resetTokens := RemoveAt(db.resetTokens, i);
    db.authTokens := db.authTokens - {id};
  }

  // ---------------------------------------------------------------------------------------
  // Account deletion and profile edits

  /** The user table once every row with id `id` is deleted. */
  function UsersWithout(users: seq<User>, id: Uuid): (r: seq<User>)
    ensures FindUser(r, id).None?
    ensures forall v :: v in r <==> v in users && v.id != Some(id)
    ensures forall v: User :: v.id != Some(id) ==> multiset(r)[v] == multiset(users)[v]
  {
    Filter(users, (v: User) => v.id != Some(id))
  }

  /** The ad table once every ad of user `owner` is deleted. */
  function AdsNotOwnedBy(ads: seq<Ad>, owner: Uuid): (r: seq<Ad>)
    ensures AdsOfUser(r, owner) == []
    ensures forall a :: a in r <==> a in ads && a.userID != owner
    ensures forall a: Ad :: a.userID != owner ==> multiset(r)[a] == multiset(ads)[a]
  {
    var r := Filter(ads, (a: Ad) => a.userID != owner);
    assert forall a :: a in AdsOfUser(r, owner) ==> false;
    r
  }

  /**
   * `forceDeleteUserHandler`: an unknown user fails with 404; only an administrator or the user
   * itself may delete the account (a non-administrator without an id fails with 500, anyone
   * else gets 403, and nothing changes). Otherwise the user's ads and the user row are deleted,
   * and the cascade of the contact pivot removes every edge touching the user.
   */
  method ForceDeleteUser(db: Store, caller: User, targetID: Uuid) returns (r: Result<(), HttpError>)
    modifies db`users, db`ads, db`contacts
    ensures FindUser(old(db.users), targetID).None? ==> r == Err(NotFound)
    ensures FindUser(old(db.users), targetID).Some? ==>
              (r.Ok? <==> AdminOrOwner(caller, targetID) == Ok(true)) &&
              (AdminOrOwner(caller, targetID).Err? ==> r == Err(InternalServerError)) &&
              (AdminOrOwner(caller, targetID) == Ok(false) ==> r == Err(Forbidden))
    ensures r.Err? ==> db.users == old(db.users) && db.ads == old(db.ads) && db.contacts == old(db.contacts)
    ensures r.Ok? ==> db.users == UsersWithout(old(db.users), targetID) &&
                      db.ads == AdsNotOwnedBy(old(db.ads), targetID) &&
                      db.contacts == WithoutUser(old(db.contacts), targetID)
  {
    if FindUser(db.users, targetID).None? {
      return Err(NotFound);
    }
    var allowed := AdminOrOwner(caller, targetID);
    if allowed.Err? {
      return Err(allowed.error);
    }
    if !allowed.value {
      return Err(Forbidden);
    }
    db.ads := AdsNotOwnedBy(db.ads, targetID);
    db.users := UsersWithout(db.users, targetID);
    db.contacts := WithoutUser(db.contacts, targetID);
    r := Ok(());
  }

  /**
   * The unique index on `email`: saving a user with that e-mail collides with a row of another
   * id (any row, for a user not yet inserted).
   */
  predicate EmailTaken(users: seq<User>, email: string, id: Option<Uuid>)
  {
    exists v :: v in users && v.email == email && (id.None? || v.id != id)
  }

  /**
   * `editUserDataHandler`: the caller's names and e-mail are replaced and the caller is saved;
   * its id, password and role stay. An e-mail that another user already has fails with 500.
   */
  method EditUserData(db: Store, caller: User, data: UserData) returns (r: Result<User, HttpError>)
    modifies db`users
    ensures EmailTaken(old(db.users), data.email, caller.id) ==> r == Err(InternalServerError) && db.users == old(db.users)
    ensures !EmailTaken(old(db.users), data.email, caller.id) ==>
              r == Ok(caller.(firstname := data.firstname, lastname := data.lastname, email := data.email)) &&
              db.users == SaveUser(old(db.users), r.value)
    ensures r.Ok? ==> r.value.id == caller.id && r.value.password == caller.password && r.value.userType == caller.userType
    ensures r.Ok? && caller.id.Some? && FindUser(old(db.users), caller.id.value).Some? ==>
              FindUser(db.users, caller.id.value) == Some(r.value)
  {
    if EmailTaken(db.users, data.email, caller.id) {
      return Err(InternalServerError);
    }
    var updated := caller.(firstname := data.firstname, lastname := data.lastname, email := data.email);
    if updated.id.Some? && FindUser(db.users, updated.id.value).Some? {
      SaveUserFinds(db.users, updated);
    }
    db.users := SaveUser(db.users, updated);
    r := Ok(updated);
  }
}
