/** The two request gates and the authorisation tests the handlers share. */
module Middlewares {
  import opened Wrappers
  import opened Records
  import opened Database

  /**
   * `StandardUserMiddleware.respond`: `caller` is the authenticated user of the request, if any,
   * and `next` the response the rest of the chain produces for the unchanged request.
   */
  function StandardUserGate<R>(caller: Option<User>, next: R): (r: Result<R, HttpError>)
    ensures caller.None? ==> r == Err(Unauthorized)
    ensures caller.Some? ==> (r.Ok? <==> caller.value.userType == Admin || caller.value.userType == Standard)
    ensures caller.Some? && r.Err? ==> r.error == Forbidden
    ensures r.Ok? ==> r.value == next
  {
    if caller.None? then Err(Unauthorized)
    else if caller.value.userType == Standard || caller.value.userType == Admin then Ok(next)
    else Err(Forbidden)
  }

  /** The owner of ad `adID` when the ad table has it. */
  function OwnerOf(ads: seq<Ad>, adID: Uuid): (r: Option<Uuid>)
    ensures r.Some? <==> exists a :: a in ads && a.id == adID
    ensures r.Some? ==> exists a :: a in ads && a.id == adID && a.userID == r.value
  {
    match FindAd(ads, adID)
    case None => None
    case Some(i) => Some(ads[i].userID)
  }

  /**
   * `AdUserMiddleware.respond`: no authenticated user fails with 401 before the ad is looked
   * up; an unknown ad fails with 404; a caller without an id fails with 500; only the ad's
   * owner is forwarded, with no exception for administrators.
   */
  function AdUserGate<R>(caller: Option<User>, ads: seq<Ad>, adID: Uuid, next: R): (r: Result<R, HttpError>)
    ensures caller.None? ==> r == Err(Unauthorized)
    ensures caller.Some? && OwnerOf(ads, adID).None? ==> r == Err(NotFound)
    ensures r.Ok? <==> caller.Some? && OwnerOf(ads, adID).Some? && caller.value.id == Some(OwnerOf(ads, adID).value)
    ensures r.Ok? ==> r.value == next
    ensures caller.Some? && caller.value.id.Some? && OwnerOf(ads, adID).Some? && r.Err? ==> r.error == Forbidden
  {
    if caller.None? then Err(Unauthorized)
    else match OwnerOf(ads, adID)
      case None => Err(NotFound)
      case Some(owner) =>
        if caller.value.id.None? then Err(InternalServerError)
        else if caller.value.id.value == owner then Ok(next)
        else Err(Forbidden)
  }

  /**
   * The "administrator, or else the owner" test of the delete handlers:
   * `caller.userType == .admin || caller.requireID() == owner`. An administrator passes without
   * `requireID` being evaluated; for anyone else a missing id fails with 500.
   */
  function AdminOrOwner(caller: User, owner: Uuid): (r: Result<bool, HttpError>)
    ensures caller.userType == Admin ==> r == Ok(true)
    ensures caller.userType != Admin && caller.id.None? ==> r == Err(InternalServerError)
    ensures r == Ok(true) <==> caller.userType == Admin || caller.id == Some(owner)
    ensures r.Err? ==> r.error == InternalServerError
  {
    if caller.userType == Admin then Ok(true)
    else if caller.id.None? then Err(InternalServerError)
    else Ok(caller.id.value == owner)
  }
}
