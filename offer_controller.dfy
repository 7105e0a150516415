/** The bulk creation of offers for an ad. */
module OfferController {
  import opened Wrappers
  import opened Records
  import opened Database
  import opened Middlewares

  /** One offer row per string, in order, all for ad `adID`; duplicate and empty strings included. */
  function OffersFor(strings: seq<string>, adID: Uuid): (r: seq<Tag>)
    ensures |r| == |strings|
    ensures forall k :: 0 <= k < |strings| ==> r[k] == Tag(strings[k], adID)
  {
    if strings == [] then [] else [Tag(strings[0], adID)] + OffersFor(strings[1..], adID)
  }

  /**
   * `createHandler`: an unknown ad fails with 404; a caller without an id fails with 500; only
   * the ad's owner may add offers (no exception for administrators, anyone else gets 403). The
   * owner's strings each become an offer of the ad, and the new offers are returned.
   */
  method CreateOffers(db: Store, caller: User, data: DemandOfferData) returns (r: Result<seq<Tag>, HttpError>)
    modifies db`offers
    ensures OwnerOf(db.ads, data.adID).None? ==> r == Err(NotFound)
    ensures OwnerOf(db.ads, data.adID).Some? && caller.id.None? ==> r == Err(InternalServerError)
    ensures OwnerOf(db.ads, data.adID).Some? && caller.id.Some? && caller.id.value != OwnerOf(db.ads, data.adID).value ==>
              r == Err(Forbidden)
    ensures r.Ok? <==> OwnerOf(db.ads, data.adID).Some? && caller.id == Some(OwnerOf(db.ads, data.adID).value)
    ensures r.Err? ==> db.offers == old(db.offers)
    ensures r.Ok? ==> r.value == OffersFor(data.strings, data.adID) && db.offers == old(db.offers) + r.value
  {
    var owner := OwnerOf(db.ads, data.adID);
    if owner.None? {
      return Err(NotFound);
    }
    if caller.id.None? {
      return Err(InternalServerError);
    }
    if caller.id.value != owner.value {
      return Err(Forbidden);
    }
    var created := OffersFor(data.strings, data.adID);
    db.offers := db.offers + created;
    r := Ok(created);
  }
}
