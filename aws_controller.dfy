/**
 * The image routes: file names of ad images, the object URLs in the bucket, and the list of
 * image names kept on each ad. Request signing is a parameter (`sign`): it yields the signed
 * URL of an object URL, or nothing when signing fails.
 */
module AwsController {
  import opened Wrappers
  import opened Records
  import opened Database

  /** `adImage`'s change to an ad's image list: a missing list becomes `[name]`, otherwise `name` is appended. */
  function AppendImage(images: Option<seq<string>>, name: string): (r: seq<string>)
    ensures |r| >= 1 && r[|r| - 1] == name
    ensures images.None? ==> r == [name]
    ensures images.Some? ==> |r| == |images.value| + 1 && r[..|images.value|] == images.value
  {
    match images
    case None => [name]
    case Some(names) => names + [name]
  }

  /**
   * `adImage(_:to:)`: the ad with that id gets `name` at the end of its image list and is
   * saved; an unknown id fails with 500 and no ad changes.
   */
  method AddImage(db: Store, name: string, adID: Uuid) returns (r: Result<(), HttpError>)
    modifies db`ads
    ensures r.Err? <==> FindAd(old(db.ads), adID).None?
    ensures r.Err? ==> r.error == InternalServerError && db.ads == old(db.ads)
    ensures r.Ok? ==>
              var ad := old(db.ads)[FindAd(old(db.ads), adID).value];
              db.ads == SaveAd(old(db.ads), ad.(images := Some(AppendImage(ad.images, name))))
  {
    var found := FindAd(db.ads, adID);
    if found.None? {
      return Err(InternalServerError);
    }
    var ad := db.ads[found.value];
    db.ads := SaveAd(db.ads, ad.(images := Some(AppendImage(ad.images, name))));
    r := Ok(());
  }

  /** The URL of a file in the bucket: the base URL, then the image folder, then the file name. */
  function ObjectUrl(base: string, imagePath: string, file: string): (r: Url)
    ensures r.base == base && |r.components| == 2
    ensures r.components[0] == imagePath && r.components[1] == file
  {
    Url(base, [imagePath, file])
  }

  /**
   * The loop of `getImageUrlsHandler` over an ad's image names: one signed GET URL per name,
   * in the same order. `base` is the configured base URL, None when it does not parse; it is
   * parsed inside the loop, so an ad without images gets an empty list even then.
   */
  method SignedUrls(files: seq<string>, base: Option<string>, imagePath: string, sign: Url -> Option<string>)
    returns (r: Result<seq<string>, HttpError>)
    ensures r.Ok? <==> files == [] || (base.Some? && forall f :: f in files ==> sign(ObjectUrl(base.value, imagePath, f)).Some?)
    ensures r.Err? ==> r.error == InternalServerError
    ensures r.Ok? ==> |r.value| == |files|
    ensures r.Ok? ==> forall k :: 0 <= k < |files| ==> Some(r.value[k]) == sign(ObjectUrl(base.value, imagePath, files[k]))
  {
    var urls: seq<string> := [];
    var i := 0;
    while i < |files|
      invariant 0 <= i <= |files|
      invariant i > 0 ==> base.Some?
      invariant |urls| == i
      invariant forall k :: 0 <= k < i ==> Some(urls[k]) == sign(ObjectUrl(base.value, imagePath, files[k]))
    {
      if base.None? {
        return Err(InternalServerError);
      }
      var signed := sign(ObjectUrl(base.value, imagePath, files[i]));
      if signed.None? {
        return Err(InternalServerError);
      }
      urls := urls + [signed.value];
      i := i + 1;
    }
    r := Ok(urls);
  }

  /**
   * `getImageUrlsHandler`: an unknown ad fails with 404 and an ad whose image list is missing
   * with 500; otherwise the signed URLs of its images.
   */
  method ImageUrls(ads: seq<Ad>, adID: Uuid, base: Option<string>, imagePath: string, sign: Url -> Option<string>)
    returns (r: Result<seq<string>, HttpError>)
    ensures FindAd(ads, adID).None? ==> r == Err(NotFound)
    ensures FindAd(ads, adID).Some? && ads[FindAd(ads, adID).value].images.None? ==> r == Err(InternalServerError)
    ensures FindAd(ads, adID).Some? && ads[FindAd(ads, adID).value].images.Some? ==>
              var files := ads[FindAd(ads, adID).value].images.value;
              (r.Ok? <==> files == [] || (base.Some? && forall f :: f in files ==> sign(ObjectUrl(base.value, imagePath, f)).Some?)) &&
              (r.Ok? ==> |r.value| == |files| &&
                         forall k :: 0 <= k < |files| ==> Some(r.value[k]) == sign(ObjectUrl(base.value, imagePath, files[k])))
  {
    var found := FindAd(ads, adID);
    if found.None? {
      return Err(NotFound);
    }
    var ad := ads[found.value];
    if ad.images.None? {
      return Err(InternalServerError);
    }
    r := SignedUrls(ad.images.value, base, imagePath, sign);
  }

  /** The name of an uploaded image: a fresh UUID string followed by ".png". */
  function UploadFilename(uuid: string): (r: string)
    ensures |r| == |uuid| + 4 && r[..|uuid|] == uuid
    ensures r[|r| - 4..] == ".png"
  {
    uuid + ".png"
  }

  /**
   * `preparePresignedUrl(request:ad:)`: the signed PUT URL for a new file `UploadFilename(uuid)`
   * in the image folder; a base URL that does not parse or a failed signature fails with 500
   * before any ad changes. The file name is then added to the ad, but that update is not
   * awaited, so the URL is returned even when the ad does not exist (and then no ad changes).
   */
  method PreparePresignedUrl(db: Store, adID: Uuid, uuid: string, base: Option<string>, imagePath: string,
                             sign: Url -> Option<string>) returns (r: Result<string, HttpError>)
    modifies db`ads
    ensures r.Ok? <==> base.Some? && sign(ObjectUrl(base.value, imagePath, UploadFilename(uuid))).Some?
    ensures r.Err? ==> r.error == InternalServerError && db.ads == old(db.ads)
    ensures r.Ok? ==> r.value == sign(ObjectUrl(base.value, imagePath, UploadFilename(uuid))).value
    ensures r.Ok? && FindAd(old(db.ads), adID).None? ==> db.ads == old(db.ads)
    ensures r.Ok? && FindAd(old(db.ads), adID).Some? ==>
              var ad := old(db.ads)[FindAd(old(db.ads), adID).value];
              db.ads == SaveAd(old(db.ads), ad.(images := Some(AppendImage(ad.images, UploadFilename(uuid)))))
  {
    var filename := UploadFilename(uuid);
    if base.None? {
      return Err(InternalServerError);
    }
    var signed := sign(ObjectUrl(base.value, imagePath, filename));
    if signed.None? {
      return Err(InternalServerError);
    }
    var _ := AddImage(db, filename, adID);
    r := Ok(signed.value);
  }

  /**
   * `postImageHandler`, up to the upload itself: a request without an ad id fails with 500
   * before anything else happens; otherwise the image goes to the URL `PreparePresignedUrl` returns.
   */
  method PostImage(db: Store, adID: Option<Uuid>, uuid: string, base: Option<string>, imagePath: string,
                   sign: Url -> Option<string>) returns (r: Result<string, HttpError>)
    modifies db`ads
    ensures adID.None? ==> r == Err(InternalServerError) && db.ads == old(db.ads)
    ensures adID.Some? ==> (r.Ok? <==> base.Some? && sign(ObjectUrl(base.value, imagePath, UploadFilename(uuid))).Some?)
    ensures r.Err? ==> r.error == InternalServerError && db.ads == old(db.ads)
    ensures r.Ok? ==> r.value == sign(ObjectUrl(base.value, imagePath, UploadFilename(uuid))).value
  {
    if adID.None? {
      return Err(InternalServerError);
    }
    r := PreparePresignedUrl(db, adID.value, uuid, base, imagePath, sign);
  }
}
