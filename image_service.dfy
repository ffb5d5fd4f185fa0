/**
 * The image persistence service: records profile and background uploads on
 * the user's document and in the image collection, removes image records,
 * and looks them up by background id or by owner.
 */
module ImageService {
  import opened Wrappers
  import opened Documents

  /** `ImageModel.create(...)` for an upload of kind `kind`; only a background keeps its bg fields. */
  function NewImage(id: string, userId: string, imgId: string, imgVersion: string, kind: string): (img: Image)
    ensures img.id == id && img.userId == userId && img.imgId == imgId && img.imgVersion == imgVersion
    ensures kind == "background" ==> img.bgImageId == imgId && img.bgImageVersion == imgVersion
    ensures kind != "background" ==> img.bgImageId == "" && img.bgImageVersion == ""
  {
    Image(id, userId,
          if kind == "background" then imgVersion else "",
          if kind == "background" then imgId else "",
          imgVersion, imgId)
  }

  /** addImage: a new image record; `id` is the `_id` the store assigns. */
  method AddImage(db: Db, id: string, userId: string, imgId: string, imgVersion: string, kind: string)
    modifies db
    ensures db.images == old(db.images) + [NewImage(id, userId, imgId, imgVersion, kind)]
    ensures db.posts == old(db.posts) && db.users == old(db.users) && db.comments == old(db.comments)
    ensures db.reactions == old(db.reactions) && db.notifications == old(db.notifications)
  {
    db.images := db.images + [NewImage(id, userId, imgId, imgVersion, kind)];
  }

  /** addUserProfileImageToDB: `$set` the user's profilePicture, then record a 'profile' image. */
  method AddUserProfileImageToDB(db: Db, id: string, userId: string, url: string, imgId: string, imgVersion: string)
    modifies db
    ensures db.users == UpdateById(old(db.users), userId, SetOp(map["profilePicture" := Str(url)]))
    ensures db.images == old(db.images) + [NewImage(id, userId, imgId, imgVersion, "profile")]
    ensures db.posts == old(db.posts) && db.comments == old(db.comments)
    ensures db.reactions == old(db.reactions) && db.notifications == old(db.notifications)
  {
    db.users := UpdateById(db.users, userId, SetOp(map["profilePicture" := Str(url)]));
    AddImage(db, id, userId, imgId, imgVersion, "profile");
  }

  /** addBackgroundImageToDB: `$set` the user's bgImageId and bgImageVersion, then record a 'background' image. */
  method AddBackgroundImageToDB(db: Db, id: string, userId: string, imgId: string, imgVersion: string)
    modifies db
    ensures db.users == UpdateById(old(db.users), userId,
                                   SetOp(map["bgImageId" := Str(imgId), "bgImageVersion" := Str(imgVersion)]))
    ensures db.images == old(db.images) + [NewImage(id, userId, imgId, imgVersion, "background")]
    ensures db.posts == old(db.posts) && db.comments == old(db.comments)
    ensures db.reactions == old(db.reactions) && db.notifications == old(db.notifications)
  {
    db.users := UpdateById(db.users, userId,
                           SetOp(map["bgImageId" := Str(imgId), "bgImageVersion" := Str(imgVersion)]));
    AddImage(db, id, userId, imgId, imgVersion, "background");
  }

  /** The position of the first record whose field `pick` equals `v`. */
  function FirstImage(imgs: seq<Image>, pick: Image -> string, v: string): (r: Option<nat>)
    ensures r.Some? ==> r.value < |imgs| && pick(imgs[r.value]) == v
    ensures r.Some? ==> forall j :: 0 <= j < r.value ==> pick(imgs[j]) != v
    ensures r.None? <==> forall j :: 0 <= j < |imgs| ==> pick(imgs[j]) != v
  {
    if imgs == [] then None
    else if pick(imgs[0]) == v then Some(0)
    else
      var r := FirstImage(imgs[1..], pick, v);
      assert forall j :: 1 <= j < |imgs| ==> imgs[j] == imgs[1..][j - 1];
      if r.Some? then Some(r.value + 1) else None
  }

  function ImageId(img: Image): string { img.id }

  function BackgroundId(img: Image): string { img.bgImageId }

  /** `deleteOne({ _id: imageId })`: the first record with that id goes. */
  function DeleteImage(imgs: seq<Image>, imageId: string): (r: seq<Image>)
    ensures (forall j :: 0 <= j < |imgs| ==> imgs[j].id != imageId) ==> r == imgs
    ensures (exists j :: 0 <= j < |imgs| && imgs[j].id == imageId) ==>
      |r| == |imgs| - 1
      && exists i :: 0 <= i < |imgs| && imgs[i].id == imageId && r == imgs[..i] + imgs[i + 1..]
  {
    match FirstImage(imgs, ImageId, imageId)
    case Some(i) => imgs[..i] + imgs[i + 1..]
    case None => imgs
  }

  /** removeImageFromDB. */
  method RemoveImageFromDB(db: Db, imageId: string)
    modifies db
    ensures db.images == DeleteImage(old(db.images), imageId)
    ensures db.posts == old(db.posts) && db.users == old(db.users) && db.comments == old(db.comments)
    ensures db.reactions == old(db.reactions) && db.notifications == old(db.notifications)
  {
    db.images := DeleteImage(db.images, imageId);
  }

  /** getImageByBackgroundId: `findOne({ bgImageId })`, `None` standing for null. */
  function GetImageByBackgroundId(imgs: seq<Image>, bgImageId: string): (r: Option<Image>)
    ensures r.Some? ==> exists i :: 0 <= i < |imgs| && imgs[i] == r.value && r.value.bgImageId == bgImageId
                                    && forall j :: 0 <= j < i ==> imgs[j].bgImageId != bgImageId
    ensures r.None? <==> forall j :: 0 <= j < |imgs| ==> imgs[j].bgImageId != bgImageId
  {
    match FirstImage(imgs, BackgroundId, bgImageId)
    case Some(i) => Some(imgs[i])
    case None => None
  }

  /** getImages: the user's image records in collection order. */
  function GetImages(imgs: seq<Image>, userId: string): (r: seq<Image>)
    ensures |r| <= |imgs|
    ensures forall x :: x in r <==> x in imgs && x.userId == userId
  {
    if imgs == [] then []
    else
      assert forall x :: x in imgs <==> x == imgs[0] || x in imgs[1..] by {
        assert imgs == [imgs[0]] + imgs[1..];
      }
      (if imgs[0].userId == userId then [imgs[0]] else []) + GetImages(imgs[1..], userId)
  }

  // ---------------------------------------------------------------------------
  // Properties

  /**
   * A background upload is found again by its id, unless an earlier record
   * already carries that background id.
   */
  lemma BackgroundUploadIsFound(imgs: seq<Image>, id: string, userId: string, imgId: string, imgVersion: string)
    requires forall x :: x in imgs ==> x.bgImageId != imgId
    ensures GetImageByBackgroundId(imgs + [NewImage(id, userId, imgId, imgVersion, "background")], imgId)
            == Some(NewImage(id, userId, imgId, imgVersion, "background"))
  {
    var s := imgs + [NewImage(id, userId, imgId, imgVersion, "background")];
    assert s[|imgs|].bgImageId == imgId;
    forall j | 0 <= j < |imgs| ensures s[j].bgImageId != imgId {
      assert s[j] == imgs[j] && imgs[j] in imgs;
    }
  }

  /**
   * A profile upload stores empty background fields, so a lookup by the
   * empty background id can return a profile image rather than null.
   */
  lemma EmptyBackgroundIdFindsProfileImage(id: string, userId: string, imgId: string, imgVersion: string)
    ensures GetImageByBackgroundId([NewImage(id, userId, imgId, imgVersion, "profile")], "")
            == Some(NewImage(id, userId, imgId, imgVersion, "profile"))
  {
  }

  /** Every upload shows up among its owner's images, and only there. */
  lemma UploadListedForOwner(imgs: seq<Image>, id: string, userId: string, other: string,
                             imgId: string, imgVersion: string, kind: string)
    requires other != userId
    ensures NewImage(id, userId, imgId, imgVersion, kind) in GetImages(imgs + [NewImage(id, userId, imgId, imgVersion, kind)], userId)
    ensures GetImages(imgs + [NewImage(id, userId, imgId, imgVersion, kind)], other) == GetImages(imgs, other)
  {
    var img := NewImage(id, userId, imgId, imgVersion, kind);
    GetImagesAppend(imgs, img, other);
    assert img in imgs + [img];
  }

  lemma {:induction false} GetImagesAppend(imgs: seq<Image>, img: Image, userId: string)
    ensures GetImages(imgs + [img], userId) == GetImages(imgs, userId) + (if img.userId == userId then [img] else [])
    decreases |imgs|
  {
    if imgs == [] {
      assert [img][1..] == [];
    } else {
      var s := imgs + [img];
      assert s[0] == imgs[0] && s[1..] == imgs[1..] + [img];
      GetImagesAppend(imgs[1..], img, userId);
      calc {
        GetImages(s, userId);
        (if imgs[0].userId == userId then [imgs[0]] else []) + GetImages(imgs[1..] + [img], userId);
        (if imgs[0].userId == userId then [imgs[0]] else []) + GetImages(imgs[1..], userId)
          + (if img.userId == userId then [img] else []);
      }
    }
  }

  /** Removing an image whose id is unique leaves no record with that id. */
  lemma RemoveUniqueImage(imgs: seq<Image>, imageId: string)
    requires forall i, j :: 0 <= i < j < |imgs| && imgs[i].id == imageId ==> imgs[j].id != imageId
    ensures forall x :: x in DeleteImage(imgs, imageId) ==> x.id != imageId
  {
    var r := DeleteImage(imgs, imageId);
    match FirstImage(imgs, ImageId, imageId)
    case None =>
      assert forall j :: 0 <= j < |imgs| ==> ImageId(imgs[j]) != imageId;
    case Some(i) =>
      assert r == imgs[..i] + imgs[i + 1..];
      forall k | 0 <= k < |r| ensures r[k].id != imageId {
        if k < i {
          assert r[k] == imgs[k] && ImageId(imgs[k]) != imageId;
        } else {
          assert r[k] == imgs[k + 1];
        }
      }
  }
}
