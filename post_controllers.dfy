/**
 * The post write routes: create (plain, with an image, with a video),
 * update (plain, with an image, with a video) and delete.  Each route
 * writes the cache itself, tells the connected clients over the socket and
 * leaves the document-store write to a queued job.
 */
module PostControllers {
  import opened Wrappers
  import opened Numbers
  import opened Records
  import SortedSet
  import opened CacheStore
  import opened PostCache
  import opened Effects

  /** The request body fields the post routes read; `None` for a field the client left out. */
  datatype PostBody = PostBody(
    post: Val,
    bgColor: Val,
    privacy: Val,
    gifUrl: Val,
    profilePicture: Val,
    feelings: Val,
    imgId: Val,
    imgVersion: Val,
    videoId: Val,
    videoVersion: Val,
    image: Val,
    video: Val)

  /** A decimal numeral as `Number.prototype.toString` prints a non-negative integer. */
  type Numeral = s: string | Canonical(s) witness "0"

  /**
   * What the media host answered for an upload: the public id, the version
   * number (held as its decimal numeral), and a message on failure.
   */
  datatype Upload = Upload(publicId: Val, version: Numeral, message: string)

  /** `result?.public_id` is truthy: the upload went through. */
  predicate Uploaded(u: Upload) {
    Truthy(u.publicId)
  }

  /** `result.version.toString()`. */
  function VersionString(u: Upload): string {
    u.version
  }

  /** The 'addImageToDB' job: the author's id with the upload's public id and version. */
  function ImageJobOf(user: CurrentUser, upload: Upload): JobData {
    ImageJob(user.userId, Template(upload.publicId), VersionString(upload))
  }

  // ---------------------------------------------------------------------------
  // Create

  /** The four media fields of a new post. */
  datatype MediaFields = MediaFields(imgVersion: string, imgId: string, videoId: string, videoVersion: string)

  const NO_MEDIA: MediaFields := MediaFields("", "", "", "")

  function ImageMedia(u: Upload): MediaFields {
    MediaFields(VersionString(u), Template(u.publicId), "", "")
  }

  function VideoMedia(u: Upload): MediaFields {
    MediaFields("", "", Template(u.publicId), VersionString(u))
  }

  /** The `createdPost` object: the author from the session, the body as sent, no comments, all six counts at zero. */
  function NewPost(id: string, user: CurrentUser, body: PostBody, m: MediaFields, now: int): Post {
    Post(id, user.userId, user.username, user.email, user.avatarColor, body.profilePicture, body.post,
         body.bgColor, body.feelings, body.privacy, body.gifUrl, 0,
         Some(m.imgVersion), Some(m.imgId), Some(m.videoId), Some(m.videoVersion), ZERO_COUNTS, now)
  }

  /** The cache accepts the save: it is reachable and the user's uId parses to a score. */
  predicate SaveAccepted(up: bool, user: CurrentUser) {
    up && ParseInt(user.uId).Some?
  }

  /**
   * The part the three create routes share: emit 'add post' to everyone,
   * await the cache save, then queue 'addPostToDB' keyed by the author.
   * The event goes out before the save, so it is sent even when the save fails.
   */
  method Publish(c: Store, out: Outbox, user: CurrentUser, p: Post) returns (r: Outcome)
    requires c.Valid()
    modifies c, out
    ensures c.Valid() && c.up == old(c.up)
    ensures out.emits == old(out.emits) + [Emit("add post", CreatedPost(p), Everyone)]
    ensures c.lists == old(c.lists) && c.collections == old(c.collections)
    ensures !SaveAccepted(old(c.up), user) ==>
      r == Fail(ServerError(SERVER_ERROR_MESSAGE))
      && c.hashes == old(c.hashes) && c.sorted == old(c.sorted) && out.jobs == old(out.jobs)
    ensures SaveAccepted(old(c.up), user) ==>
      r == Pass
      && c.hashes == SavedHashes(old(c.hashes), p.id, user.userId, p)
      && c.sorted == old(c.sorted)[POST_SET := SortedSet.Add(SortedAt(old(c.sorted), POST_SET), p.id, ParseInt(user.uId).value)]
      && out.jobs == old(out.jobs) + [Job("addPostToDB", NewPostJob(user.userId, p), JOB_OPTIONS)]
  {
    out.Send(Emit("add post", CreatedPost(p), Everyone));
    r := SavePostToCache(c, p.id, user.userId, user.uId, p);
    if r.Fail? {
      return;
    }
    out.AddJob("addPostToDB", NewPostJob(user.userId, p));
  }

  /** Create.post: a post without media; 201 'Post created successfully'. */
  method CreatePost(c: Store, out: Outbox, user: CurrentUser, body: PostBody, postId: string, now: int)
    returns (r: Result<Response>)
    requires c.Valid()
    modifies c, out
    ensures c.Valid() && c.up == old(c.up)
    ensures c.lists == old(c.lists) && c.collections == old(c.collections)
    ensures var p := NewPost(postId, user, body, NO_MEDIA, now);
      out.emits == old(out.emits) + [Emit("add post", CreatedPost(p), Everyone)]
      && (!SaveAccepted(old(c.up), user) ==>
            r == Err(ServerError(SERVER_ERROR_MESSAGE)) && c.hashes == old(c.hashes) && c.sorted == old(c.sorted)
            && out.jobs == old(out.jobs))
      && (SaveAccepted(old(c.up), user) ==>
            r == Ok(Response(CREATED, "Post created successfully"))
            && c.hashes == SavedHashes(old(c.hashes), postId, user.userId, p)
            && c.sorted == old(c.sorted)[POST_SET := SortedSet.Add(SortedAt(old(c.sorted), POST_SET), postId, ParseInt(user.uId).value)]
            && out.jobs == old(out.jobs) + [Job("addPostToDB", NewPostJob(user.userId, p), JOB_OPTIONS)])
  {
    var p := NewPost(postId, user, body, NO_MEDIA, now);
    var saved := Publish(c, out, user, p);
    if saved.Fail? {
      return Err(saved.error);
    }
    r := Ok(Response(CREATED, "Post created successfully"));
  }

  /**
   * Create.postWithImage: a failed upload ends the request with a bad
   * request and nothing written; otherwise the post carries the upload's id
   * and version, and an 'addImageToDB' job follows the post job.
   */
  method CreatePostWithImage(c: Store, out: Outbox, user: CurrentUser, body: PostBody, upload: Upload,
                             postId: string, now: int)
    returns (r: Result<Response>)
    requires c.Valid()
    modifies c, out
    ensures c.Valid() && c.up == old(c.up)
    ensures c.lists == old(c.lists) && c.collections == old(c.collections)
    ensures !Uploaded(upload) ==>
      r == Err(BadRequestError(upload.message)) && c.hashes == old(c.hashes) && c.sorted == old(c.sorted)
      && out.emits == old(out.emits) && out.jobs == old(out.jobs)
    ensures Uploaded(upload) ==>
      out.emits == old(out.emits) + [Emit("add post", CreatedPost(NewPost(postId, user, body, ImageMedia(upload), now)), Everyone)]
    ensures Uploaded(upload) && !SaveAccepted(old(c.up), user) ==>
      r == Err(ServerError(SERVER_ERROR_MESSAGE)) && c.hashes == old(c.hashes) && c.sorted == old(c.sorted)
      && out.jobs == old(out.jobs)
    ensures Uploaded(upload) && SaveAccepted(old(c.up), user) ==>
      r == Ok(Response(CREATED, "Post created with image successfully"))
      && c.hashes == SavedHashes(old(c.hashes), postId, user.userId, NewPost(postId, user, body, ImageMedia(upload), now))
      && c.sorted == old(c.sorted)[POST_SET := SortedSet.Add(SortedAt(old(c.sorted), POST_SET), postId, ParseInt(user.uId).value)]
    ensures Uploaded(upload) && SaveAccepted(old(c.up), user) ==>
      out.jobs == old(out.jobs) + [Job("addPostToDB", NewPostJob(user.userId, NewPost(postId, user, body, ImageMedia(upload), now)), JOB_OPTIONS)]
                                + [Job("addImageToDB", ImageJobOf(user, upload), JOB_OPTIONS)]
  {
    if !Uploaded(upload) {
      return Err(BadRequestError(upload.message));
    }
    var p := NewPost(postId, user, body, ImageMedia(upload), now);
    var saved := Publish(c, out, user, p);
    if saved.Fail? {
      return Err(saved.error);
    }
    out.AddJob("addImageToDB", ImageJobOf(user, upload));
    r := Ok(Response(CREATED, "Post created with image successfully"));
  }

  /** Create.postWithVideo: as with an image, with the upload in the video fields and no image job. */
  method CreatePostWithVideo(c: Store, out: Outbox, user: CurrentUser, body: PostBody, upload: Upload,
                             postId: string, now: int)
    returns (r: Result<Response>)
    requires c.Valid()
    modifies c, out
    ensures c.Valid() && c.up == old(c.up)
    ensures c.lists == old(c.lists) && c.collections == old(c.collections)
    ensures !Uploaded(upload) ==>
      r == Err(BadRequestError(upload.message)) && c.hashes == old(c.hashes) && c.sorted == old(c.sorted)
      && out.emits == old(out.emits) && out.jobs == old(out.jobs)
    ensures Uploaded(upload) ==>
      var p := NewPost(postId, user, body, VideoMedia(upload), now);
      out.emits == old(out.emits) + [Emit("add post", CreatedPost(p), Everyone)]
      && (!SaveAccepted(old(c.up), user) ==>
            r == Err(ServerError(SERVER_ERROR_MESSAGE)) && c.hashes == old(c.hashes) && c.sorted == old(c.sorted)
            && out.jobs == old(out.jobs))
      && (SaveAccepted(old(c.up), user) ==>
            r == Ok(Response(CREATED, "Post created with video successfully"))
            && c.hashes == SavedHashes(old(c.hashes), postId, user.userId, p)
            && c.sorted == old(c.sorted)[POST_SET := SortedSet.Add(SortedAt(old(c.sorted), POST_SET), postId, ParseInt(user.uId).value)]
            && out.jobs == old(out.jobs) + [Job("addPostToDB", NewPostJob(user.userId, p), JOB_OPTIONS)])
  {
    if !Uploaded(upload) {
      return Err(BadRequestError(upload.message));
    }
    var p := NewPost(postId, user, body, VideoMedia(upload), now);
    var saved := Publish(c, out, user, p);
    if saved.Fail? {
      return Err(saved.error);
    }
    r := Ok(Response(CREATED, "Post created with video successfully"));
  }

  // ---------------------------------------------------------------------------
  // Update

  /** Update.posts: the body's fields as sent, with both video fields cleared. */
  function PlainEdit(body: PostBody): PostEdit {
    PostEdit(body.post, body.bgColor, body.privacy, body.feelings, body.gifUrl, body.profilePicture,
             body.imgId, body.imgVersion, Some(""), Some(""))
  }

  /** updatePost: the body's fields as sent, with each falsy media field written as ''. */
  function KeptMediaEdit(body: PostBody): PostEdit {
    PostEdit(body.post, body.bgColor, body.privacy, body.feelings, body.gifUrl, body.profilePicture,
             Some(OrEmpty(body.imgId)), Some(OrEmpty(body.imgVersion)),
             Some(OrEmpty(body.videoId)), Some(OrEmpty(body.videoVersion)))
  }

  /**
   * addImageToExistingPost: the image fields take the upload when an image
   * was sent, the video fields when a video was sent, '' otherwise.
   */
  function UploadEdit(body: PostBody, upload: Upload): PostEdit {
    PostEdit(body.post, body.bgColor, body.privacy, body.feelings, body.gifUrl, body.profilePicture,
             Some(if Truthy(body.image) then Template(upload.publicId) else ""),
             Some(if Truthy(body.image) then VersionString(upload) else ""),
             Some(if Truthy(body.video) then Template(upload.publicId) else ""),
             Some(if Truthy(body.video) then VersionString(upload) else ""))
  }

  /** The post hash after the edit. */
  function EditedHashes(hs: map<string, Hash>, postId: string, u: PostEdit): map<string, Hash> {
    hs[PostKey(postId) := SetFields(HashAt(hs, PostKey(postId)), EditPairs(u))]
  }

  /** The updated post the cache update replies with: the edited hash, its `createdAt` parsed. */
  function EditReply(hs: map<string, Hash>, postId: string, u: PostEdit): (reply: PostReply)
    ensures reply.fields == HashAt(EditedHashes(hs, postId, u), PostKey(postId))
  {
    var h := SetFields(HashAt(hs, PostKey(postId)), EditPairs(u));
    PostReply(h, ParseJson(Template(FieldVal(h, "createdAt"))))
  }

  /** The 'update post' event of an edit, sent to every client with 'posts' as an extra argument. */
  function EditEmit(hs: map<string, Hash>, postId: string, u: PostEdit): Emit {
    Emit("update post", UpdatedPost(EditReply(hs, postId, u)), Tagged("posts"))
  }

  /** The 'updatePostInDB' job of an edit, keyed by the post id. */
  function EditJob(hs: map<string, Hash>, postId: string, u: PostEdit): Job {
    Job("updatePostInDB", UpdatePostJob(postId, EditReply(hs, postId, u)), JOB_OPTIONS)
  }

  /**
   * The part the update routes share: await the cache update, emit
   * 'update post' with the updated post to every client (passing 'posts'
   * as an extra argument), queue 'updatePostInDB' keyed by the post id.
   */
  method ApplyEdit(c: Store, out: Outbox, postId: string, u: PostEdit) returns (r: Outcome)
    requires c.Valid()
    modifies c, out
    ensures c.Valid() && c.up == old(c.up)
    ensures c.sorted == old(c.sorted) && c.lists == old(c.lists) && c.collections == old(c.collections)
    ensures !old(c.up) ==>
      r == Fail(ServerError(SERVER_ERROR_MESSAGE)) && c.hashes == old(c.hashes)
      && out.emits == old(out.emits) && out.jobs == old(out.jobs)
    ensures old(c.up) ==>
      r == Pass
      && c.hashes == EditedHashes(old(c.hashes), postId, u)
      && out.emits == old(out.emits) + [EditEmit(old(c.hashes), postId, u)]
      && out.jobs == old(out.jobs) + [EditJob(old(c.hashes), postId, u)]
  {
    var updated := UpdatePostInCache(c, postId, u);
    if updated.Err? {
      return Fail(updated.error);
    }
    out.Send(Emit("update post", UpdatedPost(updated.value), Tagged("posts")));
    out.AddJob("updatePostInDB", UpdatePostJob(postId, updated.value));
    r := Pass;
  }

  /** Update.posts: 200 'Post updated successfully' once the cache update went through. */
  method UpdatePosts(c: Store, out: Outbox, postId: string, body: PostBody) returns (r: Result<Response>)
    requires c.Valid()
    modifies c, out
    ensures c.Valid() && c.up == old(c.up) && c.sorted == old(c.sorted)
    ensures c.lists == old(c.lists) && c.collections == old(c.collections)
    ensures !old(c.up) ==>
      r == Err(ServerError(SERVER_ERROR_MESSAGE)) && c.hashes == old(c.hashes)
      && out.emits == old(out.emits) && out.jobs == old(out.jobs)
    ensures old(c.up) ==>
      r == Ok(Response(OK, "Post updated successfully")) && c.hashes == EditedHashes(old(c.hashes), postId, PlainEdit(body))
      && out.emits == old(out.emits) + [EditEmit(old(c.hashes), postId, PlainEdit(body))]
      && out.jobs == old(out.jobs) + [EditJob(old(c.hashes), postId, PlainEdit(body))]
  {
    var done := ApplyEdit(c, out, postId, PlainEdit(body));
    if done.Fail? {
      return Err(done.error);
    }
    r := Ok(Response(OK, "Post updated successfully"));
  }

  /**
   * addImageToExistingPost: a failed upload is returned as it is, with
   * nothing written; otherwise the edit is applied and, for an image, an
   * 'addImageToDB' job is queued.
   */
  method AddMediaToExistingPost(c: Store, out: Outbox, user: CurrentUser, postId: string, body: PostBody, upload: Upload)
    returns (r: Result<Upload>)
    requires c.Valid()
    modifies c, out
    ensures c.Valid() && c.up == old(c.up) && c.sorted == old(c.sorted)
    ensures c.lists == old(c.lists) && c.collections == old(c.collections)
    ensures !Uploaded(upload) ==>
      r == Ok(upload) && c.hashes == old(c.hashes) && out.emits == old(out.emits) && out.jobs == old(out.jobs)
    ensures Uploaded(upload) && !old(c.up) ==>
      r == Err(ServerError(SERVER_ERROR_MESSAGE)) && c.hashes == old(c.hashes)
      && out.emits == old(out.emits) && out.jobs == old(out.jobs)
    ensures Uploaded(upload) && old(c.up) ==>
      r == Ok(upload) && c.hashes == EditedHashes(old(c.hashes), postId, UploadEdit(body, upload))
      && out.emits == old(out.emits) + [EditEmit(old(c.hashes), postId, UploadEdit(body, upload))]
      && out.jobs == old(out.jobs) + [EditJob(old(c.hashes), postId, UploadEdit(body, upload))]
                     + (if Truthy(body.image) then [Job("addImageToDB", ImageJobOf(user, upload), JOB_OPTIONS)] else [])
  {
    if !Uploaded(upload) {
      return Ok(upload);
    }
    var done := ApplyEdit(c, out, postId, UploadEdit(body, upload));
    if done.Fail? {
      return Err(done.error);
    }
    if Truthy(body.image) {
      out.AddJob("addImageToDB", ImageJobOf(user, upload));
    }
    r := Ok(upload);
  }

  /**
   * Update.postWithImage and Update.postWithVideo.  When the body already
   * names its media (both `kept` fields truthy) the edit runs without being
   * awaited: its failure does not reach the response, which is 200 either way.
   * Otherwise the media is uploaded and the edit awaited; a failed upload is
   * a bad request.
   */
  method UpdatePostWithMedia(c: Store, out: Outbox, user: CurrentUser, postId: string, body: PostBody,
                             upload: Upload, kind: Media)
    returns (r: Result<Response>)
    requires c.Valid()
    modifies c, out
    ensures c.Valid() && c.up == old(c.up) && c.sorted == old(c.sorted)
    ensures c.lists == old(c.lists) && c.collections == old(c.collections)
    ensures KeepsMedia(body, kind) ==>
      r == Ok(Response(OK, UpdatedMessage(kind)))
      && (old(c.up) ==>
            c.hashes == EditedHashes(old(c.hashes), postId, KeptMediaEdit(body))
            && out.emits == old(out.emits) + [EditEmit(old(c.hashes), postId, KeptMediaEdit(body))]
            && out.jobs == old(out.jobs) + [EditJob(old(c.hashes), postId, KeptMediaEdit(body))])
      && (!old(c.up) ==> c.hashes == old(c.hashes) && out.emits == old(out.emits) && out.jobs == old(out.jobs))
    ensures !KeepsMedia(body, kind) && !Uploaded(upload) ==>
      r == Err(BadRequestError(upload.message)) && c.hashes == old(c.hashes)
      && out.emits == old(out.emits) && out.jobs == old(out.jobs)
    ensures !KeepsMedia(body, kind) && Uploaded(upload) ==>
      (!old(c.up) ==>
         r == Err(ServerError(SERVER_ERROR_MESSAGE)) && c.hashes == old(c.hashes)
         && out.emits == old(out.emits) && out.jobs == old(out.jobs))
      && (old(c.up) ==>
            r == Ok(Response(OK, UpdatedMessage(kind)))
            && c.hashes == EditedHashes(old(c.hashes), postId, UploadEdit(body, upload))
            && out.emits == old(out.emits) + [EditEmit(old(c.hashes), postId, UploadEdit(body, upload))]
            && out.jobs == old(out.jobs) + [EditJob(old(c.hashes), postId, UploadEdit(body, upload))]
                           + (if Truthy(body.image) then [Job("addImageToDB", ImageJobOf(user, upload), JOB_OPTIONS)] else []))
  {
    if KeepsMedia(body, kind) {
      var ignored := ApplyEdit(c, out, postId, KeptMediaEdit(body));
    } else {
      var result := AddMediaToExistingPost(c, out, user, postId, body, upload);
      if result.Err? {
        return Err(result.error);
      }
      if !Uploaded(result.value) {
        return Err(BadRequestError(result.value.message));
      }
    }
    r := Ok(Response(OK, UpdatedMessage(kind)));
  }

  /** `imgId && imgVersion` for the image route, `videoId && videoVersion` for the video route. */
  predicate KeepsMedia(body: PostBody, kind: Media) {
    match kind
    case Image => Truthy(body.imgId) && Truthy(body.imgVersion)
    case Video => Truthy(body.videoId) && Truthy(body.videoVersion)
  }

  function UpdatedMessage(kind: Media): string {
    match kind
    case Image => "Post with image updated successfully"
    case Video => "Post with video updated successfully"
  }

  // ---------------------------------------------------------------------------
  // Delete

  /**
   * Delete.post: emit 'delete post' with the id, await the cache delete,
   * queue 'deletePostFromDB' with the post and author ids; 200 'Post deleted
   * successfully'.
   */
  method DeletePost(c: Store, out: Outbox, user: CurrentUser, postId: string) returns (r: Result<Response>)
    requires c.Valid()
    modifies c, out
    ensures c.Valid()
    ensures c.lists == (if old(c.up) then old(c.lists) - {PostKey(postId)} else old(c.lists))
    ensures c.collections == (if old(c.up) then old(c.collections) - {PostKey(postId)} else old(c.collections))
    ensures out.emits == old(out.emits) + [Emit("delete post", DeletedPost(postId), Everyone)]
    ensures !old(c.up) ==>
      r == Err(ServerError(SERVER_ERROR_MESSAGE)) && c.hashes == old(c.hashes) && c.sorted == old(c.sorted)
      && out.jobs == old(out.jobs)
    ensures old(c.up) ==>
      r == Ok(Response(OK, "Post deleted successfully"))
      && c.hashes == DeletedHashes(old(c.hashes), postId, user.userId)
      && c.sorted == old(c.sorted)[POST_SET := SortedSet.Remove(SortedAt(old(c.sorted), POST_SET), postId)] - {PostKey(postId)}
      && out.jobs == old(out.jobs) + [Job("deletePostFromDB", KeyPairJob(postId, user.userId), JOB_OPTIONS)]
  {
    out.Send(Emit("delete post", DeletedPost(postId), Everyone));
    var deleted := DeletePostFromCache(c, postId, user.userId);
    if deleted.Fail? {
      return Err(deleted.error);
    }
    out.AddJob("deletePostFromDB", KeyPairJob(postId, user.userId));
    r := Ok(Response(OK, "Post deleted successfully"));
  }

  // ---------------------------------------------------------------------------
  // Properties

  /**
   * A created post reads back from the cache with no comments, all six
   * reaction counts at zero and the creation time it was given.
   */
  lemma CreatedPostReadsBack(hs: map<string, Hash>, postId: string, user: CurrentUser, body: PostBody,
                             m: MediaFields, now: int)
    ensures var v := ReadPost(HashAt(SavedHashes(hs, postId, user.userId, NewPost(postId, user, body, m, now)), PostKey(postId)));
      v.commentsCount() == JNum(0) && v.reactions() == JCounts(ZERO_COUNTS) && v.createdAt() == JNum(now)
  {
    var p := NewPost(postId, user, body, m, now);
    assert ZERO_COUNTS.Keys == {"like", "love", "happy", "sad", "wow", "angry"};
    SavedPostReadsBack(hs, postId, user.userId, p);
  }

  /** The media fields of a saved post as the media filters read them. */
  lemma SavedMediaFields(h: Hash, p: Post)
    ensures FieldVal(SetFields(h, PostPairs(p)), "imgVersion") == Some(Template(p.imgVersion))
    ensures FieldVal(SetFields(h, PostPairs(p)), "imgId") == Some(Template(p.imgId))
    ensures FieldVal(SetFields(h, PostPairs(p)), "videoId") == Some(Template(p.videoId))
    ensures FieldVal(SetFields(h, PostPairs(p)), "videoVersion") == Some(Template(p.videoVersion))
  {
    SavedFields(h, p);
    var vs := PostValues(p);
    assert POST_FIELDS[13] == "imgVersion" && vs[13] == Template(p.imgVersion);
    assert POST_FIELDS[14] == "imgId" && vs[14] == Template(p.imgId);
    assert POST_FIELDS[15] == "videoId" && vs[15] == Template(p.videoId);
    assert POST_FIELDS[16] == "videoVersion" && vs[16] == Template(p.videoVersion);
  }

  /**
   * A post created with an uploaded image is listed by the image getter and
   * not by the video getter; one created with an uploaded video the other
   * way round.
   */
  lemma CreatedMediaIsListed(hs: map<string, Hash>, postId: string, user: CurrentUser, body: PostBody,
                             upload: Upload, now: int)
    requires Uploaded(upload)
    ensures var h := HashAt(SavedHashes(hs, postId, user.userId, NewPost(postId, user, body, ImageMedia(upload), now)), PostKey(postId));
      Shows(Image, h) && !Shows(Video, h)
    ensures var h := HashAt(SavedHashes(hs, postId, user.userId, NewPost(postId, user, body, VideoMedia(upload), now)), PostKey(postId));
      Shows(Video, h)
  {
    PostKeyNotUserKey(postId, user.userId);
    SavedMediaFields(HashAt(hs, PostKey(postId)), NewPost(postId, user, body, ImageMedia(upload), now));
    SavedMediaFields(HashAt(hs, PostKey(postId)), NewPost(postId, user, body, VideoMedia(upload), now));
  }

  /** The media fields of an edited post as the media filters read them. */
  lemma EditedMediaFields(h: Hash, u: PostEdit)
    ensures FieldVal(SetFields(h, EditPairs(u)), "imgVersion") == Some(Template(u.imgVersion))
    ensures FieldVal(SetFields(h, EditPairs(u)), "imgId") == Some(Template(u.imgId))
    ensures FieldVal(SetFields(h, EditPairs(u)), "videoId") == Some(Template(u.videoId))
    ensures FieldVal(SetFields(h, EditPairs(u)), "videoVersion") == Some(Template(u.videoVersion))
  {
    UpdateChangesTenFields(h, u);
    var vs := EditValues(u);
    assert EDIT_FIELDS[5] == "videoId" && vs[5] == Template(u.videoId);
    assert EDIT_FIELDS[6] == "videoVersion" && vs[6] == Template(u.videoVersion);
    assert EDIT_FIELDS[8] == "imgVersion" && vs[8] == Template(u.imgVersion);
    assert EDIT_FIELDS[9] == "imgId" && vs[9] == Template(u.imgId);
  }

  /** The plain update clears the video fields, so the edited post drops out of the video getter. */
  lemma PlainEditDropsVideo(h: Hash, body: PostBody)
    ensures !Shows(Video, SetFields(h, EditPairs(PlainEdit(body))))
  {
    EditedMediaFields(h, PlainEdit(body));
  }

  /**
   * Uploading an image to an existing post makes the image getter list it;
   * uploading a video makes the video getter list it.
   */
  lemma UploadEditIsListed(h: Hash, body: PostBody, upload: Upload)
    requires Uploaded(upload)
    ensures Truthy(body.image) ==> Shows(Image, SetFields(h, EditPairs(UploadEdit(body, upload))))
    ensures Truthy(body.video) ==> Shows(Video, SetFields(h, EditPairs(UploadEdit(body, upload))))
  {
    EditedMediaFields(h, UploadEdit(body, upload));
  }

  /**
   * An update that keeps the post's media writes that media back unchanged,
   * so the post stays in the getter of its kind.
   */
  lemma KeptMediaStaysListed(h: Hash, body: PostBody, kind: Media)
    requires KeepsMedia(body, kind)
    ensures Shows(kind, SetFields(h, EditPairs(KeptMediaEdit(body))))
  {
    EditedMediaFields(h, KeptMediaEdit(body));
  }
}
