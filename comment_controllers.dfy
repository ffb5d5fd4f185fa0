/**
 * The comment routes: add a comment to a post, list a post's comments,
 * list the names of its commenters and fetch one comment.  Adding writes
 * the cache and queues the store write; the read routes answer from the
 * cache and fall back to the store when the cache has nothing.
 */
module CommentControllers {
  import opened Wrappers
  import opened Records
  import opened CacheStore
  import opened CommentCache
  import opened Effects
  import CommentService

  /** `xs.length ? xs[0] : []`: the first element, or an empty JSON array. */
  datatype FirstOrEmpty<T> = First(value: T) | EmptyArray

  function FirstOf<T>(xs: seq<T>): (r: FirstOrEmpty<T>)
    ensures r.First? <==> xs != []
    ensures r.First? ==> r.value == xs[0]
  {
    if |xs| > 0 then First(xs[0]) else EmptyArray
  }

  /** The comment record the add route builds from the request. */
  function NewComment(user: CurrentUser, postId: string, profilePicture: Val, comment: Val,
                      commentId: string, now: int): (cm: Comment)
    ensures cm.id == commentId && cm.postId == Some(postId) && cm.createdAt == now
    ensures cm.username == user.username && cm.avatarColor == user.avatarColor
    ensures cm.profilePicture == profilePicture && cm.comment == comment
  {
    Comment(commentId, Some(postId), user.username, user.avatarColor, profilePicture, comment, now)
  }

  /**
   * Add.comment: push the encoded comment onto the post's cached list
   * (raising its commentsCount), then queue 'addCommentToDB'.  A cache
   * failure rejects the request before anything is queued.
   */
  method AddComment(c: Store, out: Outbox, user: CurrentUser, userTo: string, postId: string,
                    profilePicture: Val, comment: Val, commentId: string, now: int)
    returns (r: Result<Response>)
    requires c.Valid()
    modifies c, out
    ensures c.Valid() && c.up == old(c.up) && c.sorted == old(c.sorted) && c.collections == old(c.collections)
    ensures out.emits == old(out.emits)
    ensures !old(c.up) ==>
      r == Err(ServerError(SERVER_ERROR_MESSAGE))
      && c.hashes == old(c.hashes) && c.lists == old(c.lists) && out.jobs == old(out.jobs)
    ensures old(c.up) ==>
      var cm := NewComment(user, postId, profilePicture, comment, commentId, now);
      r == Ok(Response(OK, "Comment created successfully"))
      && c.lists == old(c.lists)[CommentsKey(postId) := [EncodeComment(cm)] + ListAt(old(c.lists), CommentsKey(postId))]
      && c.hashes == CommentedHashes(old(c.hashes), postId)
      && out.jobs == old(out.jobs) + [Job("addCommentToDB", CommentJob(postId, userTo, user.userId, user.username, cm), JOB_OPTIONS)]
  {
    var cm := NewComment(user, postId, profilePicture, comment, commentId, now);
    var saved := SavePostCommentToCache(c, postId, EncodeComment(cm));
    if saved.Fail? {
      return Err(saved.error);
    }
    out.AddJob("addCommentToDB", CommentJob(postId, userTo, user.userId, user.username, cm));
    r := Ok(Response(OK, "Comment created successfully"));
  }

  /** Where a list of comments came from. */
  datatype CommentList = CachedComments(list: seq<Option<Comment>>) | StoredComments(docs: seq<Comment>)

  datatype CommentsReply = CommentsReply(message: string, comments: CommentList)

  datatype NamesReply = NamesReply(message: string, names: FirstOrEmpty<CommentNameList>)

  /** `comments[0]` may be undefined: a cached list with no comment of that id. */
  datatype SingleReply = SingleReply(message: string, comment: FirstOrEmpty<Option<Comment>>)

  /** The store's comments as the optional entries a cached list holds. */
  function AsEntries(docs: seq<Comment>): (r: seq<Option<Comment>>)
    ensures |r| == |docs| && forall i :: 0 <= i < |docs| ==> r[i] == Some(docs[i])
  {
    seq(|docs|, i requires 0 <= i < |docs| => Some(docs[i]))
  }

  /**
   * Get.comments: the cached list when it has anything, otherwise the
   * post's comments from the store, newest first.
   */
  method Comments(c: Store, db: Documents.Db, postId: string) returns (r: Result<CommentsReply>)
    ensures !c.up ==> r == Err(ServerError(SERVER_ERROR_MESSAGE))
    ensures c.up && ListAt(c.lists, CommentsKey(postId)) != [] ==>
      r == Ok(CommentsReply("Post comments", CachedComments(DecodeAll(ListAt(c.lists, CommentsKey(postId))))))
    ensures c.up && ListAt(c.lists, CommentsKey(postId)) == [] ==>
      r.Ok? && r.value.message == "Post comments" && r.value.comments.StoredComments?
      && multiset(r.value.comments.docs) == multiset(CommentService.MatchComments(db.comments, CommentService.ByPost(postId)))
      && Documents.SortedDesc(r.value.comments.docs, CommentService.CommentCreatedAt)
  {
    var cached := GetCommentsFromCache(c, postId);
    if cached.Err? {
      return Err(cached.error);
    }
    if |cached.value| > 0 {
      return Ok(CommentsReply("Post comments", CachedComments(cached.value)));
    }
    var stored := CommentService.GetPostComments(db.comments, CommentService.ByPost(postId));
    r := Ok(CommentsReply("Post comments", StoredComments(stored)));
  }

  /**
   * Get.commentsNamesFromCache.  The cache always answers with one entry,
   * so the reply is that entry and the store is never consulted: the reply
   * depends on the cache alone.
   */
  method CommentNames(c: Store, db: Documents.Db, postId: string) returns (r: Result<NamesReply>)
    ensures !c.up ==> r == Err(ServerError(SERVER_ERROR_MESSAGE))
    ensures c.up ==>
      var items := ListAt(c.lists, CommentsKey(postId));
      r.Ok? && r.value.message == "Post comments names" && r.value.names.First?
      && r.value.names.value.count == |items| && |r.value.names.value.names| == |items|
      && forall i :: 0 <= i < |items| ==> r.value.names.value.names[i] == UsernameOf(DecodeComment(items[i]))
  {
    var stored := db.comments;
    var cached := GetCommentsNamesFromCache(c, postId);
    if cached.Err? {
      return Err(cached.error);
    }
    var names := if |cached.value| > 0 then cached.value
                 else CommentService.GetPostCommentNames(stored, CommentService.ByPost(postId));
    r := Ok(NamesReply("Post comments names", FirstOf(names)));
  }

  /**
   * Get.singleComment.  The cache always answers with a one-element list,
   * so the reply is the first cached comment with that id, or undefined,
   * and the store is never consulted.
   */
  method SingleComment(c: Store, db: Documents.Db, postId: string, commentId: string) returns (r: Result<SingleReply>)
    ensures !c.up ==> r == Err(ServerError(SERVER_ERROR_MESSAGE))
    ensures c.up ==>
      r == Ok(SingleReply("Single comment", First(FindComment(DecodeAll(ListAt(c.lists, CommentsKey(postId))), commentId))))
  {
    var stored := db.comments;
    var cached := GetSingleCommentFromCache(c, postId, commentId);
    if cached.Err? {
      return Err(cached.error);
    }
    var comments := if |cached.value| > 0 then cached.value
                    else AsEntries(CommentService.GetPostComments(stored, CommentService.ById(commentId)));
    r := Ok(SingleReply("Single comment", FirstOf(comments)));
  }

  // ---------------------------------------------------------------------------
  // Properties

  /** The cached list after the add route saved `cm`. */
  function ListAfterAdd(ls: map<string, seq<string>>, postId: string, cm: Comment): seq<string> {
    ListAt(ls[CommentsKey(postId) := [EncodeComment(cm)] + ListAt(ls, CommentsKey(postId))], CommentsKey(postId))
  }

  /**
   * After a comment is added, the comments route lists it first, followed
   * by the earlier comments unchanged, and the names route names its author
   * first with the count one higher.
   */
  lemma {:induction false} AddedCommentHeadsComments(ls: map<string, seq<string>>, postId: string, cm: Comment)
    ensures var l := ListAfterAdd(ls, postId, cm);
      DecodeAll(l)[0] == Some(cm) && DecodeAll(l)[1..] == DecodeAll(ListAt(ls, CommentsKey(postId)))
      && UsernameOf(DecodeAll(l)[0]) == Some(cm.username)
      && |l| == |ListAt(ls, CommentsKey(postId))| + 1
  {
    var before := ListAt(ls, CommentsKey(postId));
    var l := ListAfterAdd(ls, postId, cm);
    SavedCommentIsHead(ls, postId, EncodeComment(cm));
    SavedCommentReadsBack(ls, postId, cm);
    assert forall i :: 0 <= i < |before| ==> DecodeAll(l)[1..][i] == DecodeAll(before)[i] by {
      forall i | 0 <= i < |before| ensures DecodeAll(l)[1..][i] == DecodeAll(before)[i] {
        assert l[i + 1] == before[i];
      }
    }
  }

  /** After a comment is added, the single-comment route finds it by its id. */
  lemma AddedCommentIsFound(ls: map<string, seq<string>>, postId: string, cm: Comment)
    ensures FindComment(DecodeAll(ListAfterAdd(ls, postId, cm)), cm.id) == Some(cm)
  {
    AddedCommentHeadsComments(ls, postId, cm);
  }
}
