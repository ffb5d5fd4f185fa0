/**
 * The comment persistence service: stores a comment, raises the post's
 * `commentsCount`, and notifies the post's author when they want to be told
 * and did not write the comment themselves.
 */
module CommentService {
  import opened Wrappers
  import opened Records
  import opened Documents
  import opened Effects
  import CommentCache

  /** The notification record built from the comment and the post as updated. */
  function CommentNotification(userFrom: string, userTo: string, username: string, postId: string,
                               c: Comment, post: Doc, createdAt: int): (n: Notification)
    ensures n.notificationType == "comment" && n.message == NotificationMessage(username, "commented on")
    ensures n.userFrom == userFrom && n.userTo == userTo && n.entityId == postId && n.createdItemId == c.id
    ensures n.comment == c.comment && n.reaction == Some("")
    ensures n.post == Field(post, "post") && n.imgId == Field(post, "imgId")
    ensures n.imgVersion == Field(post, "imgVersion") && n.gifUrl == Field(post, "gifUrl")
  {
    Notification(userFrom, userTo, NotificationMessage(username, "commented on"), "comment", postId, c.id, createdAt,
                 c.comment, Field(post, "post"), Field(post, "imgId"), Field(post, "imgVersion"),
                 Field(post, "gifUrl"), Some(""))
  }

  /**
   * addCommentToDB: insert the comment and raise the post's commentsCount;
   * then, when the rule says so, store a notification, emit it to the
   * recipient and queue a 'commentsEmail' job.  `now` is the notification's
   * creation time; `recipient` is the post author as the user cache holds it.
   */
  method AddCommentToDB(db: Db, out: Outbox, postId: string, userTo: string, userFrom: string,
                        username: string, c: Comment, recipient: Recipient, now: int)
    returns (r: Outcome)
    modifies db, out
    ensures db.comments == old(db.comments) + [c]
    ensures db.posts == UpdateById(old(db.posts), postId, IncOp("commentsCount", 1))
    ensures db.users == old(db.users) && db.reactions == old(db.reactions) && db.images == old(db.images)
    ensures !ShouldNotify(recipient.notifyComments, userFrom, userTo) ==>
      r == Pass && db.notifications == old(db.notifications) && out.emits == old(out.emits) && out.jobs == old(out.jobs)
    ensures ShouldNotify(recipient.notifyComments, userFrom, userTo)
            && UpdatedById(old(db.posts), postId, IncOp("commentsCount", 1)).None? ==>
      r.Fail? && r.error.TypeError?
      && db.notifications == old(db.notifications) && out.emits == old(out.emits) && out.jobs == old(out.jobs)
    ensures ShouldNotify(recipient.notifyComments, userFrom, userTo)
            && UpdatedById(old(db.posts), postId, IncOp("commentsCount", 1)).Some? ==>
      var n := CommentNotification(userFrom, userTo, username, postId, c,
                                   UpdatedById(old(db.posts), postId, IncOp("commentsCount", 1)).value, now);
      r == Pass
      && db.notifications == old(db.notifications) + [n]
      && out.emits == old(out.emits) + [Emit("insert notification", NewNotification(n), ToUser(userTo))]
      && out.jobs == old(out.jobs) + [Job("commentsEmail",
           EmailJob(recipient.email, TemplateParams(recipient.username, NotificationMessage(username, "commented on"), "Comment Notification"),
                    "Post notification"), JOB_OPTIONS)]
  {
    var updated := UpdatedById(db.posts, postId, IncOp("commentsCount", 1));
    db.comments := db.comments + [c];
    db.posts := UpdateById(db.posts, postId, IncOp("commentsCount", 1));
    if !ShouldNotify(recipient.notifyComments, userFrom, userTo) {
      return Pass;
    }
    if updated.None? {
      return Fail(TypeError("Cannot read properties of null (reading 'post')"));
    }
    var n := CommentNotification(userFrom, userTo, username, postId, c, updated.value, now);
    db.notifications := db.notifications + [n];
    out.Send(Emit("insert notification", NewNotification(n), ToUser(userTo)));
    var template := TemplateParams(recipient.username, NotificationMessage(username, "commented on"), "Comment Notification");
    out.AddJob("commentsEmail", EmailJob(recipient.email, template, "Post notification"));
    r := Pass;
  }

  /** The two `$match` stages the comment routes use. */
  datatype CommentQuery = ByPost(postId: string) | ById(commentId: string)

  predicate MatchesComment(q: CommentQuery, c: Comment) {
    match q
    case ByPost(p) => c.postId == Some(p)
    case ById(id) => c.id == id
  }

  function MatchComments(cs: seq<Comment>, q: CommentQuery): (r: seq<Comment>)
    ensures |r| <= |cs|
    ensures forall c :: c in r <==> c in cs && MatchesComment(q, c)
  {
    if cs == [] then []
    else
      assert forall c :: c in cs <==> c == cs[0] || c in cs[1..] by {
        assert cs == [cs[0]] + cs[1..];
      }
      (if MatchesComment(q, cs[0]) then [cs[0]] else []) + MatchComments(cs[1..], q)
  }

  function CommentCreatedAt(c: Comment): int {
    c.createdAt
  }

  /** getPostComments(query, { createdAt: -1 }): the matching comments, newest first. */
  function GetPostComments(cs: seq<Comment>, q: CommentQuery): (r: seq<Comment>)
    ensures multiset(r) == multiset(MatchComments(cs, q))
    ensures SortedDesc(r, CommentCreatedAt)
  {
    SortDescSorted(MatchComments(cs, q), CommentCreatedAt);
    SortDesc(MatchComments(cs, q), CommentCreatedAt)
  }

  /** The usernames of `cs` in order of first appearance, each once (`$addToSet`). */
  function UniqueNames(cs: seq<Comment>): (r: seq<Val>)
    ensures forall i, j :: 0 <= i < j < |r| ==> r[i] != r[j]
    ensures forall v :: v in r <==> exists c :: c in cs && v == Some(c.username)
    decreases |cs|
  {
    if cs == [] then []
    else
      var rest := UniqueNames(cs[..|cs| - 1]);
      assert forall c :: c in cs <==> c == cs[|cs| - 1] || c in cs[..|cs| - 1] by {
        assert cs == cs[..|cs| - 1] + [cs[|cs| - 1]];
      }
      if Some(cs[|cs| - 1].username) in rest then rest else rest + [Some(cs[|cs| - 1].username)]
  }

  /**
   * getPostCommentNames: one group holding the distinct usernames and the
   * number of matching comments; no group at all when nothing matches.
   */
  function GetPostCommentNames(cs: seq<Comment>, q: CommentQuery): (r: seq<CommentCache.CommentNameList>)
    ensures MatchComments(cs, q) == [] <==> r == []
    ensures r != [] ==>
      |r| == 1 && r[0].count == |MatchComments(cs, q)|
      && (forall i, j :: 0 <= i < j < |r[0].names| ==> r[0].names[i] != r[0].names[j])
      && (forall v :: v in r[0].names <==> exists c :: c in cs && MatchesComment(q, c) && v == Some(c.username))
  {
    var matched := GetPostComments(cs, q);
    assert forall c :: c in matched <==> c in MatchComments(cs, q) by {
      forall c ensures c in matched <==> c in MatchComments(cs, q) {
        assert c in matched <==> c in multiset(matched);
      }
    }
    if matched == [] then []
    else [CommentCache.CommentNameList(|matched|, UniqueNames(matched))]
  }

  // ---------------------------------------------------------------------------
  // Properties

  /** The post's commentsCount moves by exactly one and no other field changes. */
  lemma AddRaisesCommentsCount(posts: seq<Doc>, postId: string)
    ensures FirstWithId(posts, postId).Some? ==>
      var i := FirstWithId(posts, postId).value;
      var d := UpdateById(posts, postId, IncOp("commentsCount", 1))[i];
      (NumField(posts[i], "commentsCount").Some? ==>
         NumField(d, "commentsCount") == Some(NumField(posts[i], "commentsCount").value + 1))
      && (forall g :: g != "commentsCount" ==> Field(d, g) == Field(posts[i], g))
    ensures |UpdateById(posts, postId, IncOp("commentsCount", 1))| == |posts|
  {
    UpdateByIdEffect(posts, postId, IncOp("commentsCount", 1));
    if FirstWithId(posts, postId).Some? {
      IncFieldEffect(posts[FirstWithId(posts, postId).value], "commentsCount", 1);
    }
  }
}
