/**
 * The post persistence service: inserts, deletes and edits post documents,
 * keeps the author's `postsCount` in step, and answers the paged post
 * queries the read routes fall back to.
 */
module PostService {
  import opened Wrappers
  import opened Records
  import opened Documents

  /**
   * addPostToDB: the post's document is inserted and the author's
   * `postsCount` goes up by one.
   */
  method AddPostToDB(db: Db, userId: string, p: Post)
    modifies db
    ensures db.posts == old(db.posts) + [PostDoc(p)]
    ensures db.users == UpdateById(old(db.users), userId, IncOp("postsCount", 1))
    ensures db.comments == old(db.comments) && db.reactions == old(db.reactions)
    ensures db.images == old(db.images) && db.notifications == old(db.notifications)
  {
    db.posts := db.posts + [PostDoc(p)];
    db.users := UpdateById(db.users, userId, IncOp("postsCount", 1));
  }

  /**
   * deletePost: the post's document is deleted and the author's
   * `postsCount` goes down by one; its reactions and comments stay.
   */
  method DeletePost(db: Db, postId: string, userId: string)
    modifies db
    ensures db.posts == DeleteById(old(db.posts), postId)
    ensures db.users == UpdateById(old(db.users), userId, IncOp("postsCount", -1))
    ensures db.comments == old(db.comments) && db.reactions == old(db.reactions)
    ensures db.images == old(db.images) && db.notifications == old(db.notifications)
  {
    db.posts := DeleteById(db.posts, postId);
    db.users := UpdateById(db.users, userId, IncOp("postsCount", -1));
  }

  /** editPost: `$set` of the supplied fields on the post with that id. */
  method EditPost(db: Db, postId: string, updatedPost: Doc)
    modifies db
    ensures db.posts == UpdateById(old(db.posts), postId, SetOp(updatedPost))
    ensures db.users == old(db.users) && db.comments == old(db.comments) && db.reactions == old(db.reactions)
    ensures db.images == old(db.images) && db.notifications == old(db.notifications)
  {
    db.posts := UpdateById(db.posts, postId, SetOp(updatedPost));
  }

  // ---------------------------------------------------------------------------
  // getPosts

  /** An IGetPostsQuery: field -> value. */
  type PostQuery = map<string, string>

  /** The three `$match` stages getPosts can build. */
  datatype PostFilter =
    | ImageOrGif            // { $or: [{ imgId: { $ne: '' } }, { gifUrl: { $ne: '' } }] }
    | VideoOnly             // { $or: [{ videoId: { $ne: '' } }] }
    | Exact(q: PostQuery)   // the query itself: every listed field equals its value

  predicate TruthyField(q: PostQuery, f: string) {
    f in q && q[f] != ""
  }

  /** The filter choice of getPosts. */
  function SelectFilter(q: PostQuery): (r: PostFilter)
    ensures r == ImageOrGif <==> TruthyField(q, "imgId") && TruthyField(q, "gifUrl")
    ensures r == VideoOnly <==> !(TruthyField(q, "imgId") && TruthyField(q, "gifUrl")) && TruthyField(q, "videoId")
    ensures r.Exact? ==> r.q == q
  {
    if TruthyField(q, "imgId") && TruthyField(q, "gifUrl") then ImageOrGif
    else if TruthyField(q, "videoId") then VideoOnly
    else Exact(q)
  }

  /** `{ f: { $ne: '' } }`: true also when the field is absent. */
  predicate NotEmpty(d: Doc, f: string) {
    Field(d, f) != Some(Str(""))
  }

  predicate MatchesFilter(f: PostFilter, d: Doc) {
    match f
    case ImageOrGif => NotEmpty(d, "imgId") || NotEmpty(d, "gifUrl")
    case VideoOnly => NotEmpty(d, "videoId")
    case Exact(q) => forall k :: k in q ==> k in d && d[k] == Str(q[k])
  }

  /** `$match`: the matching documents in collection order. */
  function Match(ds: seq<Doc>, f: PostFilter): (r: seq<Doc>)
    ensures |r| <= |ds|
    ensures forall d :: d in r <==> d in ds && MatchesFilter(f, d)
  {
    if ds == [] then []
    else
      assert forall d :: d in ds <==> d == ds[0] || d in ds[1..] by {
        assert ds == [ds[0]] + ds[1..];
      }
      (if MatchesFilter(f, ds[0]) then [ds[0]] else []) + Match(ds[1..], f)
  }

  /**
   * The `createdAt` sort key.  Documents written by the model always hold a
   * number there; any other document sorts as -1.
   */
  function CreatedAt(d: Doc): int {
    match NumField(d, "createdAt")
    case Some(n) => n
    case None => -1
  }

  /**
   * getPosts(query, skip, limit, { createdAt: -1 }): `$match`, `$sort`,
   * `$skip`, `$limit`, in that order.  The store rejects a negative skip and
   * a limit that is not positive.
   */
  function GetPosts(posts: seq<Doc>, q: PostQuery, skip: int, limit: int): (r: Result<seq<Doc>>)
    ensures r.Err? <==> skip < 0 || limit <= 0
    ensures r.Ok? ==> |r.value| <= limit
    ensures r.Ok? ==> forall d :: d in r.value ==> d in posts && MatchesFilter(SelectFilter(q), d)
  {
    if skip < 0 then Err(DatabaseError("$skip"))
    else if limit <= 0 then Err(DatabaseError("$limit"))
    else
      var sorted := SortDesc(Match(posts, SelectFilter(q)), CreatedAt);
      var r := Paged(sorted, skip, limit);
      assert forall d :: d in r ==> d in sorted by {
        if skip <= |sorted| {
          forall d | d in r ensures d in sorted {
            var k :| 0 <= k < |r| && r[k] == d;
            assert sorted[skip + k] == d;
          }
        }
      }
      assert forall d :: d in sorted ==> d in multiset(Match(posts, SelectFilter(q)));
      Ok(r)
  }

  /** postsCount: `countDocuments` with no filter. */
  function PostsCount(posts: seq<Doc>): nat {
    |posts|
  }

  // ---------------------------------------------------------------------------
  // Properties

  /** The image route's query selects the image-or-gif filter; the video route's the video filter. */
  lemma RouteQueriesSelectFilters()
    ensures SelectFilter(map["imgId" := "$ne", "gifUrl" := "$ne"]) == ImageOrGif
    ensures SelectFilter(map["videoId" := "$ne"]) == VideoOnly
    ensures SelectFilter(map[]) == Exact(map[])
  {
  }

  /** The empty query matches every post: the plain route pages over all of them. */
  lemma {:induction false} EmptyQueryMatchesAll(ds: seq<Doc>)
    ensures Match(ds, SelectFilter(map[])) == ds
    decreases |ds|
  {
    if ds != [] {
      EmptyQueryMatchesAll(ds[1..]);
      assert ds == [ds[0]] + ds[1..];
    }
  }

  /** `$ne ''` also matches an absent field: a post with no gifUrl passes the image-or-gif filter. */
  lemma AbsentFieldPassesNotEmpty(d: Doc)
    requires "gifUrl" !in d
    ensures MatchesFilter(ImageOrGif, d)
  {
  }

  /** getPosts returns its page newest first. */
  lemma GetPostsNewestFirst(posts: seq<Doc>, q: PostQuery, skip: int, limit: int)
    requires GetPosts(posts, q, skip, limit).Ok?
    ensures SortedDesc(GetPosts(posts, q, skip, limit).value, CreatedAt)
  {
    var sorted := SortDesc(Match(posts, SelectFilter(q)), CreatedAt);
    SortDescSorted(Match(posts, SelectFilter(q)), CreatedAt);
    var r := GetPosts(posts, q, skip, limit).value;
    if skip <= |sorted| {
      forall i, j | 0 <= i < j < |r| ensures CreatedAt(r[i]) >= CreatedAt(r[j]) {
        assert r[i] == sorted[skip + i] && r[j] == sorted[skip + j];
      }
    }
  }

  /** Adding a post grows the count by one and raises its author's postsCount by one. */
  lemma AddRaisesCounts(posts: seq<Doc>, users: seq<Doc>, userId: string, p: Post)
    ensures PostsCount(posts + [PostDoc(p)]) == PostsCount(posts) + 1
    ensures FirstWithId(users, userId).Some? ==>
      var i := FirstWithId(users, userId).value;
      var users' := UpdateById(users, userId, IncOp("postsCount", 1));
      (NumField(users[i], "postsCount").Some? ==>
         NumField(users'[i], "postsCount") == Some(NumField(users[i], "postsCount").value + 1))
      && (forall g :: g != "postsCount" ==> Field(users'[i], g) == Field(users[i], g))
  {
    if FirstWithId(users, userId).Some? {
      var i := FirstWithId(users, userId).value;
      IncFieldEffect(users[i], "postsCount", 1);
    }
  }

  /** Deleting a post removes exactly that document and lowers its author's postsCount by one. */
  lemma DeleteLowersCounts(posts: seq<Doc>, users: seq<Doc>, postId: string, userId: string)
    ensures FirstWithId(posts, postId).Some? ==> PostsCount(DeleteById(posts, postId)) == PostsCount(posts) - 1
    ensures FirstWithId(posts, postId).None? ==> DeleteById(posts, postId) == posts
    ensures FirstWithId(users, userId).Some? ==>
      var i := FirstWithId(users, userId).value;
      var users' := UpdateById(users, userId, IncOp("postsCount", -1));
      NumField(users[i], "postsCount").Some? ==>
        NumField(users'[i], "postsCount") == Some(NumField(users[i], "postsCount").value - 1)
  {
    DeleteByIdEffect(posts, postId);
    if FirstWithId(users, userId).Some? {
      var i := FirstWithId(users, userId).value;
      UpdateByIdEffect(users, userId, IncOp("postsCount", -1));
      assert UpdateById(users, userId, IncOp("postsCount", -1))[i] == IncField(users[i], "postsCount", -1);
      IncFieldEffect(users[i], "postsCount", -1);
    }
  }

  /** An edit sets exactly the supplied fields of that one post. */
  lemma EditSetsSuppliedFields(posts: seq<Doc>, postId: string, upd: Doc)
    ensures FirstWithId(posts, postId).Some? ==>
      var i := FirstWithId(posts, postId).value;
      var d := UpdateById(posts, postId, SetOp(upd))[i];
      (forall f :: f in upd ==> Field(d, f) == Some(upd[f]))
      && (forall f :: f !in upd ==> Field(d, f) == Field(posts[i], f))
    ensures forall j :: 0 <= j < |posts| && !HasId(posts[j], postId) ==>
      UpdateById(posts, postId, SetOp(upd))[j] == posts[j]
  {
    UpdateByIdEffect(posts, postId, SetOp(upd));
  }
}
