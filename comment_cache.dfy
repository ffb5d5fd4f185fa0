/**
 * The comment cache service: the comments of a post are the list
 * `comments:<postId>` of encoded comment records, newest first, and the
 * post hash keeps a `commentsCount` field.
 */
module CommentCache {
  import opened Wrappers
  import opened Numbers
  import opened Records
  import opened CacheStore

  /** One entry of `getCommentsNamesFromCache`'s reply. */
  datatype CommentNameList = CommentNameList(count: nat, names: seq<Val>)

  /** Every list element decoded, in list order (`None`: not a comment record). */
  function DecodeAll(items: seq<string>): (list: seq<Option<Comment>>)
    ensures |list| == |items|
  {
    seq(|items|, i requires 0 <= i < |items| => DecodeComment(items[i]))
  }

  /** `parseJson` of every list element, one at a time. */
  method DecodeComments(items: seq<string>) returns (list: seq<Option<Comment>>)
    ensures list == DecodeAll(items)
    ensures forall i :: 0 <= i < |items| ==> list[i] == DecodeComment(items[i])
  {
    list := [];
    for i := 0 to |items|
      invariant |list| == i
      invariant forall j :: 0 <= j < i ==> list[j] == DecodeComment(items[j])
    {
      list := list + [DecodeComment(items[i])];
    }
  }

  /** The `username` property of a decoded entry (undefined for a non-comment). */
  function UsernameOf(e: Option<Comment>): Val {
    if e.Some? then Some(e.value.username) else None
  }

  /** lodash `find` by `_id`: the first entry that is a comment with that id. */
  function FindComment(list: seq<Option<Comment>>, commentId: string): (r: Option<Comment>)
    ensures r.Some? ==> Some(r.value) in list && r.value.id == commentId
    ensures r.Some? ==>
      exists i :: (0 <= i < |list| && list[i] == Some(r.value)
        && forall j :: 0 <= j < i ==> !(list[j].Some? && list[j].value.id == commentId))
    ensures r.None? <==> forall i :: 0 <= i < |list| ==> !(list[i].Some? && list[i].value.id == commentId)
  {
    if list == [] then None
    else if list[0].Some? && list[0].value.id == commentId then list[0]
    else
      var r := FindComment(list[1..], commentId);
      assert forall i :: 1 <= i < |list| ==> list[i] == list[1..][i - 1];
      if r.Some? then
        assert exists i :: (0 <= i < |list[1..]| && list[1..][i] == Some(r.value)
          && forall j :: 0 <= j < i ==> !(list[1..][j].Some? && list[1..][j].value.id == commentId));
        r
      else r
  }

  /** The commentsCount after the read-increment-write of savePostCommentToCache. */
  function CommentedHashes(hs: map<string, Hash>, postId: string): map<string, Hash> {
    var count := JsonCountPlusOne(HGet(hs, PostKey(postId), "commentsCount"));
    hs[PostKey(postId) := HashAt(hs, PostKey(postId))["commentsCount" := count]]
  }

  /**
   * savePostCommentToCache: LPUSH the encoded comment, then read
   * commentsCount, add one and write it back as a string.
   */
  method SavePostCommentToCache(c: Store, postId: string, value: string) returns (r: Outcome)
    requires c.Valid()
    modifies c
    ensures c.Valid() && c.up == old(c.up)
    ensures c.sorted == old(c.sorted) && c.collections == old(c.collections)
    ensures !old(c.up) ==>
      r == Fail(ServerError(SERVER_ERROR_MESSAGE)) && c.hashes == old(c.hashes) && c.lists == old(c.lists)
    ensures old(c.up) ==>
      r == Pass
      && c.lists == old(c.lists)[CommentsKey(postId) := [value] + ListAt(old(c.lists), CommentsKey(postId))]
      && c.hashes == CommentedHashes(old(c.hashes), postId)
  {
    if !c.up {
      return Fail(ServerError(SERVER_ERROR_MESSAGE));
    }
    c.LPush(CommentsKey(postId), value);
    var commentsCount := HGet(c.hashes, PostKey(postId), "commentsCount");
    c.HSet(PostKey(postId), "commentsCount", JsonCountPlusOne(commentsCount));
    r := Pass;
  }

  /** getCommentsFromCache: every element of the list, decoded, in list order. */
  method GetCommentsFromCache(c: Store, postId: string) returns (r: Result<seq<Option<Comment>>>)
    ensures !c.up ==> r == Err(ServerError(SERVER_ERROR_MESSAGE))
    ensures c.up ==>
      var items := ListAt(c.lists, CommentsKey(postId));
      r == Ok(DecodeAll(items))
      && forall i :: 0 <= i < |items| ==> r.value[i] == DecodeComment(items[i])
  {
    if !c.up {
      return Err(ServerError(SERVER_ERROR_MESSAGE));
    }
    var list := DecodeComments(ListAt(c.lists, CommentsKey(postId)));
    r := Ok(list);
  }

  /**
   * getCommentsNamesFromCache: always one entry, holding LLEN and the
   * usernames in list order, duplicates included.
   */
  method GetCommentsNamesFromCache(c: Store, postId: string) returns (r: Result<seq<CommentNameList>>)
    ensures !c.up ==> r == Err(ServerError(SERVER_ERROR_MESSAGE))
    ensures c.up ==>
      var items := ListAt(c.lists, CommentsKey(postId));
      r.Ok? && |r.value| == 1 && r.value[0].count == |items| && |r.value[0].names| == |items|
      && forall i :: 0 <= i < |items| ==> r.value[0].names[i] == UsernameOf(DecodeComment(items[i]))
  {
    if !c.up {
      return Err(ServerError(SERVER_ERROR_MESSAGE));
    }
    var items := ListAt(c.lists, CommentsKey(postId));
    var commentsCount := |items|;
    var list: seq<Val> := [];
    for i := 0 to |items|
      invariant |list| == i
      invariant forall j :: 0 <= j < i ==> list[j] == UsernameOf(DecodeComment(items[j]))
    {
      list := list + [UsernameOf(DecodeComment(items[i]))];
    }
    r := Ok([CommentNameList(commentsCount, list)]);
  }

  /**
   * getSingleCommentFromCache: always a one-element array holding the first
   * comment with that id, or undefined when there is none.
   */
  method GetSingleCommentFromCache(c: Store, postId: string, commentId: string)
    returns (r: Result<seq<Option<Comment>>>)
    ensures !c.up ==> r == Err(ServerError(SERVER_ERROR_MESSAGE))
    ensures c.up ==>
      var items := ListAt(c.lists, CommentsKey(postId));
      r == Ok([FindComment(DecodeAll(items), commentId)])
      && (r.value[0].Some? ==>
            (r.value[0].value.id == commentId
             && exists i :: 0 <= i < |items| && DecodeComment(items[i]) == r.value[0]))
      && (r.value[0].None? <==>
            forall i :: 0 <= i < |items| ==> !(DecodeComment(items[i]).Some? && DecodeComment(items[i]).value.id == commentId))
  {
    if !c.up {
      return Err(ServerError(SERVER_ERROR_MESSAGE));
    }
    var items := ListAt(c.lists, CommentsKey(postId));
    var list := DecodeComments(items);
    var result := FindComment(list, commentId);
    r := Ok([result]);
  }

  // ---------------------------------------------------------------------------
  // Properties

  /**
   * The saved comment becomes the head of the post's list, the list grows
   * by one and the earlier comments keep their order behind it.
   */
  lemma SavedCommentIsHead(ls: map<string, seq<string>>, postId: string, value: string)
    ensures var l := ListAt(ls[CommentsKey(postId) := [value] + ListAt(ls, CommentsKey(postId))], CommentsKey(postId));
      l[0] == value && |l| == |ListAt(ls, CommentsKey(postId))| + 1 && l[1..] == ListAt(ls, CommentsKey(postId))
  {
    var old_ := ListAt(ls, CommentsKey(postId));
    assert ([value] + old_)[1..] == old_;
  }

  /** A commentsCount held as a numeral goes up by exactly one; a missing one becomes 1. */
  lemma SaveRaisesCommentsCount(hs: map<string, Hash>, postId: string, n: int)
    ensures HGet(hs, PostKey(postId), "commentsCount") == Some(IntToString(n)) ==>
      HGet(CommentedHashes(hs, postId), PostKey(postId), "commentsCount") == Some(IntToString(n + 1))
    ensures HGet(hs, PostKey(postId), "commentsCount") == None ==>
      HGet(CommentedHashes(hs, postId), PostKey(postId), "commentsCount") == Some("1")
    ensures forall k :: k != PostKey(postId) ==> HashAt(CommentedHashes(hs, postId), k) == HashAt(hs, k)
  {
    JsonCountPlusOneOfNumeral(n);
  }

  /** A comment written with its encoding is read back as itself, at the head. */
  lemma SavedCommentReadsBack(ls: map<string, seq<string>>, postId: string, cm: Comment)
    ensures var l := ListAt(ls[CommentsKey(postId) := [EncodeComment(cm)] + ListAt(ls, CommentsKey(postId))], CommentsKey(postId));
      DecodeComment(l[0]) == Some(cm)
  {
    DecodeEncodeComment(cm);
  }
}
