/**
 * The post cache service: each post is a hash `posts:<id>` of string
 * fields, and the sorted set `post` holds every cached post id scored by
 * its author's numeric uId.  Every operation first needs the store; an
 * unreachable store ends it with ServerError("Server error. Try again.").
 */
module PostCache {
  import opened Wrappers
  import opened Numbers
  import opened Records
  import SortedSet
  import opened CacheStore

  type Pair = (string, string)

  function Fields(ps: seq<Pair>): (fs: seq<string>)
    ensures |fs| == |ps|
    ensures forall i :: 0 <= i < |ps| ==> fs[i] == ps[i].0
  {
    if ps == [] then [] else [ps[0].0] + Fields(ps[1..])
  }

  /** The hash after one HSET per pair, in order. */
  function SetFields(h: Hash, ps: seq<Pair>): Hash
    decreases |ps|
  {
    if ps == [] then h
    else SetFields(h, ps[..|ps| - 1])[ps[|ps| - 1].0 := ps[|ps| - 1].1]
  }

  /** A field none of the HSETs names keeps its presence and its value. */
  lemma {:induction false} SetFieldsOther(h: Hash, ps: seq<Pair>, f: string)
    requires f !in Fields(ps)
    ensures f in SetFields(h, ps) <==> f in h
    ensures f in h ==> SetFields(h, ps)[f] == h[f]
    decreases |ps|
  {
    if ps != [] {
      var init := ps[..|ps| - 1];
      assert f != Fields(ps)[|ps| - 1];
      assert forall i :: 0 <= i < |init| ==> Fields(init)[i] == Fields(ps)[i];
      SetFieldsOther(h, init, f);
    }
  }

  /** The field of the i-th HSET holds its value when no later HSET names it. */
  lemma {:induction false} SetFieldsAt(h: Hash, ps: seq<Pair>, i: nat)
    requires i < |ps|
    requires forall j :: i < j < |ps| ==> ps[j].0 != ps[i].0
    ensures ps[i].0 in SetFields(h, ps) && SetFields(h, ps)[ps[i].0] == ps[i].1
    decreases |ps|
  {
    if i < |ps| - 1 {
      SetFieldsAt(h, ps[..|ps| - 1], i);
    }
  }

  /** Distinct field names. */
  predicate DistinctFields(fs: seq<string>) {
    forall i, j :: 0 <= i < j < |fs| ==> fs[i] != fs[j]
  }

  /** Successive HSETs of distinct fields: exactly the named fields change, each to its value. */
  lemma SetFieldsEffect(h: Hash, ps: seq<Pair>)
    requires DistinctFields(Fields(ps))
    ensures forall i :: 0 <= i < |ps| ==> ps[i].0 in SetFields(h, ps) && SetFields(h, ps)[ps[i].0] == ps[i].1
    ensures forall f :: f !in Fields(ps) ==> (f in SetFields(h, ps) <==> f in h)
    ensures forall f :: f !in Fields(ps) && f in h ==> SetFields(h, ps)[f] == h[f]
  {
    forall i | 0 <= i < |ps|
      ensures ps[i].0 in SetFields(h, ps) && SetFields(h, ps)[ps[i].0] == ps[i].1
    {
      forall j | i < j < |ps| ensures ps[j].0 != ps[i].0 {
        assert Fields(ps)[i] != Fields(ps)[j];
      }
      SetFieldsAt(h, ps, i);
    }
    forall f | f !in Fields(ps)
      ensures (f in SetFields(h, ps) <==> f in h) && (f in h ==> SetFields(h, ps)[f] == h[f])
    {
      SetFieldsOther(h, ps, f);
    }
  }

  // ---------------------------------------------------------------------------
  // The cached form of a post

  /** The field names of a cached post, in the order they are written. */
  const POST_FIELDS: seq<string> :=
    ["_id", "userId", "username", "email", "avatarColor", "profilePicture", "post", "bgColor",
     "feelings", "privacy", "gifUrl", "commentsCount", "reactions", "imgVersion", "imgId",
     "videoId", "videoVersion", "createdAt"]

  /** The field names the post update rewrites, in the order it writes them. */
  const EDIT_FIELDS: seq<string> :=
    ["post", "bgColor", "feelings", "privacy", "gifUrl", "videoId", "videoVersion",
     "profilePicture", "imgVersion", "imgId"]

  /** Pairs each field name with its value. */
  function Zip(fs: seq<string>, vs: seq<string>): (ps: seq<Pair>)
    requires |fs| == |vs|
    ensures |ps| == |fs|
    ensures forall i :: 0 <= i < |fs| ==> ps[i] == (fs[i], vs[i])
  {
    if fs == [] then [] else [(fs[0], vs[0])] + Zip(fs[1..], vs[1..])
  }

  /**
   * The values `savePostToCache` writes, field for field: the template-string
   * form of each property (an absent one as "undefined"), the reaction counts
   * JSON-encoded, the creation time as its numeral.
   */
  function PostValues(p: Post): (vs: seq<string>)
    ensures |vs| == |POST_FIELDS|
  {
    [p.id, p.userId, p.username, p.email, p.avatarColor, Template(p.profilePicture),
     Template(p.post), Template(p.bgColor), Template(p.feelings), Template(p.privacy),
     Template(p.gifUrl), IntToString(p.commentsCount), EncodeCounts(p.reactions),
     Template(p.imgVersion), Template(p.imgId), Template(p.videoId), Template(p.videoVersion),
     IntToString(p.createdAt)]
  }

  function PostPairs(p: Post): seq<Pair> {
    Zip(POST_FIELDS, PostValues(p))
  }

  /** The values `updatePostInCache` writes, field for field. */
  function EditValues(u: PostEdit): (vs: seq<string>)
    ensures |vs| == |EDIT_FIELDS|
  {
    [Template(u.post), Template(u.bgColor), Template(u.feelings), Template(u.privacy),
     Template(u.gifUrl), Template(u.videoId), Template(u.videoVersion),
     Template(u.profilePicture), Template(u.imgVersion), Template(u.imgId)]
  }

  function EditPairs(u: PostEdit): seq<Pair> {
    Zip(EDIT_FIELDS, EditValues(u))
  }

  /** (length, first character, last character) tells the field names apart. */
  function Signature(s: string): (int, char, char) {
    (|s|, if |s| > 0 then s[0] else ' ', if |s| > 0 then s[|s| - 1] else ' ')
  }

  lemma FieldNamesDistinct()
    ensures DistinctFields(POST_FIELDS) && DistinctFields(EDIT_FIELDS)
  {
    forall i, j | 0 <= i < j < |POST_FIELDS| ensures POST_FIELDS[i] != POST_FIELDS[j] {
      assert Signature(POST_FIELDS[i]) != Signature(POST_FIELDS[j]);
    }
    forall i, j | 0 <= i < j < |EDIT_FIELDS| ensures EDIT_FIELDS[i] != EDIT_FIELDS[j] {
      assert Signature(EDIT_FIELDS[i]) != Signature(EDIT_FIELDS[j]);
    }
  }

  lemma ZipFields(fs: seq<string>, vs: seq<string>)
    requires |fs| == |vs|
    ensures Fields(Zip(fs, vs)) == fs
  {
    assert forall i :: 0 <= i < |fs| ==> Fields(Zip(fs, vs))[i] == fs[i];
  }

  /**
   * A post read back from the cache: its hash, with the three properties the
   * getters replace by `parseJson(`${post.commentsCount}`)` and so on.
   */
  datatype CachedPost = CachedPost(fields: Hash) {
    function commentsCount(): Json {
      ParseJson(Template(FieldVal(fields, "commentsCount")))
    }

    function reactions(): Json {
      ParseJson(Template(FieldVal(fields, "reactions")))
    }

    function createdAt(): Json {
      ParseJson(Template(FieldVal(fields, "createdAt")))
    }
  }

  /** A post as the update returns it: the hash with only `createdAt` parsed. */
  datatype PostReply = PostReply(fields: Hash, createdAt: Json)

  /** One HGETALL reply, read back as a post. */
  function ReadPost(h: Hash): CachedPost {
    CachedPost(h)
  }

  /** The HGETALL replies for a list of post ids, each read back. */
  function ReadPosts(hs: map<string, Hash>, ids: seq<string>): (r: seq<CachedPost>)
    ensures |r| == |ids|
    ensures forall i :: 0 <= i < |ids| ==> r[i] == ReadPost(HashAt(hs, PostKey(ids[i])))
  {
    seq(|ids|, i requires 0 <= i < |ids| => ReadPost(HashAt(hs, PostKey(ids[i]))))
  }

  datatype Media = Image | Video

  /**
   * The media filters: an image post has a truthy imgId and imgVersion or a
   * truthy gifUrl; a video post a truthy videoId and videoVersion.
   */
  predicate Shows(kind: Media, h: Hash) {
    match kind
    case Image =>
      (Truthy(FieldVal(h, "imgId")) && Truthy(FieldVal(h, "imgVersion"))) || Truthy(FieldVal(h, "gifUrl"))
    case Video =>
      Truthy(FieldVal(h, "videoId")) && Truthy(FieldVal(h, "videoVersion"))
  }

  function KeepMedia(ps: seq<CachedPost>, kind: Media): seq<CachedPost>
    decreases |ps|
  {
    if ps == [] then []
    else
      var last := ps[|ps| - 1];
      KeepMedia(ps[..|ps| - 1], kind) + (if Shows(kind, last.fields) then [last] else [])
  }

  // ---------------------------------------------------------------------------
  // The store after a write

  /** The hashes after `savePostToCache`: the post hash written, postsCount read, adjusted by +1, written back. */
  function SavedHashes(hs: map<string, Hash>, key: string, currentUserId: string, p: Post): map<string, Hash> {
    var written := hs[PostKey(key) := SetFields(HashAt(hs, PostKey(key)), PostPairs(p))];
    var count := AdjustedCount(HGet(hs, UserKey(currentUserId), "postsCount"), 1);
    written[UserKey(currentUserId) := HashAt(written, UserKey(currentUserId))["postsCount" := count]]
  }

  /** The hashes after `deletePostFromCache`: the post hash gone, postsCount adjusted by -1. */
  function DeletedHashes(hs: map<string, Hash>, key: string, currentUserId: string): map<string, Hash> {
    var count := AdjustedCount(HGet(hs, UserKey(currentUserId), "postsCount"), -1);
    var removed := hs - {PostKey(key)};
    removed[UserKey(currentUserId) := HashAt(removed, UserKey(currentUserId))["postsCount" := count]]
  }

  // ---------------------------------------------------------------------------
  // Operations

  /** Successive HSETs on one hash (queued in a MULTI or awaited one by one), in order; no pairs write nothing. */
  method HSetEach(c: Store, key: string, pairs: seq<Pair>)
    requires c.Valid()
    modifies c
    ensures c.Valid() && c.up == old(c.up)
    ensures c.hashes == if pairs == [] then old(c.hashes)
                        else old(c.hashes)[key := SetFields(HashAt(old(c.hashes), key), pairs)]
    ensures c.sorted == old(c.sorted) && c.lists == old(c.lists) && c.collections == old(c.collections)
  {
    var h0 := HashAt(c.hashes, key);
    for i := 0 to |pairs|
      invariant c.Valid() && c.up == old(c.up)
      invariant c.hashes == if i == 0 then old(c.hashes) else old(c.hashes)[key := SetFields(h0, pairs[..i])]
      invariant c.sorted == old(c.sorted) && c.lists == old(c.lists) && c.collections == old(c.collections)
    {
      assert pairs[..i + 1][..i] == pairs[..i];
      c.HSet(key, pairs[i].0, pairs[i].1);
    }
    assert pairs[..|pairs|] == pairs;
  }

  /**
   * savePostToCache.  The score is `parseInt(uId, 10)`; Redis refuses a NaN
   * score, and since that ZADD is awaited the call then fails before any write.
   */
  method SavePostToCache(c: Store, key: string, currentUserId: string, uId: string, p: Post)
    returns (r: Outcome)
    requires c.Valid()
    modifies c
    ensures c.Valid() && c.up == old(c.up)
    ensures (!old(c.up) || ParseInt(uId).None?) ==>
      r == Fail(ServerError(SERVER_ERROR_MESSAGE)) && c.hashes == old(c.hashes) && c.sorted == old(c.sorted)
    ensures old(c.up) && ParseInt(uId).Some? ==>
      r == Pass
      && c.sorted == old(c.sorted)[POST_SET := SortedSet.Add(SortedAt(old(c.sorted), POST_SET), key, ParseInt(uId).value)]
      && c.hashes == SavedHashes(old(c.hashes), key, currentUserId, p)
    ensures c.lists == old(c.lists) && c.collections == old(c.collections)
  {
    if !c.up {
      return Fail(ServerError(SERVER_ERROR_MESSAGE));
    }
    var postCount := HGet(c.hashes, UserKey(currentUserId), "postsCount");
    var score := ParseInt(uId);
    if score.None? {
      return Fail(ServerError(SERVER_ERROR_MESSAGE));
    }
    c.ZAdd(POST_SET, key, score.value);
    HSetEach(c, PostKey(key), PostPairs(p));
    c.HSet(UserKey(currentUserId), "postsCount", AdjustedCount(postCount, 1));
    r := Pass;
  }

  /** getPostsFromCache: the posts at ZRANGE key start end, read back in set order. */
  method GetPostsFromCache(c: Store, key: string, start: int, end: int) returns (r: Result<seq<CachedPost>>)
    ensures !c.up ==> r == Err(ServerError(SERVER_ERROR_MESSAGE))
    ensures c.up ==>
      var ids := SortedSet.RangeByIndex(SortedAt(c.sorted, key), start, end);
      r.Ok? && |r.value| == |ids|
      && forall i :: 0 <= i < |ids| ==> r.value[i] == ReadPost(HashAt(c.hashes, PostKey(ids[i])))
  {
    if !c.up {
      return Err(ServerError(SERVER_ERROR_MESSAGE));
    }
    var ids := SortedSet.RangeByIndex(SortedAt(c.sorted, key), start, end);
    var posts := ReadPostsLoop(c.hashes, ids);
    r := Ok(posts);
  }

  /** The HGETALL batch and the decode loop shared by the post getters. */
  method ReadPostsLoop(hs: map<string, Hash>, ids: seq<string>) returns (posts: seq<CachedPost>)
    ensures posts == ReadPosts(hs, ids)
  {
    posts := [];
    for i := 0 to |ids|
      invariant |posts| == i
      invariant forall j :: 0 <= j < i ==> posts[j] == ReadPost(HashAt(hs, PostKey(ids[j])))
    {
      posts := posts + [ReadPost(HashAt(hs, PostKey(ids[i])))];
    }
  }

  /** The decode loop with a media filter: keeps the posts that show that media. */
  method KeepMediaLoop(all: seq<CachedPost>, kind: Media) returns (kept: seq<CachedPost>)
    ensures kept == KeepMedia(all, kind)
  {
    kept := [];
    for i := 0 to |all|
      invariant kept == KeepMedia(all[..i], kind)
    {
      assert all[..i + 1][..i] == all[..i];
      if Shows(kind, all[i].fields) {
        kept := kept + [all[i]];
      }
    }
    assert all[..|all|] == all;
  }

  /** getTotalPostsInCache: ZCARD of the sorted set `post`. */
  method GetTotalPostsInCache(c: Store) returns (r: Result<nat>)
    ensures !c.up ==> r == Err(ServerError(SERVER_ERROR_MESSAGE))
    ensures c.up ==> r == Ok(|SortedAt(c.sorted, POST_SET)|)
  {
    if !c.up {
      return Err(ServerError(SERVER_ERROR_MESSAGE));
    }
    r := Ok(SortedSet.Card(SortedAt(c.sorted, POST_SET)));
  }

  /** getPostsWithImagesFromCache: the range, keeping the posts with an image or a GIF. */
  method GetPostsWithImagesFromCache(c: Store, key: string, start: int, end: int)
    returns (r: Result<seq<CachedPost>>)
    ensures !c.up ==> r == Err(ServerError(SERVER_ERROR_MESSAGE))
    ensures c.up ==>
      r == Ok(KeepMedia(ReadPosts(c.hashes, SortedSet.RangeByIndex(SortedAt(c.sorted, key), start, end)), Image))
  {
    if !c.up {
      return Err(ServerError(SERVER_ERROR_MESSAGE));
    }
    var all := ReadPostsLoop(c.hashes, SortedSet.RangeByIndex(SortedAt(c.sorted, key), start, end));
    var kept := KeepMediaLoop(all, Image);
    r := Ok(kept);
  }

  /** getPostsWithVideosFromCache: the range, keeping the posts with a video. */
  method GetPostsWithVideosFromCache(c: Store, key: string, start: int, end: int)
    returns (r: Result<seq<CachedPost>>)
    ensures !c.up ==> r == Err(ServerError(SERVER_ERROR_MESSAGE))
    ensures c.up ==>
      r == Ok(KeepMedia(ReadPosts(c.hashes, SortedSet.RangeByIndex(SortedAt(c.sorted, key), start, end)), Video))
  {
    if !c.up {
      return Err(ServerError(SERVER_ERROR_MESSAGE));
    }
    var all := ReadPostsLoop(c.hashes, SortedSet.RangeByIndex(SortedAt(c.sorted, key), start, end));
    var kept := KeepMediaLoop(all, Video);
    r := Ok(kept);
  }

  /** getUserPostsFromCache: the posts scored exactly `uId`, last member first. */
  method GetUserPostsFromCache(c: Store, key: string, uId: int) returns (r: Result<seq<CachedPost>>)
    ensures !c.up ==> r == Err(ServerError(SERVER_ERROR_MESSAGE))
    ensures c.up ==>
      var ids := SortedSet.RangeByScoreRev(SortedAt(c.sorted, key), uId, uId);
      r.Ok? && |r.value| == SortedSet.Count(SortedAt(c.sorted, key), uId, uId)
      && forall i :: 0 <= i < |ids| ==> r.value[i] == ReadPost(HashAt(c.hashes, PostKey(ids[i])))
  {
    if !c.up {
      return Err(ServerError(SERVER_ERROR_MESSAGE));
    }
    var ids := SortedSet.RangeByScoreRev(SortedAt(c.sorted, key), uId, uId);
    var posts := ReadPostsLoop(c.hashes, ids);
    r := Ok(posts);
  }

  /** getTotalUserPostsInCache: ZCOUNT post uId uId. */
  method GetTotalUserPostsInCache(c: Store, uId: int) returns (r: Result<nat>)
    ensures !c.up ==> r == Err(ServerError(SERVER_ERROR_MESSAGE))
    ensures c.up ==> r.Ok? && r.value <= |SortedAt(c.sorted, POST_SET)|
    ensures c.up ==> r.value == |SortedSet.InScore(SortedAt(c.sorted, POST_SET), uId, uId)|
  {
    if !c.up {
      return Err(ServerError(SERVER_ERROR_MESSAGE));
    }
    r := Ok(SortedSet.Count(SortedAt(c.sorted, POST_SET), uId, uId));
  }

  /**
   * deletePostFromCache: ZREM post key, DEL posts:<key>, postsCount read,
   * adjusted by -1, written back.  The post's comment and reaction lists stay.
   */
  method DeletePostFromCache(c: Store, key: string, currentUserId: string) returns (r: Outcome)
    requires c.Valid()
    modifies c
    ensures c.Valid() && c.up == old(c.up)
    ensures !old(c.up) ==>
      r == Fail(ServerError(SERVER_ERROR_MESSAGE)) && c.hashes == old(c.hashes)
      && c.sorted == old(c.sorted) && c.lists == old(c.lists) && c.collections == old(c.collections)
    ensures old(c.up) ==>
      r == Pass
      && c.sorted == old(c.sorted)[POST_SET := SortedSet.Remove(SortedAt(old(c.sorted), POST_SET), key)] - {PostKey(key)}
      && c.hashes == DeletedHashes(old(c.hashes), key, currentUserId)
      && c.lists == old(c.lists) - {PostKey(key)}
      && c.collections == old(c.collections) - {PostKey(key)}
  {
    if !c.up {
      return Fail(ServerError(SERVER_ERROR_MESSAGE));
    }
    var postCount := HGet(c.hashes, UserKey(currentUserId), "postsCount");
    c.ZRem(POST_SET, key);
    c.Del(PostKey(key));
    c.HSet(UserKey(currentUserId), "postsCount", AdjustedCount(postCount, -1));
    r := Pass;
  }

  /**
   * updatePostInCache: one awaited HSET per editable field, then HGETALL of
   * the post, returned with `createdAt` parsed.
   */
  method UpdatePostInCache(c: Store, key: string, u: PostEdit) returns (r: Result<PostReply>)
    requires c.Valid()
    modifies c
    ensures c.Valid() && c.up == old(c.up)
    ensures c.sorted == old(c.sorted) && c.lists == old(c.lists) && c.collections == old(c.collections)
    ensures !old(c.up) ==> r == Err(ServerError(SERVER_ERROR_MESSAGE)) && c.hashes == old(c.hashes)
    ensures old(c.up) ==>
      var h := SetFields(HashAt(old(c.hashes), PostKey(key)), EditPairs(u));
      c.hashes == old(c.hashes)[PostKey(key) := h]
      && r == Ok(PostReply(h, ParseJson(Template(FieldVal(h, "createdAt")))))
  {
    if !c.up {
      return Err(ServerError(SERVER_ERROR_MESSAGE));
    }
    HSetEach(c, PostKey(key), EditPairs(u));
    var h := HashAt(c.hashes, PostKey(key));
    r := Ok(PostReply(h, ParseJson(Template(FieldVal(h, "createdAt")))));
  }

  // ---------------------------------------------------------------------------
  // Properties

  /**
   * A saved post reads back field for field: each of the 18 properties in
   * its cached string form, commentsCount and the reaction counts as the
   * numbers written, and the creation time as the same instant.
   */
  lemma SavedPostReadsBack(hs: map<string, Hash>, key: string, currentUserId: string, p: Post)
    requires StandardCounts(p.reactions)
    ensures var v := ReadPost(HashAt(SavedHashes(hs, key, currentUserId, p), PostKey(key)));
      (forall i :: 0 <= i < |POST_FIELDS| ==>
         POST_FIELDS[i] in v.fields && v.fields[POST_FIELDS[i]] == PostValues(p)[i])
      && v.commentsCount() == JNum(p.commentsCount)
      && v.reactions() == JCounts(p.reactions)
      && v.createdAt() == JNum(p.createdAt)
  {
    PostKeyNotUserKey(key, currentUserId);
    var h := SetFields(HashAt(hs, PostKey(key)), PostPairs(p));
    assert HashAt(SavedHashes(hs, key, currentUserId, p), PostKey(key)) == h;
    SavedFields(HashAt(hs, PostKey(key)), p);
    SavedParsedFields(HashAt(hs, PostKey(key)), p);
    ParseJsonOfNumeral(p.commentsCount);
    ParseJsonOfNumeral(p.createdAt);
    ParseJsonOfCounts(p.reactions);
  }

  lemma SavedFields(h: Hash, p: Post)
    ensures forall i :: 0 <= i < |POST_FIELDS| ==>
      POST_FIELDS[i] in SetFields(h, PostPairs(p)) && SetFields(h, PostPairs(p))[POST_FIELDS[i]] == PostValues(p)[i]
  {
    var ps := PostPairs(p);
    FieldNamesDistinct();
    ZipFields(POST_FIELDS, PostValues(p));
    SetFieldsEffect(h, ps);
    forall i | 0 <= i < |POST_FIELDS|
      ensures POST_FIELDS[i] in SetFields(h, ps) && SetFields(h, ps)[POST_FIELDS[i]] == PostValues(p)[i]
    {
      assert ps[i] == (POST_FIELDS[i], PostValues(p)[i]);
    }
  }

  lemma SavedParsedFields(h: Hash, p: Post)
    ensures FieldVal(SetFields(h, PostPairs(p)), "commentsCount") == Some(IntToString(p.commentsCount))
    ensures FieldVal(SetFields(h, PostPairs(p)), "reactions") == Some(EncodeCounts(p.reactions))
    ensures FieldVal(SetFields(h, PostPairs(p)), "createdAt") == Some(IntToString(p.createdAt))
    ensures FieldVal(SetFields(h, PostPairs(p)), "gifUrl") == Some(Template(p.gifUrl))
  {
    SavedFields(h, p);
    var vs := PostValues(p);
    assert POST_FIELDS[11] == "commentsCount" && vs[11] == IntToString(p.commentsCount);
    assert POST_FIELDS[12] == "reactions" && vs[12] == EncodeCounts(p.reactions);
    assert POST_FIELDS[17] == "createdAt" && vs[17] == IntToString(p.createdAt);
    assert POST_FIELDS[10] == "gifUrl" && vs[10] == Template(p.gifUrl);
  }

  /** Saving raises the author's cached postsCount by exactly one. */
  lemma SaveRaisesPostsCount(hs: map<string, Hash>, key: string, currentUserId: string, p: Post, n: int)
    requires HGet(hs, UserKey(currentUserId), "postsCount") == Some(IntToString(n))
    ensures HGet(SavedHashes(hs, key, currentUserId, p), UserKey(currentUserId), "postsCount") == Some(IntToString(n + 1))
  {
    AdjustedCountOfNumeral(n, 1);
  }

  /** Saving touches only the post's hash and its author's hash. */
  lemma SaveTouchesTwoHashes(hs: map<string, Hash>, key: string, currentUserId: string, p: Post, k: string)
    requires k != PostKey(key) && k != UserKey(currentUserId)
    ensures HashAt(SavedHashes(hs, key, currentUserId, p), k) == HashAt(hs, k)
  {
  }

  /**
   * Deleting lowers the author's cached postsCount by exactly one, removes
   * the post hash and keeps every other hash.
   */
  lemma DeleteLowersPostsCount(hs: map<string, Hash>, key: string, currentUserId: string, n: int)
    requires HGet(hs, UserKey(currentUserId), "postsCount") == Some(IntToString(n))
    ensures HGet(DeletedHashes(hs, key, currentUserId), UserKey(currentUserId), "postsCount") == Some(IntToString(n - 1))
    ensures PostKey(key) !in DeletedHashes(hs, key, currentUserId)
    ensures forall k :: k != PostKey(key) && k != UserKey(currentUserId) ==>
      HashAt(DeletedHashes(hs, key, currentUserId), k) == HashAt(hs, k)
  {
    AdjustedCountOfNumeral(n, -1);
    PostKeyNotUserKey(key, currentUserId);
  }

  /** Deleting a post leaves its comment list and its reaction list in place. */
  lemma DeleteKeepsCommentsAndReactions(ls: map<string, seq<string>>, key: string)
    ensures ListAt(ls - {PostKey(key)}, CommentsKey(key)) == ListAt(ls, CommentsKey(key))
    ensures ListAt(ls - {PostKey(key)}, ReactionsKey(key)) == ListAt(ls, ReactionsKey(key))
  {
    assert PostKey(key)[0] == 'p' && CommentsKey(key)[0] == 'c' && ReactionsKey(key)[0] == 'r';
  }

  /** HSETs of distinct names paired with values: each name gets its value, and no other field changes. */
  lemma ZippedFieldsEffect(h: Hash, fs: seq<string>, vs: seq<string>)
    requires |fs| == |vs| && DistinctFields(fs)
    ensures var h' := SetFields(h, Zip(fs, vs));
      (forall i :: 0 <= i < |fs| ==> fs[i] in h' && h'[fs[i]] == vs[i])
      && h'.Keys == h.Keys + (set f | f in fs)
      && (forall f :: f in h && f !in fs ==> h'[f] == h[f])
  {
    var ps := Zip(fs, vs);
    ZipFields(fs, vs);
    SetFieldsEffect(h, ps);
    var h' := SetFields(h, ps);
    forall f | f in h' ensures f in h || f in fs {
      if f !in fs {
        SetFieldsOther(h, ps, f);
      }
    }
  }

  /**
   * The update rewrites exactly the ten editable fields; every other field
   * (commentsCount, reactions, _id, userId, createdAt, ...) keeps its value.
   */
  lemma UpdateChangesTenFields(h: Hash, u: PostEdit)
    ensures var h' := SetFields(h, EditPairs(u));
      (forall i :: 0 <= i < |EDIT_FIELDS| ==> EDIT_FIELDS[i] in h' && h'[EDIT_FIELDS[i]] == EditValues(u)[i])
      && h'.Keys == h.Keys + (set f | f in EDIT_FIELDS)
      && (forall f :: f in h && f !in EDIT_FIELDS ==> h'[f] == h[f])
  {
    FieldNamesDistinct();
    ZippedFieldsEffect(h, EDIT_FIELDS, EditValues(u));
  }

  /** A filtered read keeps exactly the posts that show the media. */
  lemma {:induction false} KeepMediaMembers(ps: seq<CachedPost>, kind: Media, x: CachedPost)
    ensures x in KeepMedia(ps, kind) <==> x in ps && Shows(kind, x.fields)
    decreases |ps|
  {
    if ps != [] {
      KeepMediaMembers(ps[..|ps| - 1], kind, x);
      assert ps == ps[..|ps| - 1] + [ps[|ps| - 1]];
    }
  }

  /** Filtering commutes with concatenation, so the kept posts keep their relative order. */
  lemma {:induction false} KeepMediaAppend(a: seq<CachedPost>, b: seq<CachedPost>, kind: Media)
    ensures KeepMedia(a + b, kind) == KeepMedia(a, kind) + KeepMedia(b, kind)
    decreases |b|
  {
    if b == [] {
      assert a + b == a;
    } else {
      var b' := b[..|b| - 1];
      assert (a + b)[..|a + b| - 1] == a + b';
      KeepMediaAppend(a, b', kind);
    }
  }

  /**
   * A post saved without a GIF URL is stored with gifUrl "undefined", which
   * is truthy, so the image getter lists it.
   */
  lemma UndefinedGifCountsAsImage(hs: map<string, Hash>, key: string, currentUserId: string, p: Post)
    requires p.gifUrl.None?
    ensures Shows(Image, HashAt(SavedHashes(hs, key, currentUserId, p), PostKey(key)))
  {
    PostKeyNotUserKey(key, currentUserId);
    SavedParsedFields(HashAt(hs, PostKey(key)), p);
  }
}
