/**
 * The post read routes: a page of all posts, of posts with images and of
 * posts with videos.  Each reads the page from the cache and falls back to
 * the document store when the cache has nothing for it.
 */
module PostQueries {
  import opened Wrappers
  import opened Numbers
  import opened Records
  import SortedSet
  import opened CacheStore
  import opened PostCache
  import opened Documents
  import PostService

  const PAGE_SIZE: nat := 10

  /** The cache window of page `n`: ZRANGE positions `start..stop`, both included. */
  datatype Window = Window(start: int, stop: int)

  /** `skip = (n - 1) * PAGE_SIZE`, shared by both stores. */
  function Skip(n: int): int {
    (n - 1) * PAGE_SIZE
  }

  /** `newSkip = skip === 0 ? skip : skip + 1` up to `limit = PAGE_SIZE * n`. */
  function CacheWindow(n: int): (w: Window)
    ensures n == 1 ==> w == Window(0, PAGE_SIZE)
    ensures n >= 2 ==> w.start == Skip(n) + 1 && w.stop == PAGE_SIZE * n
  {
    var skip := Skip(n);
    Window(if skip == 0 then skip else skip + 1, PAGE_SIZE * n)
  }

  /** The store window as written: `$skip` is `skip` and `$limit` is `PAGE_SIZE * n`, a count. */
  function StoreWindowAsWritten(n: int): (w: (int, int))
    ensures w == (Skip(n), PAGE_SIZE * n)
  {
    (Skip(n), PAGE_SIZE * n)
  }

  /** The store window the paging evidently means: `PAGE_SIZE` posts from `skip`. */
  function StoreWindow(n: int): (w: (int, int))
    ensures w.1 == PAGE_SIZE
    ensures n >= 1 ==> w.0 >= 0
  {
    (Skip(n), PAGE_SIZE)
  }

  /** Where a page of posts came from. */
  datatype PostList = Cached(posts: seq<CachedPost>) | Stored(docs: seq<Doc>)

  datatype PostsReply = PostsReply(message: string, posts: PostList, totalPosts: Option<nat>)

  /** The members the cache window of page `n` selects. */
  function CachePage(c: map<string, seq<SortedSet.Entry>>, n: int): seq<string> {
    SortedSet.RangeByIndex(SortedAt(c, POST_SET), CacheWindow(n).start, CacheWindow(n).stop)
  }

  /**
   * The store fallback as the routes call it: `getPosts` for `q` with
   * `$skip` `skip` and `$limit` `PAGE_SIZE * n`, so a page past the first
   * holds up to `PAGE_SIZE * n` posts.
   */
  function StorePage(posts: seq<Doc>, q: PostService.PostQuery, n: int): Result<seq<Doc>> {
    PostService.GetPosts(posts, q, StoreWindowAsWritten(n).0, StoreWindowAsWritten(n).1)
  }

  /**
   * Get.posts.  A page that does not parse makes the cache command fail;
   * otherwise the cache page is returned with the cache's count, or, when
   * it is empty, the store page with the store's count.
   */
  method AllPosts(c: Store, db: Db, page: string) returns (r: Result<PostsReply>)
    ensures ParseInt(page).None? || !c.up ==> r == Err(ServerError(SERVER_ERROR_MESSAGE))
    ensures ParseInt(page).Some? && c.up && CachePage(c.sorted, ParseInt(page).value) != [] ==>
      r == Ok(PostsReply("All posts", Cached(ReadPosts(c.hashes, CachePage(c.sorted, ParseInt(page).value))),
                         Some(|SortedAt(c.sorted, POST_SET)|)))
    ensures ParseInt(page).Some? && c.up && CachePage(c.sorted, ParseInt(page).value) == [] ==>
      match StorePage(db.posts, map[], ParseInt(page).value)
      case Err(e) => r == Err(e)
      case Ok(docs) => r == Ok(PostsReply("All posts", Stored(docs), Some(|db.posts|)))
  {
    if ParseInt(page).None? {
      return Err(ServerError(SERVER_ERROR_MESSAGE));
    }
    var n := ParseInt(page).value;
    var w := CacheWindow(n);
    var cached := GetPostsFromCache(c, POST_SET, w.start, w.stop);
    if cached.Err? {
      return Err(cached.error);
    }
    assert cached.value == ReadPosts(c.hashes, CachePage(c.sorted, n));
    if |cached.value| > 0 {
      var total := GetTotalPostsInCache(c);
      return Ok(PostsReply("All posts", Cached(cached.value), Some(total.value)));
    }
    var stored := StorePage(db.posts, map[], n);
    if stored.Err? {
      return Err(stored.error);
    }
    r := Ok(PostsReply("All posts", Stored(stored.value), Some(PostService.PostsCount(db.posts))));
  }

  /** The query each media route hands to the store fallback. */
  function MediaQuery(kind: Media): PostService.PostQuery {
    match kind
    case Image => map["imgId" := "$ne", "gifUrl" := "$ne"]
    case Video => map["videoId" := "$ne"]
  }

  function MediaMessage(kind: Media): string {
    match kind
    case Image => "All posts with images"
    case Video => "All posts with videos"
  }

  /** The cache page of page `n`, filtered by media. */
  function CacheMediaPage(c: Store, n: int, kind: Media): seq<CachedPost>
    reads c
  {
    KeepMedia(ReadPosts(c.hashes, CachePage(c.sorted, n)), kind)
  }

  /**
   * Get.postsWithImages and Get.postsWithVideos: the cache page keeping only
   * posts of that media, or, when none is left, the store page of that media.
   */
  method MediaPosts(c: Store, db: Db, page: string, kind: Media) returns (r: Result<PostsReply>)
    ensures ParseInt(page).None? || !c.up ==> r == Err(ServerError(SERVER_ERROR_MESSAGE))
    ensures ParseInt(page).Some? && c.up && CacheMediaPage(c, ParseInt(page).value, kind) != [] ==>
      r == Ok(PostsReply(MediaMessage(kind), Cached(CacheMediaPage(c, ParseInt(page).value, kind)), None))
    ensures ParseInt(page).Some? && c.up && CacheMediaPage(c, ParseInt(page).value, kind) == [] ==>
      match StorePage(db.posts, MediaQuery(kind), ParseInt(page).value)
      case Err(e) => r == Err(e)
      case Ok(docs) => r == Ok(PostsReply(MediaMessage(kind), Stored(docs), None))
  {
    if ParseInt(page).None? {
      return Err(ServerError(SERVER_ERROR_MESSAGE));
    }
    var n := ParseInt(page).value;
    var w := CacheWindow(n);
    var cached: Result<seq<CachedPost>>;
    match kind {
      case Image => cached := GetPostsWithImagesFromCache(c, POST_SET, w.start, w.stop);
      case Video => cached := GetPostsWithVideosFromCache(c, POST_SET, w.start, w.stop);
    }
    if cached.Err? {
      return Err(cached.error);
    }
    if |cached.value| > 0 {
      return Ok(PostsReply(MediaMessage(kind), Cached(cached.value), None));
    }
    var stored := StorePage(db.posts, MediaQuery(kind), n);
    if stored.Err? {
      return Err(stored.error);
    }
    r := Ok(PostsReply(MediaMessage(kind), Stored(stored.value), None));
  }

  // ---------------------------------------------------------------------------
  // Properties

  /** The end (exclusive) of index range `[a, b]` once clipped to a set of `len` entries. */
  function RangeEnd(len: int, a: int, b: int): int {
    if a >= len || a > b then a else if b + 1 <= len then b + 1 else len
  }

  /** With non-negative bounds, an index range holds the members from `a` up to its clipped end. */
  lemma RangeAsSlice(z: seq<SortedSet.Entry>, a: int, b: int)
    requires 0 <= a && 0 <= b
    ensures var r := SortedSet.RangeByIndex(z, a, b);
      |r| == RangeEnd(|z|, a, b) - a && forall i :: 0 <= i < |r| ==> r[i] == z[a + i].member
  {
    var t := if b >= |z| then |z| - 1 else b;
    if a < |z| && a <= t {
      var slice := z[a..t + 1];
      assert SortedSet.RangeByIndex(z, a, b) == SortedSet.Members(slice);
      assert forall i :: 0 <= i < |slice| ==> slice[i] == z[a + i];
    } else {
      assert SortedSet.RangeByIndex(z, a, b) == [];
    }
  }

  /** Index ranges `[a, b]` and `[b + 1, c]` together are the range `[a, c]`. */
  lemma RangesAdjacent(z: seq<SortedSet.Entry>, a: int, b: int, c: int)
    requires 0 <= a <= b <= c
    ensures SortedSet.RangeByIndex(z, a, b) + SortedSet.RangeByIndex(z, b + 1, c) == SortedSet.RangeByIndex(z, a, c)
  {
    var left, right, all := SortedSet.RangeByIndex(z, a, b), SortedSet.RangeByIndex(z, b + 1, c),
                            SortedSet.RangeByIndex(z, a, c);
    RangeAsSlice(z, a, b);
    RangeAsSlice(z, b + 1, c);
    RangeAsSlice(z, a, c);
    assert |left| == RangeEnd(|z|, a, b) - a && |right| == RangeEnd(|z|, b + 1, c) - (b + 1);
    assert |all| == RangeEnd(|z|, a, c) - a;
    assert |left| + |right| == |all|;
    forall i | 0 <= i < |all| ensures (left + right)[i] == all[i] {
      if i >= |left| {
        assert right[i - |left|] == z[b + 1 + i - |left|].member;
      }
    }
  }

  /**
   * Consecutive cache pages are adjacent ranges of the sorted set: together
   * they are the single range from the first page's start to the second
   * page's stop, so no post is skipped or shown twice.
   */
  lemma CachePagesAdjacent(z: seq<SortedSet.Entry>, n: int)
    requires n >= 1
    ensures SortedSet.RangeByIndex(z, CacheWindow(n).start, CacheWindow(n).stop)
            + SortedSet.RangeByIndex(z, CacheWindow(n + 1).start, CacheWindow(n + 1).stop)
            == SortedSet.RangeByIndex(z, CacheWindow(n).start, CacheWindow(n + 1).stop)
  {
    var w1, w2 := CacheWindow(n), CacheWindow(n + 1);
    assert w2.start == w1.stop + 1 && 0 <= w1.start <= w1.stop <= w2.stop;
    RangesAdjacent(z, w1.start, w1.stop, w2.stop);
  }

  /** The first cache page holds eleven posts and every later one ten, when the set has that many. */
  lemma CachePageSizes(z: seq<SortedSet.Entry>, n: int)
    requires n >= 1 && |z| > PAGE_SIZE * n
    ensures |SortedSet.RangeByIndex(z, CacheWindow(n).start, CacheWindow(n).stop)| == if n == 1 then 11 else 10
  {
  }

  /**
   * With the window as written, pages 2 and 3 from the store share ten
   * posts: the post at position 20 is the last-but-nine of page 2 and the
   * first of page 3.
   */
  lemma StorePagesOverlapAsWritten(s: seq<Doc>)
    requires |s| >= 30
    ensures var p2 := Paged(s, StoreWindowAsWritten(2).0, StoreWindowAsWritten(2).1);
            var p3 := Paged(s, StoreWindowAsWritten(3).0, StoreWindowAsWritten(3).1);
      |p2| == 20 && p2[10] == s[20] && p3[0] == s[20]
  {
  }

  /**
   * With the corrected window, consecutive store pages are adjacent slices
   * of the sorted result: page `n` followed by page `n + 1` is the slice of
   * twenty from page `n`'s start.
   */
  lemma StorePagesAdjacent<T>(s: seq<T>, n: int)
    requires n >= 1
    ensures Paged(s, StoreWindow(n).0, PAGE_SIZE) + Paged(s, StoreWindow(n + 1).0, PAGE_SIZE)
            == Paged(s, StoreWindow(n).0, 2 * PAGE_SIZE)
  {
    var a := StoreWindow(n).0;
    assert StoreWindow(n + 1).0 == a + PAGE_SIZE;
    if a + PAGE_SIZE <= |s| {
      assert s[a..a + PAGE_SIZE] + Paged(s, a + PAGE_SIZE, PAGE_SIZE) == s[a..a + |Paged(s, a, 2 * PAGE_SIZE)|];
    }
  }

  /**
   * The page the routes return from the store begins with the corrected
   * page and runs on past it: the corrected page is a prefix of it.
   */
  lemma StorePageExtendsCorrected<T>(s: seq<T>, n: int)
    requires n >= 1
    ensures var asWritten := Paged(s, StoreWindowAsWritten(n).0, StoreWindowAsWritten(n).1);
      var corrected := Paged(s, StoreWindow(n).0, StoreWindow(n).1);
      |corrected| <= |asWritten| && asWritten[..|corrected|] == corrected
  {
    var a := Skip(n);
    assert PAGE_SIZE <= PAGE_SIZE * n;
    if a <= |s| {
      var w, c := Paged(s, a, PAGE_SIZE * n), Paged(s, a, PAGE_SIZE);
      assert w == s[a..a + |w|] && c == s[a..a + |c|];
    }
  }

  /**
   * A page that is not a number, or one below 1, never reaches a store
   * page: the former fails in the cache, the latter's negative skip is
   * rejected by the store.
   */
  lemma PagesBelowOneFail(posts: seq<Doc>, q: PostService.PostQuery, n: int)
    requires n < 1
    ensures StorePage(posts, q, n).Err?
  {
  }
}
