/**
 * The follower routes: follow a user, unfollow a user, and the two reads
 * (whom the current user follows, who follows a given user).
 *
 * The follower cache and the user cache are not part of this model.  The
 * follow counters are taken to be HINCRBY on the user's hash, the
 * following and follower collections to be sets of user ids, and the
 * cached user to be the user's hash as stored.
 */
module FollowerControllers {
  import opened Wrappers
  import opened Numbers
  import opened Records
  import opened CacheStore
  import opened Effects

  /**
   * HINCRBY of a hash field by `delta`: a missing field counts as 0; a
   * field that is not an integer numeral makes the command fail (`None`).
   */
  function IncrBy(v: Option<string>, delta: int): (r: Option<string>)
    ensures v.None? ==> r == Some(IntToString(delta))
    ensures v.Some? && JsonInt(v.value).Some? ==> r == Some(IntToString(JsonInt(v.value).value + delta))
    ensures v.Some? && JsonInt(v.value).None? ==> r.None?
  {
    match v
    case None => Some(IntToString(delta))
    case Some(s) =>
      match JsonInt(s)
      case Some(i) => Some(IntToString(i + delta))
      case None => None
  }

  /** The hashes after the counter update; unchanged when the command fails. */
  function CountUpdated(hs: map<string, Hash>, userId: string, field: string, delta: int): map<string, Hash> {
    match IncrBy(HGet(hs, UserKey(userId), field), delta)
    case Some(v) => hs[UserKey(userId) := HashAt(hs, UserKey(userId))[field := v]]
    case None => hs
  }

  /** updateFollowersCountInCache: move one of the user's follow counters by `delta`. */
  method UpdateFollowersCount(c: Store, userId: string, field: string, delta: int) returns (r: Outcome)
    requires c.Valid()
    modifies c
    ensures c.Valid() && c.up == old(c.up)
    ensures c.lists == old(c.lists) && c.sorted == old(c.sorted) && c.collections == old(c.collections)
    ensures !old(c.up) ==> r == Fail(ServerError(SERVER_ERROR_MESSAGE)) && c.hashes == old(c.hashes)
    ensures old(c.up) ==>
      c.hashes == CountUpdated(old(c.hashes), userId, field, delta)
      && (r.Pass? <==> IncrBy(HGet(old(c.hashes), UserKey(userId), field), delta).Some?)
      && (r.Fail? ==> r.error == ServerError(SERVER_ERROR_MESSAGE))
  {
    if !c.up {
      return Fail(ServerError(SERVER_ERROR_MESSAGE));
    }
    var v := IncrBy(HGet(c.hashes, UserKey(userId), field), delta);
    if v.None? {
      return Fail(ServerError(SERVER_ERROR_MESSAGE));
    }
    c.HSet(UserKey(userId), field, v.value);
    r := Pass;
  }

  /** A numeric field of the cached user, as the user cache parses it. */
  function JsonField(h: Hash, f: string): Option<Json> {
    match FieldVal(h, f)
    case Some(s) => Some(ParseJson(s))
    case None => None
  }

  /**
   * userData: the followed user as the 'add follower' event shows it.  The
   * posts counter is published as `postCount`; an absent `_id` gives the
   * fresh ObjectId that `new ObjectId(undefined)` makes.
   */
  function UserData(h: Hash, freshId: string): (d: FollowerData)
    ensures d.id == (if "_id" in h then h["_id"] else freshId)
    ensures d.postCount == JsonField(h, "postsCount")
    ensures d.followersCount == JsonField(h, "followersCount") && d.followingCount == JsonField(h, "followingCount")
    ensures d.username == FieldVal(h, "username") && d.uId == FieldVal(h, "uId")
    ensures d.userProfile == h
  {
    FollowerData(if "_id" in h then h["_id"] else freshId,
                 FieldVal(h, "username"), FieldVal(h, "avatarColor"),
                 JsonField(h, "postsCount"), JsonField(h, "followersCount"), JsonField(h, "followingCount"),
                 FieldVal(h, "profilePicture"), FieldVal(h, "uId"), h)
  }

  /** The two counter updates of a follow: the followed user's followers, the follower's following. */
  function FollowedHashes(hs: map<string, Hash>, me: string, followerId: string): map<string, Hash> {
    CountUpdated(CountUpdated(hs, followerId, "followersCount", 1), me, "followingCount", 1)
  }

  function FollowedCollections(cs: map<string, set<string>>, me: string, followerId: string): map<string, set<string>> {
    var cs1 := cs[FollowingKey(me) := CollectionAt(cs, FollowingKey(me)) + {followerId}];
    cs1[FollowersKey(followerId) := CollectionAt(cs1, FollowersKey(followerId)) + {me}]
  }

  /**
   * Add.follower.  Both counters are moved (the two updates run side by
   * side, so one failing does not stop the other), then the followed user
   * is read back and announced, then both collections gain their member and
   * 'addFollowerToDB' is queued.  A failed counter update ends the request
   * before anything is announced.
   */
  method Follow(c: Store, out: Outbox, user: CurrentUser, followerId: string,
                freshId: string, followerDocumentId: string)
    returns (r: Result<Response>)
    requires c.Valid()
    modifies c, out
    ensures c.Valid() && c.up == old(c.up) && c.lists == old(c.lists) && c.sorted == old(c.sorted)
    ensures !old(c.up) ==>
      r == Err(ServerError(SERVER_ERROR_MESSAGE)) && c.hashes == old(c.hashes)
      && c.collections == old(c.collections) && out.emits == old(out.emits) && out.jobs == old(out.jobs)
    ensures old(c.up) ==> c.hashes == FollowedHashes(old(c.hashes), user.userId, followerId)
    ensures old(c.up) && r.Err? ==>
      r == Err(ServerError(SERVER_ERROR_MESSAGE))
      && c.collections == old(c.collections) && out.emits == old(out.emits) && out.jobs == old(out.jobs)
    ensures old(c.up) && r.Ok? ==>
      r.value == Response(OK, "Following user now")
      && c.collections == FollowedCollections(old(c.collections), user.userId, followerId)
      && out.emits == old(out.emits) + [Emit("add follower",
           NewFollower(UserData(HashAt(c.hashes, UserKey(followerId)), freshId)), Everyone)]
      && out.jobs == old(out.jobs) + [Job("addFollowerToDB",
           FollowerJob(user.userId, followerId, user.username, followerDocumentId), JOB_OPTIONS)]
    ensures old(c.up) ==>
      (r.Ok? <==> IncrBy(HGet(old(c.hashes), UserKey(followerId), "followersCount"), 1).Some?
                  && IncrBy(HGet(CountUpdated(old(c.hashes), followerId, "followersCount", 1), UserKey(user.userId), "followingCount"), 1).Some?)
  {
    var followersCount := UpdateFollowersCount(c, followerId, "followersCount", 1);
    var followeeCount := UpdateFollowersCount(c, user.userId, "followingCount", 1);
    if followersCount.Fail? {
      return Err(followersCount.error);
    }
    if followeeCount.Fail? {
      return Err(followeeCount.error);
    }
    var follower := HashAt(c.hashes, UserKey(followerId));
    out.Send(Emit("add follower", NewFollower(UserData(follower, freshId)), Everyone));
    c.CollectionAdd(FollowingKey(user.userId), followerId);
    c.CollectionAdd(FollowersKey(followerId), user.userId);
    out.AddJob("addFollowerToDB", FollowerJob(user.userId, followerId, user.username, followerDocumentId));
    r := Ok(Response(OK, "Following user now"));
  }

  /** The counter updates of an unfollow: the followee's followers, the follower's following. */
  function UnfollowedHashes(hs: map<string, Hash>, followeeId: string, followerId: string): map<string, Hash> {
    CountUpdated(CountUpdated(hs, followeeId, "followersCount", -1), followerId, "followingCount", -1)
  }

  function UnfollowedCollections(cs: map<string, set<string>>, me: string, followeeId: string, followerId: string)
    : map<string, set<string>>
  {
    var cs1 := cs[FollowingKey(me) := CollectionAt(cs, FollowingKey(me)) - {followeeId}];
    cs1[FollowersKey(followeeId) := CollectionAt(cs1, FollowersKey(followeeId)) - {followerId}]
  }

  /**
   * Remove.follower (its controller is not part of this model; this is the
   * behaviour its test fixes): drop the followee from the current user's
   * following and the follower from the followee's followers, move both
   * counters down by one, then queue 'removeFollowerFromDB'.
   */
  method Unfollow(c: Store, out: Outbox, user: CurrentUser, followeeId: string, followerId: string)
    returns (r: Result<Response>)
    requires c.Valid()
    modifies c, out
    ensures c.Valid() && c.up == old(c.up) && c.lists == old(c.lists) && c.sorted == old(c.sorted)
    ensures out.emits == old(out.emits)
    ensures !old(c.up) ==>
      r == Err(ServerError(SERVER_ERROR_MESSAGE)) && c.hashes == old(c.hashes)
      && c.collections == old(c.collections) && out.jobs == old(out.jobs)
    ensures old(c.up) ==>
      c.collections == UnfollowedCollections(old(c.collections), user.userId, followeeId, followerId)
      && c.hashes == UnfollowedHashes(old(c.hashes), followeeId, followerId)
    ensures old(c.up) && r.Err? ==> r == Err(ServerError(SERVER_ERROR_MESSAGE)) && out.jobs == old(out.jobs)
    ensures old(c.up) && r.Ok? ==>
      r.value == Response(OK, "Unfollowed user now")
      && out.jobs == old(out.jobs) + [Job("removeFollowerFromDB", KeyPairJob(followeeId, followerId), JOB_OPTIONS)]
  {
    if !c.up {
      return Err(ServerError(SERVER_ERROR_MESSAGE));
    }
    c.CollectionRemove(FollowingKey(user.userId), followeeId);
    c.CollectionRemove(FollowersKey(followeeId), followerId);
    var followersCount := UpdateFollowersCount(c, followeeId, "followersCount", -1);
    var followeeCount := UpdateFollowersCount(c, followerId, "followingCount", -1);
    if followersCount.Fail? {
      return Err(followersCount.error);
    }
    if followeeCount.Fail? {
      return Err(followeeCount.error);
    }
    out.AddJob("removeFollowerFromDB", KeyPairJob(followeeId, followerId));
    r := Ok(Response(OK, "Unfollowed user now"));
  }

  datatype FollowReply = FollowReply(message: string, users: seq<FollowerData>)

  /**
   * Get.userFollowing: the current user's following list from the cache,
   * or from the store when the cache has none.  `fromCache` is what the
   * follower cache returns for a key, `fromStore` what the store returns
   * for a user id.
   */
  function UserFollowing(user: CurrentUser, fromCache: string -> seq<FollowerData>,
                         fromStore: string -> seq<FollowerData>): (r: FollowReply)
    ensures r.message == "User following"
    ensures fromCache(FollowingKey(user.userId)) != [] ==> r.users == fromCache(FollowingKey(user.userId))
    ensures fromCache(FollowingKey(user.userId)) == [] ==> r.users == fromStore(user.userId)
  {
    var cached := fromCache(FollowingKey(user.userId));
    FollowReply("User following", if |cached| > 0 then cached else fromStore(user.userId))
  }

  /**
   * Get.userFollowers: the followers of the user named in the route, not
   * of the current user, from the cache or else from the store.
   */
  function UserFollowers(userId: string, fromCache: string -> seq<FollowerData>,
                         fromStore: string -> seq<FollowerData>): (r: FollowReply)
    ensures r.message == "User followers"
    ensures fromCache(FollowersKey(userId)) != [] ==> r.users == fromCache(FollowersKey(userId))
    ensures fromCache(FollowersKey(userId)) == [] ==> r.users == fromStore(userId)
  {
    var cached := fromCache(FollowersKey(userId));
    FollowReply("User followers", if |cached| > 0 then cached else fromStore(userId))
  }

  // ---------------------------------------------------------------------------
  // Properties

  /** A counter held as a numeral moves by exactly `delta`; every other field and hash is untouched. */
  lemma CountMovesByDelta(hs: map<string, Hash>, userId: string, field: string, delta: int, n: int)
    requires HGet(hs, UserKey(userId), field) == Some(IntToString(n))
    ensures HGet(CountUpdated(hs, userId, field, delta), UserKey(userId), field) == Some(IntToString(n + delta))
    ensures forall g :: g != field ==>
      HGet(CountUpdated(hs, userId, field, delta), UserKey(userId), g) == HGet(hs, UserKey(userId), g)
    ensures forall k :: k != UserKey(userId) ==> HashAt(CountUpdated(hs, userId, field, delta), k) == HashAt(hs, k)
  {
    JsonIntOfIntToString(n);
  }

  /**
   * After a follow, the current user follows `followerId` and is among its
   * followers, whatever the collections held before.
   */
  lemma FollowAddsBothMembers(cs: map<string, set<string>>, me: string, followerId: string)
    ensures followerId in CollectionAt(FollowedCollections(cs, me, followerId), FollowingKey(me))
    ensures me in CollectionAt(FollowedCollections(cs, me, followerId), FollowersKey(followerId))
    ensures forall k :: k != FollowingKey(me) && k != FollowersKey(followerId) ==>
      CollectionAt(FollowedCollections(cs, me, followerId), k) == CollectionAt(cs, k)
  {
    FollowingKeyNotFollowersKey(me, followerId);
  }

  /**
   * The event announces the followed user with its followers count already
   * raised: the counters are moved before the user is read back.
   */
  lemma AnnouncedCountIsRaised(hs: map<string, Hash>, me: string, followerId: string, freshId: string, n: int)
    requires me != followerId
    requires HGet(hs, UserKey(followerId), "followersCount") == Some(IntToString(n))
    ensures UserData(HashAt(FollowedHashes(hs, me, followerId), UserKey(followerId)), freshId).followersCount
            == Some(JNum(n + 1))
  {
    var hs1 := CountUpdated(hs, followerId, "followersCount", 1);
    CountMovesByDelta(hs, followerId, "followersCount", 1, n);
    KeysInjective(me, followerId);
    assert HashAt(FollowedHashes(hs, me, followerId), UserKey(followerId)) == HashAt(hs1, UserKey(followerId));
    NumeralIsNotCounts(n + 1);
    JsonIntOfIntToString(n + 1);
  }

  /** The counter half of a follow undone by an unfollow. */
  lemma FollowThenUnfollowCounts(hs: map<string, Hash>, me: string, other: string, a: int, b: int)
    requires me != other
    requires HGet(hs, UserKey(other), "followersCount") == Some(IntToString(a))
    requires HGet(hs, UserKey(me), "followingCount") == Some(IntToString(b))
    ensures var hs2 := UnfollowedHashes(FollowedHashes(hs, me, other), other, me);
      HGet(hs2, UserKey(other), "followersCount") == Some(IntToString(a))
      && HGet(hs2, UserKey(me), "followingCount") == Some(IntToString(b))
  {
    KeysInjective(me, other);
    var hs1 := CountUpdated(hs, other, "followersCount", 1);
    CountMovesByDelta(hs, other, "followersCount", 1, a);
    assert HGet(hs1, UserKey(me), "followingCount") == Some(IntToString(b));
    var hs2 := CountUpdated(hs1, me, "followingCount", 1);
    CountMovesByDelta(hs1, me, "followingCount", 1, b);
    assert HGet(hs2, UserKey(other), "followersCount") == Some(IntToString(a + 1));
    var hs3 := CountUpdated(hs2, other, "followersCount", -1);
    CountMovesByDelta(hs2, other, "followersCount", -1, a + 1);
    assert HGet(hs3, UserKey(me), "followingCount") == Some(IntToString(b + 1));
    CountMovesByDelta(hs3, me, "followingCount", -1, b + 1);
  }

  /** The collection half of a follow undone by an unfollow. */
  lemma FollowThenUnfollowCollections(cs: map<string, set<string>>, me: string, other: string)
    requires me != other
    requires other !in CollectionAt(cs, FollowingKey(me)) && me !in CollectionAt(cs, FollowersKey(other))
    ensures forall k :: CollectionAt(UnfollowedCollections(FollowedCollections(cs, me, other), me, other, me), k)
                        == CollectionAt(cs, k)
  {
    KeysInjective(me, other);
    FollowingKeyNotFollowersKey(me, other);
  }

  /**
   * Following a user and then unfollowing them (the same two users, in the
   * unfollow route's roles) puts both counters back when they were
   * numerals, and leaves the collections as they were when the two were not
   * connected before.
   */
  lemma FollowThenUnfollowRestores(hs: map<string, Hash>, cs: map<string, set<string>>,
                                   me: string, other: string, a: int, b: int)
    requires me != other
    requires HGet(hs, UserKey(other), "followersCount") == Some(IntToString(a))
    requires HGet(hs, UserKey(me), "followingCount") == Some(IntToString(b))
    requires other !in CollectionAt(cs, FollowingKey(me)) && me !in CollectionAt(cs, FollowersKey(other))
    ensures var hs2 := UnfollowedHashes(FollowedHashes(hs, me, other), other, me);
      HGet(hs2, UserKey(other), "followersCount") == Some(IntToString(a))
      && HGet(hs2, UserKey(me), "followingCount") == Some(IntToString(b))
    ensures forall k :: CollectionAt(UnfollowedCollections(FollowedCollections(cs, me, other), me, other, me), k)
                        == CollectionAt(cs, k)
  {
    FollowThenUnfollowCounts(hs, me, other, a, b);
    FollowThenUnfollowCollections(cs, me, other);
  }
}
