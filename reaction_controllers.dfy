/**
 * The reaction routes: add or replace a user's reaction to a post, remove
 * it, and the three reads (a post's reactions, one user's reaction to a
 * post, all of a user's reactions).  The writes change the cache and queue
 * the store write; the reads answer from the cache when it has an answer
 * and otherwise from the store.
 */
module ReactionControllers {
  import opened Wrappers
  import opened Records
  import opened CacheStore
  import opened ReactionCache
  import opened Effects
  import ReactionService

  /** The reaction record the add route builds from the request. */
  function NewReaction(user: CurrentUser, postId: string, reactionType: Val, profilePicture: Val,
                       reactionId: string): (rx: Reaction)
    ensures rx.id == reactionId && rx.postId == Some(postId) && rx.reactionType == reactionType
    ensures rx.username == user.username && rx.avataColor == user.avatarColor && rx.profilePicture == profilePicture
  {
    Reaction(reactionId, Some(postId), reactionType, user.avatarColor, user.username, profilePicture)
  }

  /**
   * Add.reaction: save the reaction to the cache (replacing the user's
   * earlier one when `previousReaction` is given, and writing the counts the
   * client sent), then queue 'addReactionToDB'.
   */
  method AddReaction(c: Store, out: Outbox, user: CurrentUser, userTo: string, postId: string,
                     reactionType: Val, previousReaction: Val, postReactions: Counts,
                     profilePicture: Val, reactionId: string)
    returns (r: Result<Response>)
    requires c.Valid()
    modifies c, out
    ensures c.Valid() && c.up == old(c.up) && c.sorted == old(c.sorted) && c.collections == old(c.collections)
    ensures out.emits == old(out.emits)
    ensures !old(c.up) ==>
      r == Err(ServerError(SERVER_ERROR_MESSAGE))
      && c.hashes == old(c.hashes) && c.lists == old(c.lists) && out.jobs == old(out.jobs)
    ensures old(c.up) ==>
      var rx := NewReaction(user, postId, reactionType, profilePicture, reactionId);
      r == Ok(Response(OK, "Reaction added successfully"))
      && c.lists == SavedLists(old(c.lists), postId, rx, reactionType, previousReaction)
      && c.hashes == (if (Truthy(previousReaction) && HasEntry(old(c.lists), postId, user.username))
                         || Truthy(reactionType)
                      then CountsWritten(old(c.hashes), postId, postReactions) else old(c.hashes))
      && out.jobs == old(out.jobs) + [Job("addReactionToDB",
           ReactionJob(postId, userTo, user.userId, user.username, reactionType, previousReaction, rx), JOB_OPTIONS)]
  {
    var rx := NewReaction(user, postId, reactionType, profilePicture, reactionId);
    var saved := SavePostReactionToCache(c, postId, rx, postReactions, reactionType, previousReaction);
    if saved.Fail? {
      return Err(saved.error);
    }
    out.AddJob("addReactionToDB", ReactionJob(postId, userTo, user.userId, user.username, reactionType, previousReaction, rx));
    r := Ok(Response(OK, "Reaction added successfully"));
  }

  /** What `JSON.parse` throws on a `postReactions` parameter that is not a counts object. */
  const NOT_JSON: string := "Unexpected token in JSON"

  /**
   * Remove.reaction: parse the counts from the route parameter (a parse
   * failure ends the request before the cache is touched), remove the
   * user's cached reaction and write the counts, then queue
   * 'removeReactionFromDB'.  A user with no cached entry gets the cache's
   * server error and nothing is queued.
   */
  method RemoveReaction(c: Store, out: Outbox, user: CurrentUser, postId: string,
                        previousReaction: string, postReactions: string)
    returns (r: Result<Response>)
    requires c.Valid()
    modifies c, out
    ensures c.Valid() && c.up == old(c.up) && c.sorted == old(c.sorted) && c.collections == old(c.collections)
    ensures out.emits == old(out.emits)
    ensures DecodeCounts(postReactions).None? ==>
      r == Err(SyntaxError(NOT_JSON))
      && c.hashes == old(c.hashes) && c.lists == old(c.lists) && out.jobs == old(out.jobs)
    ensures DecodeCounts(postReactions).Some? && !(old(c.up) && HasEntry(old(c.lists), postId, user.username)) ==>
      r == Err(ServerError(SERVER_ERROR_MESSAGE))
      && c.hashes == old(c.hashes) && c.lists == old(c.lists) && out.jobs == old(out.jobs)
    ensures DecodeCounts(postReactions).Some? && old(c.up) && HasEntry(old(c.lists), postId, user.username) ==>
      r == Ok(Response(OK, "Reaction removed from post"))
      && c.lists == ReactionsRemoved(old(c.lists), postId, user.username)
      && c.hashes == CountsWritten(old(c.hashes), postId, DecodeCounts(postReactions).value)
      && out.jobs == old(out.jobs) + [Job("removeReactionFromDB",
           RemoveReactionJob(postId, user.username, Some(previousReaction)), JOB_OPTIONS)]
  {
    var counts := DecodeCounts(postReactions);
    if counts.None? {
      return Err(SyntaxError(NOT_JSON));
    }
    var removed := RemovePostReactionFromCache(c, postId, user.username, counts.value);
    if removed.Fail? {
      return Err(removed.error);
    }
    out.AddJob("removeReactionFromDB", RemoveReactionJob(postId, user.username, Some(previousReaction)));
    r := Ok(Response(OK, "Reaction removed from post"));
  }

  /** Where a list of reactions came from. */
  datatype ReactionList = CachedReactions(list: seq<Option<Reaction>>) | StoredReactions(docs: seq<Reaction>)

  datatype ReactionsReply = ReactionsReply(message: string, reactions: ReactionList, count: nat)

  /** `None` for the reply's `{}` with count 0. */
  datatype SingleReactionReply = SingleReactionReply(message: string, reaction: Option<Reaction>, count: nat)

  datatype UserReactionsReply = UserReactionsReply(message: string, reactions: seq<Reaction>)

  /**
   * Get.reactions: the cached list and its length when the list is not
   * empty, otherwise the post's records from the store and their number.
   */
  method Reactions(c: Store, db: Documents.Db, postId: string) returns (r: Result<ReactionsReply>)
    ensures !c.up ==> r == Err(ServerError(SERVER_ERROR_MESSAGE))
    ensures c.up && ListAt(c.lists, ReactionsKey(postId)) != [] ==>
      var items := ListAt(c.lists, ReactionsKey(postId));
      r == Ok(ReactionsReply("Post reactions", CachedReactions(DecodeAll(items)), |items|))
    ensures c.up && ListAt(c.lists, ReactionsKey(postId)) == [] ==>
      r.Ok? && r.value.message == "Post reactions" && r.value.reactions.StoredReactions?
      && r.value.count == |r.value.reactions.docs|
      && forall x :: x in r.value.reactions.docs <==> x in db.reactions && x.postId == Some(postId)
  {
    var cached := GetReactionsFromCache(c, postId);
    if cached.Err? {
      return Err(cached.error);
    }
    if |cached.value.0| > 0 {
      return Ok(ReactionsReply("Post reactions", CachedReactions(cached.value.0), cached.value.1));
    }
    var stored := ReactionService.GetPostReactions(db.reactions, postId);
    r := Ok(ReactionsReply("Post reactions", StoredReactions(stored.0), stored.1));
  }

  /**
   * Get.singleReactionByUsername: the user's first cached reaction to the
   * post; failing that, the store's record under the capitalised name;
   * failing that, `{}` with count 0.
   */
  method SingleReactionByUsername(c: Store, db: Documents.Db, postId: string, username: string,
                                  capitalise: string -> string)
    returns (r: Result<SingleReactionReply>)
    ensures !c.up ==> r == Err(ServerError(SERVER_ERROR_MESSAGE))
    ensures c.up ==>
      var items := ListAt(c.lists, ReactionsKey(postId));
      var cached := Find(DecodeAll(items), ByPostAndUser(postId, username));
      var stored := ReactionService.GetSinglePostReactionByUsername(db.reactions, postId, username, capitalise);
      r.Ok? && r.value.message == "Single post reaction by username"
      && (cached.Some? ==> r.value.reaction == cached && r.value.count == 1)
      && (cached.None? ==> r.value.reaction == stored && r.value.count == (if stored.Some? then 1 else 0))
  {
    var cached := GetSingleReactionByUsernameFromCache(c, postId, username);
    if cached.Err? {
      return Err(cached.error);
    }
    var found := if cached.value.Some? then cached.value
                 else ReactionService.GetSinglePostReactionByUsername(db.reactions, postId, username, capitalise);
    r := Ok(SingleReactionReply("Single post reaction by username", found, if found.Some? then 1 else 0));
  }

  /** Get.reactionsByUsername: straight from the store, under the capitalised name. */
  method ReactionsByUsername(db: Documents.Db, username: string, capitalise: string -> string)
    returns (r: UserReactionsReply)
    ensures r.message == "All user reactions by username"
    ensures forall x :: x in r.reactions <==> x in db.reactions && x.username == capitalise(username)
  {
    r := UserReactionsReply("All user reactions by username",
                            ReactionService.GetReactionsByUsername(db.reactions, username, capitalise));
  }

  // ---------------------------------------------------------------------------
  // Properties

  /** The post's cached list after the add route. */
  function ListAfterAdd(ls: map<string, seq<string>>, postId: string, rx: Reaction, reactionType: Val,
                        previousReaction: Val): seq<string>
  {
    ListAt(SavedLists(ls, postId, rx, reactionType, previousReaction), ReactionsKey(postId))
  }

  /**
   * A reaction of a non-empty type that was just added is what the
   * single-reaction route reads back from the cache for that user.
   */
  lemma AddedReactionIsFound(ls: map<string, seq<string>>, user: CurrentUser, postId: string,
                             reactionType: Val, previousReaction: Val, profilePicture: Val, reactionId: string)
    requires Truthy(reactionType)
    ensures var rx := NewReaction(user, postId, reactionType, profilePicture, reactionId);
      Find(DecodeAll(ListAfterAdd(ls, postId, rx, reactionType, previousReaction)),
           ByPostAndUser(postId, user.username)) == Some(rx)
  {
    var rx := NewReaction(user, postId, reactionType, profilePicture, reactionId);
    var l := ListAfterAdd(ls, postId, rx, reactionType, previousReaction);
    assert l[0] == EncodeReaction(rx);
    DecodeEncodeReaction(rx);
    assert DecodeAll(l)[0] == Some(rx);
  }

  /** No entry of `items` is by `username`, so no lookup by that user finds one. */
  lemma {:induction false} NoEntriesNoMatch(items: seq<string>, username: string)
    requires UserEntries(items, username) == 0
    ensures forall j :: 0 <= j < |items| ==> !Matches(ByUser(username), DecodeAll(items)[j])
    decreases |items|
  {
    if items != [] {
      NoEntriesNoMatch(items[1..], username);
      forall j | 1 <= j < |items| ensures !Matches(ByUser(username), DecodeAll(items)[j]) {
        assert items[j] == items[1..][j - 1];
      }
    }
  }

  /**
   * Removing the reaction of a user who had at most one cached entry for the
   * post leaves none: neither the previous-reaction lookup nor the
   * single-reaction route finds one afterwards.
   */
  lemma RemovedReactionIsGone(ls: map<string, seq<string>>, postId: string, username: string)
    requires UserEntries(ListAt(ls, ReactionsKey(postId)), username) <= 1
    ensures var l := ListAt(ReactionsRemoved(ls, postId, username), ReactionsKey(postId));
      Find(DecodeAll(l), ByUser(username)) == None
      && Find(DecodeAll(l), ByPostAndUser(postId, username)) == None
  {
    var items := ListAt(ls, ReactionsKey(postId));
    var l := ListAt(ReactionsRemoved(ls, postId, username), ReactionsKey(postId));
    assert l == WithoutUser(items, username);
    RemovalDropsOneEntry(items, username);
    NoEntriesNoMatch(l, username);
    assert FirstMatch(DecodeAll(l), ByUser(username)).None?;
    assert FirstMatch(DecodeAll(l), ByPostAndUser(postId, username)).None?;
  }
}
