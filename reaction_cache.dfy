/**
 * The reaction cache service: the reactions to a post are the list
 * `reactions:<postId>` of encoded reaction records, newest first, and the
 * post hash keeps the reaction counts under `reactions`.  The counts are
 * always supplied by the caller; the cache never computes them.
 */
module ReactionCache {
  import opened Wrappers
  import opened Records
  import opened CacheStore

  /** `parseJson` of every list element, in list order (`None`: not a reaction record). */
  method DecodeReactions(items: seq<string>) returns (list: seq<Option<Reaction>>)
    ensures list == DecodeAll(items)
    ensures |list| == |items|
    ensures forall i :: 0 <= i < |items| ==> list[i] == DecodeReaction(items[i])
  {
    list := [];
    for i := 0 to |items|
      invariant |list| == i
      invariant forall j :: 0 <= j < i ==> list[j] == DecodeReaction(items[j])
    {
      list := list + [DecodeReaction(items[i])];
    }
  }

  /** The two `find` predicates of the reaction cache. */
  datatype Query =
    | ByUser(username: string)                    // getPreviousReaction
    | ByPostAndUser(postId: string, username: string)  // getSingleReactionByUsernameFromCache

  predicate Matches(q: Query, e: Option<Reaction>) {
    match q
    case ByUser(u) => e.Some? && e.value.username == u
    case ByPostAndUser(p, u) => e.Some? && e.value.postId == Some(p) && e.value.username == u
  }

  /** The position of the first matching entry. */
  function FirstMatch(list: seq<Option<Reaction>>, q: Query): (r: Option<nat>)
    ensures r.Some? ==> r.value < |list| && Matches(q, list[r.value])
    ensures r.Some? ==> forall j :: 0 <= j < r.value ==> !Matches(q, list[j])
    ensures r.None? <==> forall j :: 0 <= j < |list| ==> !Matches(q, list[j])
  {
    if list == [] then None
    else if Matches(q, list[0]) then Some(0)
    else
      var r := FirstMatch(list[1..], q);
      assert forall j :: 1 <= j < |list| ==> list[j] == list[1..][j - 1];
      if r.Some? then Some(r.value + 1) else None
  }

  /** lodash `find`: the first matching reaction, if any. */
  function Find(list: seq<Option<Reaction>>, q: Query): Option<Reaction> {
    match FirstMatch(list, q)
    case Some(i) => list[i]
    case None => None
  }

  /** getPreviousReaction: the first cached reaction by `username`. */
  method GetPreviousReaction(response: seq<string>, username: string) returns (prev: Option<Reaction>)
    ensures prev == Find(DecodeAll(response), ByUser(username))
  {
    var list := DecodeReactions(response);
    assert list == DecodeAll(response);
    prev := Find(list, ByUser(username));
  }

  function DecodeAll(items: seq<string>): (list: seq<Option<Reaction>>)
    ensures |list| == |items|
    ensures forall i :: 0 <= i < |items| ==> list[i] == DecodeReaction(items[i])
  {
    if items == [] then [] else [DecodeReaction(items[0])] + DecodeAll(items[1..])
  }

  /**
   * The list after a removal: without the first entry by `username`;
   * unchanged when there is none.
   */
  function WithoutUser(items: seq<string>, username: string): seq<string> {
    match FirstMatch(DecodeAll(items), ByUser(username))
    case Some(i) => items[..i] + items[i + 1..]
    case None => items
  }

  function ReactionsRemoved(ls: map<string, seq<string>>, key: string, username: string): map<string, seq<string>> {
    if FirstMatch(DecodeAll(ListAt(ls, ReactionsKey(key))), ByUser(username)).Some?
    then ls[ReactionsKey(key) := WithoutUser(ListAt(ls, ReactionsKey(key)), username)]
    else ls
  }

  function CountsWritten(hs: map<string, Hash>, key: string, postReactions: Counts): map<string, Hash> {
    hs[PostKey(key) := HashAt(hs, PostKey(key))["reactions" := EncodeCounts(postReactions)]]
  }

  /**
   * LREM of the re-encoded first match removes exactly that entry: the
   * decoding is strict, so the re-encoding is the very text, and no earlier
   * entry can equal it because no earlier entry matches.
   */
  lemma LRemOfFirstMatch(items: seq<string>, username: string)
    requires FirstMatch(DecodeAll(items), ByUser(username)).Some?
    ensures var i := FirstMatch(DecodeAll(items), ByUser(username)).value;
      RemoveFirst(items, EncodeReaction(DecodeReaction(items[i]).value)) == items[..i] + items[i + 1..]
  {
    var i := FirstMatch(DecodeAll(items), ByUser(username)).value;
    EncodeDecodeReaction(items[i]);
    assert items[i] !in items[..i] by {
      forall j | 0 <= j < i ensures items[j] != items[i] {
        assert !Matches(ByUser(username), DecodeAll(items)[j]);
      }
    }
    RemoveFirstSplit(items, items[i], i);
  }

  /** The cached list of post `key` holds an entry by `username`. */
  predicate HasEntry(ls: map<string, seq<string>>, key: string, username: string) {
    FirstMatch(DecodeAll(ListAt(ls, ReactionsKey(key))), ByUser(username)).Some?
  }

  /**
   * removePostReactionFromCache: LRANGE, find the user's first entry, LREM it
   * (count 1, by its exact encoding), then overwrite the post's counts with
   * the ones supplied.  With no entry by that user the LREM's element is
   * `JSON.stringify(undefined)`, which is no command argument: the awaited
   * MULTI fails, the catch turns that into the server error, and neither the
   * list nor the counts change.
   */
  method RemovePostReactionFromCache(c: Store, key: string, username: string, postReactions: Counts)
    returns (r: Outcome)
    requires c.Valid()
    modifies c
    ensures c.Valid() && c.up == old(c.up)
    ensures c.sorted == old(c.sorted) && c.collections == old(c.collections)
    ensures !old(c.up) ==>
      r == Fail(ServerError(SERVER_ERROR_MESSAGE)) && c.hashes == old(c.hashes) && c.lists == old(c.lists)
    ensures old(c.up) && !HasEntry(old(c.lists), key, username) ==>
      r == Fail(ServerError(SERVER_ERROR_MESSAGE)) && c.hashes == old(c.hashes) && c.lists == old(c.lists)
    ensures old(c.up) && HasEntry(old(c.lists), key, username) ==>
      r == Pass
      && c.lists == ReactionsRemoved(old(c.lists), key, username)
      && c.hashes == CountsWritten(old(c.hashes), key, postReactions)
  {
    if !c.up {
      return Fail(ServerError(SERVER_ERROR_MESSAGE));
    }
    var response := ListAt(c.lists, ReactionsKey(key));
    var userPreviousReaction := GetPreviousReaction(response, username);
    if userPreviousReaction.None? {
      return Fail(ServerError(SERVER_ERROR_MESSAGE));
    }
    LRemOfFirstMatch(response, username);
    c.LRem(ReactionsKey(key), EncodeReaction(userPreviousReaction.value));
    c.HSet(PostKey(key), "reactions", EncodeCounts(postReactions));
    r := Pass;
  }

  /** Writing the same counts twice is writing them once. */
  lemma CountsWrittenTwice(hs: map<string, Hash>, key: string, postReactions: Counts)
    ensures CountsWritten(CountsWritten(hs, key, postReactions), key, postReactions) == CountsWritten(hs, key, postReactions)
  {
    var h := HashAt(hs, PostKey(key))["reactions" := EncodeCounts(postReactions)];
    assert HashAt(CountsWritten(hs, key, postReactions), PostKey(key)) == h;
    assert h["reactions" := EncodeCounts(postReactions)] == h;
  }

  /** The lists after savePostReactionToCache. */
  function SavedLists(ls: map<string, seq<string>>, key: string, reaction: Reaction, reactionType: Val, previousReaction: Val)
    : map<string, seq<string>>
  {
    var removed := if Truthy(previousReaction) then ReactionsRemoved(ls, key, reaction.username) else ls;
    if Truthy(reactionType)
    then removed[ReactionsKey(key) := [EncodeReaction(reaction)] + ListAt(removed, ReactionsKey(key))]
    else removed
  }

  /**
   * savePostReactionToCache: with a truthy previousReaction, first remove the
   * user's earlier entry (not awaited, so a failed removal does not fail the
   * save); then, with a truthy type, LPUSH the new reaction and overwrite the
   * post's counts with `postReactions`.
   */
  method SavePostReactionToCache(c: Store, key: string, reaction: Reaction, postReactions: Counts,
                                 reactionType: Val, previousReaction: Val)
    returns (r: Outcome)
    requires c.Valid()
    modifies c
    ensures c.Valid() && c.up == old(c.up)
    ensures c.sorted == old(c.sorted) && c.collections == old(c.collections)
    ensures !old(c.up) ==>
      r == Fail(ServerError(SERVER_ERROR_MESSAGE)) && c.hashes == old(c.hashes) && c.lists == old(c.lists)
    ensures old(c.up) ==>
      r == Pass
      && c.lists == SavedLists(old(c.lists), key, reaction, reactionType, previousReaction)
      && c.hashes == (if (Truthy(previousReaction) && HasEntry(old(c.lists), key, reaction.username))
                         || Truthy(reactionType)
                      then CountsWritten(old(c.hashes), key, postReactions) else old(c.hashes))
  {
    if !c.up {
      return Fail(ServerError(SERVER_ERROR_MESSAGE));
    }
    if Truthy(previousReaction) {
      var _ := RemovePostReactionFromCache(c, key, reaction.username, postReactions);
    }
    if Truthy(reactionType) {
      c.LPush(ReactionsKey(key), EncodeReaction(reaction));
      c.HSet(PostKey(key), "reactions", EncodeCounts(postReactions));
      CountsWrittenTwice(old(c.hashes), key, postReactions);
    }
    r := Pass;
  }

  /** getReactionsFromCache: (decoded list, LLEN) for a non-empty list, ([], 0) otherwise. */
  method GetReactionsFromCache(c: Store, postId: string) returns (r: Result<(seq<Option<Reaction>>, nat)>)
    ensures !c.up ==> r == Err(ServerError(SERVER_ERROR_MESSAGE))
    ensures c.up ==>
      var items := ListAt(c.lists, ReactionsKey(postId));
      r == Ok(if |items| > 0 then (DecodeAll(items), |items|) else ([], 0))
      && (|items| == 0 ==> r.value == ([], 0))
      && (|items| > 0 ==>
            r.value.1 == |items| && |r.value.0| == |items|
            && forall i :: 0 <= i < |items| ==> r.value.0[i] == DecodeReaction(items[i]))
  {
    if !c.up {
      return Err(ServerError(SERVER_ERROR_MESSAGE));
    }
    var reactionsCount := |ListAt(c.lists, ReactionsKey(postId))|;
    var response := ListAt(c.lists, ReactionsKey(postId));
    var list := DecodeReactions(response);
    r := Ok(if |response| > 0 then (list, reactionsCount) else ([], 0));
  }

  /**
   * getSingleReactionByUsernameFromCache: the first entry for that post by
   * that user (the reply [reaction, 1]); `None` stands for the reply [].
   */
  method GetSingleReactionByUsernameFromCache(c: Store, postId: string, username: string)
    returns (r: Result<Option<Reaction>>)
    ensures !c.up ==> r == Err(ServerError(SERVER_ERROR_MESSAGE))
    ensures c.up ==>
      var items := ListAt(c.lists, ReactionsKey(postId));
      r == Ok(Find(DecodeAll(items), ByPostAndUser(postId, username)))
      && (r.value.Some? ==>
            (r.value.value.postId == Some(postId) && r.value.value.username == username
             && exists i :: 0 <= i < |items| && DecodeReaction(items[i]) == r.value))
      && (r.value.None? <==> forall i :: 0 <= i < |items| ==> !Matches(ByPostAndUser(postId, username), DecodeReaction(items[i])))
  {
    if !c.up {
      return Err(ServerError(SERVER_ERROR_MESSAGE));
    }
    var response := ListAt(c.lists, ReactionsKey(postId));
    var list := DecodeReactions(response);
    r := Ok(Find(list, ByPostAndUser(postId, username)));
  }

  // ---------------------------------------------------------------------------
  // Properties

  /** The number of entries by `username`. */
  function UserEntries(items: seq<string>, username: string): nat {
    if items == [] then 0
    else (if Matches(ByUser(username), DecodeReaction(items[0])) then 1 else 0) + UserEntries(items[1..], username)
  }

  lemma {:induction false} UserEntriesAppend(a: seq<string>, b: seq<string>, username: string)
    ensures UserEntries(a + b, username) == UserEntries(a, username) + UserEntries(b, username)
    decreases |a|
  {
    if a != [] {
      assert (a + b)[1..] == a[1..] + b;
      UserEntriesAppend(a[1..], b, username);
    } else {
      assert a + b == b;
    }
  }

  /** A one-entry list counts one exactly when its entry is by `username`. */
  lemma UserEntriesSingle(x: string, username: string)
    ensures UserEntries([x], username) == if Matches(ByUser(username), DecodeReaction(x)) then 1 else 0
  {
    assert [x][1..] == [];
  }

  /** A removal takes away exactly one of the user's entries, when there is one. */
  lemma RemovalDropsOneEntry(items: seq<string>, username: string)
    ensures UserEntries(WithoutUser(items, username), username)
      == if UserEntries(items, username) > 0 then UserEntries(items, username) - 1 else 0
    ensures |WithoutUser(items, username)| == |items| - (if UserEntries(items, username) > 0 then 1 else 0)
  {
    var m := FirstMatch(DecodeAll(items), ByUser(username));
    match m
    case None =>
      NoMatchNoEntries(items, username);
    case Some(i) =>
      var pre, x, post := items[..i], items[i], items[i + 1..];
      assert items == pre + [x] + post;
      assert WithoutUser(items, username) == pre + post;
      assert Matches(ByUser(username), DecodeAll(items)[i]);
      UserEntriesSingle(x, username);
      UserEntriesAppend(pre + [x], post, username);
      UserEntriesAppend(pre, [x], username);
      UserEntriesAppend(pre, post, username);
  }

  lemma {:induction false} NoMatchNoEntries(items: seq<string>, username: string)
    requires FirstMatch(DecodeAll(items), ByUser(username)).None?
    ensures UserEntries(items, username) == 0
    decreases |items|
  {
    if items != [] {
      assert DecodeAll(items)[1..] == DecodeAll(items[1..]);
      NoMatchNoEntries(items[1..], username);
    }
  }

  /**
   * Replacing a reaction: a user who had exactly one entry ends with exactly
   * one, the new reaction, at the head of the list.
   */
  lemma ReplaceKeepsOneEntry(ls: map<string, seq<string>>, key: string, reaction: Reaction,
                             reactionType: Val, previousReaction: Val)
    requires Truthy(reactionType) && Truthy(previousReaction)
    requires UserEntries(ListAt(ls, ReactionsKey(key)), reaction.username) == 1
    ensures var l := ListAt(SavedLists(ls, key, reaction, reactionType, previousReaction), ReactionsKey(key));
      l[0] == EncodeReaction(reaction) && UserEntries(l, reaction.username) == 1
      && |l| == |ListAt(ls, ReactionsKey(key))|
  {
    var items := ListAt(ls, ReactionsKey(key));
    var u := reaction.username;
    RemovalDropsOneEntry(items, u);
    var rest := WithoutUser(items, u);
    if FirstMatch(DecodeAll(items), ByUser(u)).None? {
      NoMatchNoEntries(items, u);
    }
    assert ListAt(ReactionsRemoved(ls, key, u), ReactionsKey(key)) == rest;
    var l := [EncodeReaction(reaction)] + rest;
    DecodeEncodeReaction(reaction);
    UserEntriesAppend([EncodeReaction(reaction)], rest, u);
    UserEntriesSingle(EncodeReaction(reaction), u);
  }

  /** With an empty type nothing is pushed: the list only loses the user's earlier entry. */
  lemma EmptyTypePushesNothing(ls: map<string, seq<string>>, key: string, reaction: Reaction, previousReaction: Val)
    ensures SavedLists(ls, key, reaction, Some(""), previousReaction)
      == if Truthy(previousReaction) then ReactionsRemoved(ls, key, reaction.username) else ls
  {
  }
}
