/**
 * The reaction persistence service: replaces (or upserts) the user's
 * reaction record, moves the post's reaction counts in one `$inc`, and
 * notifies the post's author under the same rule as comments.
 */
module ReactionService {
  import opened Wrappers
  import opened Records
  import opened Documents
  import opened Effects

  /** The `{ postId, type, username }` filter of the reaction collection. */
  predicate IsRecordOf(r: Reaction, postId: string, reactionType: Val, username: string) {
    r.postId == Some(postId) && r.reactionType == reactionType && r.username == username
  }

  /** The position of the first record the filter matches. */
  function FirstRecord(rs: seq<Reaction>, postId: string, reactionType: Val, username: string): (r: Option<nat>)
    ensures r.Some? ==> r.value < |rs| && IsRecordOf(rs[r.value], postId, reactionType, username)
    ensures r.Some? ==> forall j :: 0 <= j < r.value ==> !IsRecordOf(rs[j], postId, reactionType, username)
    ensures r.None? <==> forall j :: 0 <= j < |rs| ==> !IsRecordOf(rs[j], postId, reactionType, username)
  {
    if rs == [] then None
    else if IsRecordOf(rs[0], postId, reactionType, username) then Some(0)
    else
      var r := FirstRecord(rs[1..], postId, reactionType, username);
      assert forall j :: 1 <= j < |rs| ==> rs[j] == rs[1..][j - 1];
      if r.Some? then Some(r.value + 1) else None
  }

  /**
   * `replaceOne(filter, replacement, { upsert: true })`.  With a previous
   * reaction the replacement carries no `_id`: a replaced record keeps its
   * own and an upserted one gets `generatedId` from the store.
   */
  function ReplaceReaction(rs: seq<Reaction>, postId: string, previousReaction: Val, username: string,
                           replacement: Reaction, generatedId: string): seq<Reaction>
  {
    var omitId := Truthy(previousReaction);
    match FirstRecord(rs, postId, previousReaction, username)
    case Some(i) => rs[i := if omitId then replacement.(id := rs[i].id) else replacement]
    case None => rs + [if omitId then replacement.(id := generatedId) else replacement]
  }

  /** The `_id` the stored reaction ends up with. */
  function StoredReactionId(rs: seq<Reaction>, postId: string, previousReaction: Val, username: string,
                            replacement: Reaction, generatedId: string): string
  {
    match FirstRecord(rs, postId, previousReaction, username)
    case Some(i) => if Truthy(previousReaction) then rs[i].id else replacement.id
    case None => if Truthy(previousReaction) then generatedId else replacement.id
  }

  /**
   * The `$inc` object `{ reactions.<previous>: -1, reactions.<type>: 1 }`.
   * Its keys are template strings, so an absent value names the kind
   * "undefined"; when both keys coincide the object keeps only the later +1.
   */
  function ReactionIncrements(previousReaction: Val, reactionType: Val): (deltas: seq<(string, int)>)
    ensures Template(previousReaction) == Template(reactionType) ==> deltas == [(Template(reactionType), 1)]
    ensures Template(previousReaction) != Template(reactionType) ==>
      deltas == [(Template(previousReaction), -1), (Template(reactionType), 1)]
  {
    if Template(previousReaction) == Template(reactionType) then [(Template(reactionType), 1)]
    else [(Template(previousReaction), -1), (Template(reactionType), 1)]
  }

  /** The notification record for a reaction, pointing at the stored reaction record. */
  function ReactionNotification(userFrom: string, userTo: string, username: string, postId: string,
                                reactionId: string, reactionType: Val, post: Doc, createdAt: int): (n: Notification)
    ensures n.notificationType == "reactions" && n.message == NotificationMessage(username, "reacted to")
    ensures n.userFrom == userFrom && n.userTo == userTo && n.entityId == postId
    ensures n.createdItemId == reactionId
    ensures n.comment == Some("") && n.reaction == reactionType
    ensures n.post == Field(post, "post") && n.imgId == Field(post, "imgId")
    ensures n.imgVersion == Field(post, "imgVersion") && n.gifUrl == Field(post, "gifUrl")
  {
    Notification(userFrom, userTo, NotificationMessage(username, "reacted to"), "reactions", postId, reactionId, createdAt,
                 Some(""), Field(post, "post"), Field(post, "imgId"), Field(post, "imgVersion"),
                 Field(post, "gifUrl"), reactionType)
  }

  /**
   * The notification as the code builds it: `createdItemId` is made from the
   * `_id` of `replaceOne`'s result, which is an update summary without one,
   * so the id is a new one (`unrelatedId`) rather than the reaction's.
   */
  function ReactionNotificationAsWritten(userFrom: string, userTo: string, username: string, postId: string,
                                         unrelatedId: string, reactionType: Val, post: Doc,
                                         createdAt: int): (n: Notification)
    ensures n.createdItemId == unrelatedId
    ensures n.notificationType == "reactions" && n.message == NotificationMessage(username, "reacted to")
    ensures n.userFrom == userFrom && n.userTo == userTo && n.entityId == postId
    ensures n.comment == Some("") && n.reaction == reactionType
    ensures n.post == Field(post, "post") && n.imgId == Field(post, "imgId")
    ensures n.imgVersion == Field(post, "imgVersion") && n.gifUrl == Field(post, "gifUrl")
  {
    ReactionNotification(userFrom, userTo, username, postId, unrelatedId, reactionType, post, createdAt)
  }

  /**
   * addReactionDataToDB: replace or upsert the reaction record, apply the
   * `$inc` to the post's counts, and, when the rule says so, store a
   * notification, emit it to the recipient and queue a 'reactionsEmail' job.
   * The notification is built as the code builds it: its `createdItemId` is
   * `freshId`, the id made from the `_id` that `replaceOne`'s result lacks.
   */
  method AddReactionDataToDB(db: Db, out: Outbox, postId: string, userTo: string, userFrom: string,
                             username: string, reactionType: Val, previousReaction: Val,
                             reactionObject: Reaction, recipient: Recipient, generatedId: string,
                             freshId: string, now: int)
    returns (r: Outcome)
    modifies db, out
    ensures db.reactions == ReplaceReaction(old(db.reactions), postId, previousReaction, username, reactionObject, generatedId)
    ensures db.posts == UpdateById(old(db.posts), postId, IncCountsOp(ReactionIncrements(previousReaction, reactionType)))
    ensures db.users == old(db.users) && db.comments == old(db.comments) && db.images == old(db.images)
    ensures !ShouldNotify(recipient.notifyReactions, userFrom, userTo) ==>
      r == Pass && db.notifications == old(db.notifications) && out.emits == old(out.emits) && out.jobs == old(out.jobs)
    ensures ShouldNotify(recipient.notifyReactions, userFrom, userTo)
            && FirstWithId(old(db.posts), postId).None? ==>
      r.Fail? && r.error.TypeError?
      && db.notifications == old(db.notifications) && out.emits == old(out.emits) && out.jobs == old(out.jobs)
    ensures ShouldNotify(recipient.notifyReactions, userFrom, userTo)
            && FirstWithId(old(db.posts), postId).Some? ==>
      var post := UpdatedById(old(db.posts), postId, IncCountsOp(ReactionIncrements(previousReaction, reactionType))).value;
      var n := ReactionNotificationAsWritten(userFrom, userTo, username, postId, freshId, reactionType, post, now);
      r == Pass
      && db.notifications == old(db.notifications) + [n]
      && out.emits == old(out.emits) + [Emit("insert notification", NewNotification(n), ToUser(userTo))]
      && out.jobs == old(out.jobs) + [Job("reactionsEmail",
           EmailJob(recipient.email, TemplateParams(recipient.username, NotificationMessage(username, "reacted to"), "Post Reaction Notification"),
                    "Post reaction notification"), JOB_OPTIONS)]
  {
    var inc := IncCountsOp(ReactionIncrements(previousReaction, reactionType));
    var updated := UpdatedById(db.posts, postId, inc);
    db.reactions := ReplaceReaction(db.reactions, postId, previousReaction, username, reactionObject, generatedId);
    db.posts := UpdateById(db.posts, postId, inc);
    if !ShouldNotify(recipient.notifyReactions, userFrom, userTo) {
      return Pass;
    }
    if updated.None? {
      return Fail(TypeError("Cannot read properties of null (reading 'post')"));
    }
    var n := ReactionNotificationAsWritten(userFrom, userTo, username, postId, freshId, reactionType, updated.value, now);
    db.notifications := db.notifications + [n];
    out.Send(Emit("insert notification", NewNotification(n), ToUser(userTo)));
    var template := TemplateParams(recipient.username, NotificationMessage(username, "reacted to"), "Post Reaction Notification");
    out.AddJob("reactionsEmail", EmailJob(recipient.email, template, "Post reaction notification"));
    r := Pass;
  }

  /** `deleteOne({ postId, type: previousReaction, username })`. */
  function DeleteReaction(rs: seq<Reaction>, postId: string, previousReaction: Val, username: string): seq<Reaction> {
    match FirstRecord(rs, postId, previousReaction, username)
    case Some(i) => rs[..i] + rs[i + 1..]
    case None => rs
  }

  /**
   * removeReactionDataFromDB: delete the user's record of that kind and
   * lower the post's count of that kind by one.
   */
  method RemoveReactionDataFromDB(db: Db, postId: string, previousReaction: Val, username: string)
    modifies db
    ensures db.reactions == DeleteReaction(old(db.reactions), postId, previousReaction, username)
    ensures db.posts == UpdateById(old(db.posts), postId, IncCountsOp([(Template(previousReaction), -1)]))
    ensures db.users == old(db.users) && db.comments == old(db.comments)
    ensures db.images == old(db.images) && db.notifications == old(db.notifications)
  {
    db.reactions := DeleteReaction(db.reactions, postId, previousReaction, username);
    db.posts := UpdateById(db.posts, postId, IncCountsOp([(Template(previousReaction), -1)]));
  }

  /** The records of one post, in collection order. */
  function ReactionsOfPost(rs: seq<Reaction>, postId: string): (r: seq<Reaction>)
    ensures |r| <= |rs|
    ensures forall x :: x in r <==> x in rs && x.postId == Some(postId)
  {
    if rs == [] then []
    else
      assert forall x :: x in rs <==> x == rs[0] || x in rs[1..] by {
        assert rs == [rs[0]] + rs[1..];
      }
      (if rs[0].postId == Some(postId) then [rs[0]] else []) + ReactionsOfPost(rs[1..], postId)
  }

  /**
   * getPostReactions({ postId }, { createdAt: -1 }): the post's records and
   * their number.  Reaction records carry no creation time here, so the sort
   * leaves them in collection order.
   */
  function GetPostReactions(rs: seq<Reaction>, postId: string): (r: (seq<Reaction>, nat))
    ensures r.1 == |r.0|
    ensures forall x :: x in r.0 <==> x in rs && x.postId == Some(postId)
  {
    var list := ReactionsOfPost(rs, postId);
    (list, |list|)
  }

  /** The records by `name`, in collection order. */
  function ReactionsBy(rs: seq<Reaction>, name: string): (r: seq<Reaction>)
    ensures |r| <= |rs|
    ensures forall x :: x in r <==> x in rs && x.username == name
  {
    if rs == [] then []
    else
      assert forall x :: x in rs <==> x == rs[0] || x in rs[1..] by {
        assert rs == [rs[0]] + rs[1..];
      }
      (if rs[0].username == name then [rs[0]] else []) + ReactionsBy(rs[1..], name)
  }

  /**
   * getSinglePostReactionByUsername: the first record of that post by the
   * user, the name first passed through `capitalise` (the helper that
   * upper-cases its first letter); `None` stands for the reply [].
   */
  function GetSinglePostReactionByUsername(rs: seq<Reaction>, postId: string, username: string,
                                           capitalise: string -> string): (r: Option<Reaction>)
    ensures r.Some? ==> r.value in rs && r.value.postId == Some(postId) && r.value.username == capitalise(username)
    ensures r.None? <==> forall x :: x in rs ==> !(x.postId == Some(postId) && x.username == capitalise(username))
  {
    var list := ReactionsBy(ReactionsOfPost(rs, postId), capitalise(username));
    if |list| > 0 then
      assert list[0] in list;
      Some(list[0])
    else None
  }

  /** getReactionsByUsername: every record by the (capitalised) user, in collection order. */
  function GetReactionsByUsername(rs: seq<Reaction>, username: string, capitalise: string -> string): (r: seq<Reaction>)
    ensures forall x :: x in r <==> x in rs && x.username == capitalise(username)
  {
    ReactionsBy(rs, capitalise(username))
  }

  // ---------------------------------------------------------------------------
  // Properties

  /**
   * Changing a reaction from one kind to another moves the old kind down by
   * one and the new kind up by one; every other count stays.
   */
  lemma ChangeMovesTwoCounts(d: Doc, previousReaction: Val, reactionType: Val)
    requires "reactions" in d && d["reactions"].Obj?
    requires Template(previousReaction) != Template(reactionType)
    ensures var r := Apply(IncCountsOp(ReactionIncrements(previousReaction, reactionType)), d);
      var before := d["reactions"].counts;
      "reactions" in r && r["reactions"].Obj?
      && CountOf(r["reactions"].counts, Template(previousReaction)) == CountOf(before, Template(previousReaction)) - 1
      && CountOf(r["reactions"].counts, Template(reactionType)) == CountOf(before, Template(reactionType)) + 1
      && (forall k :: k != Template(previousReaction) && k != Template(reactionType) ==>
            CountOf(r["reactions"].counts, k) == CountOf(before, k))
  {
    var p, t := Template(previousReaction), Template(reactionType);
    var d1 := IncCount(d, p, -1);
    IncCountEffect(d, p, -1);
    IncCountEffect(d1, t, 1);
    var deltas := ReactionIncrements(previousReaction, reactionType);
    assert IncCounts(d, deltas) == IncCounts(d1, deltas[1..]);
    assert IncCounts(d1, deltas[1..]) == IncCounts(IncCount(d1, t, 1), []);
  }

  /** Re-sending the same kind as the previous one leaves a net +1 on that kind, not 0. */
  lemma SameKindOnlyIncrements(d: Doc, kind: Val)
    requires "reactions" in d && d["reactions"].Obj?
    ensures var r := Apply(IncCountsOp(ReactionIncrements(kind, kind)), d);
      "reactions" in r && r["reactions"].Obj?
      && CountOf(r["reactions"].counts, Template(kind)) == CountOf(d["reactions"].counts, Template(kind)) + 1
  {
    IncCountEffect(d, Template(kind), 1);
    assert IncCounts(d, [(Template(kind), 1)]) == IncCounts(IncCount(d, Template(kind), 1), []);
  }

  /**
   * A replace keeps the number of records when the filter matches one and
   * adds exactly one otherwise; the stored record is the new reaction, with
   * the `_id` the store gives it.
   */
  lemma ReplaceStoresOneRecord(rs: seq<Reaction>, postId: string, previousReaction: Val, username: string,
                               obj: Reaction, generatedId: string)
    ensures var rs' := ReplaceReaction(rs, postId, previousReaction, username, obj, generatedId);
      var id := StoredReactionId(rs, postId, previousReaction, username, obj, generatedId);
      obj.(id := id) in rs'
      && |rs'| == |rs| + (if FirstRecord(rs, postId, previousReaction, username).Some? then 0 else 1)
  {
    var rs' := ReplaceReaction(rs, postId, previousReaction, username, obj, generatedId);
    match FirstRecord(rs, postId, previousReaction, username)
    case Some(i) =>
      assert rs'[i] == obj.(id := StoredReactionId(rs, postId, previousReaction, username, obj, generatedId));
    case None =>
      assert rs'[|rs|] == obj.(id := StoredReactionId(rs, postId, previousReaction, username, obj, generatedId));
  }

  /** A removal deletes exactly the user's first record of that kind and lowers that count by one. */
  lemma RemoveDeletesOneRecord(rs: seq<Reaction>, d: Doc, postId: string, previousReaction: Val, username: string)
    requires "reactions" in d && d["reactions"].Obj?
    ensures FirstRecord(rs, postId, previousReaction, username).Some? ==>
      var i := FirstRecord(rs, postId, previousReaction, username).value;
      |DeleteReaction(rs, postId, previousReaction, username)| == |rs| - 1
      && multiset(DeleteReaction(rs, postId, previousReaction, username)) + multiset{rs[i]} == multiset(rs)
    ensures FirstRecord(rs, postId, previousReaction, username).None? ==>
      DeleteReaction(rs, postId, previousReaction, username) == rs
    ensures var r := Apply(IncCountsOp([(Template(previousReaction), -1)]), d);
      "reactions" in r && r["reactions"].Obj?
      && CountOf(r["reactions"].counts, Template(previousReaction))
         == CountOf(d["reactions"].counts, Template(previousReaction)) - 1
  {
    IncCountEffect(d, Template(previousReaction), -1);
    assert IncCounts(d, [(Template(previousReaction), -1)]) == IncCounts(IncCount(d, Template(previousReaction), -1), []);
    match FirstRecord(rs, postId, previousReaction, username)
    case None =>
    case Some(i) => DropOneKeepsRest(rs, i);
  }

  /** Cutting out position `i` leaves every other record, one fewer in all. */
  lemma DropOneKeepsRest(rs: seq<Reaction>, i: nat)
    requires i < |rs|
    ensures |rs[..i] + rs[i + 1..]| == |rs| - 1
    ensures multiset(rs[..i] + rs[i + 1..]) + multiset{rs[i]} == multiset(rs)
  {
    var a, b := rs[..i], rs[i + 1..];
    assert rs == a + [rs[i]] + b;
    calc {
      multiset(rs);
      multiset(a) + multiset{rs[i]} + multiset(b);
      multiset(a + b) + multiset{rs[i]};
    }
  }

  /**
   * The notification as written names an item that is not the stored
   * reaction whenever the fresh id differs from the reaction's, while the
   * corrected one always names the stored reaction.
   */
  lemma NotificationItemIdDiscrepancy(rs: seq<Reaction>, postId: string, previousReaction: Val, username: string,
                                      obj: Reaction, generatedId: string, unrelatedId: string,
                                      userFrom: string, userTo: string, post: Doc, now: int)
    requires unrelatedId != StoredReactionId(rs, postId, previousReaction, username, obj, generatedId)
    ensures var id := StoredReactionId(rs, postId, previousReaction, username, obj, generatedId);
      var rs' := ReplaceReaction(rs, postId, previousReaction, username, obj, generatedId);
      ReactionNotificationAsWritten(userFrom, userTo, username, postId, unrelatedId, obj.reactionType, post, now).createdItemId
        != id
      && ReactionNotification(userFrom, userTo, username, postId, id, obj.reactionType, post, now).createdItemId == id
      && obj.(id := id) in rs'
  {
    ReplaceStoresOneRecord(rs, postId, previousReaction, username, obj, generatedId);
  }
}
