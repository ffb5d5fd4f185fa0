/**
 * The document store the persistence services drive (MongoDB through
 * Mongoose), as one mutable object.  Each collection is a sequence in
 * insertion order.  Posts and users are kept as generic documents, so that
 * `$set`, `$inc` and `$ne` read as they do in the store; the other
 * collections hold typed records.
 */
module Documents {
  import opened Wrappers
  import opened Numbers
  import opened Records

  /** A stored field value: a string, a number (dates are milliseconds) or the reaction counts object. */
  datatype DbValue = Str(s: string) | Num(n: int) | Obj(counts: Counts)

  /** A document: field name -> value; a field the writer left `undefined` is absent. */
  type Doc = map<string, DbValue>

  const ID: string := "_id"

  /** Adds `f` to `d` when the value is defined. */
  function Put(d: Doc, f: string, v: Val): (r: Doc)
    ensures v.Some? ==> r == d[f := Str(v.value)]
    ensures v.None? ==> r == d
  {
    if v.Some? then d[f := Str(v.value)] else d
  }

  /** `PostModel.create(post)`: the stored document of a post record. */
  function PostDoc(p: Post): Doc {
    var d := map[ID := Str(p.id), "userId" := Str(p.userId), "username" := Str(p.username),
                 "email" := Str(p.email), "avatarColor" := Str(p.avatarColor),
                 "commentsCount" := Num(p.commentsCount), "reactions" := Obj(p.reactions),
                 "createdAt" := Num(p.createdAt)];
    Put(Put(Put(Put(Put(Put(Put(Put(Put(Put(d,
      "profilePicture", p.profilePicture), "post", p.post), "bgColor", p.bgColor),
      "feelings", p.feelings), "privacy", p.privacy), "gifUrl", p.gifUrl),
      "imgVersion", p.imgVersion), "imgId", p.imgId), "videoId", p.videoId),
      "videoVersion", p.videoVersion)
  }

  function Field(d: Doc, f: string): Option<DbValue> {
    if f in d then Some(d[f]) else None
  }

  /** The number a field holds; `None` when it is absent or not a number. */
  function NumField(d: Doc, f: string): Option<int> {
    if f in d && d[f].Num? then Some(d[f].n) else None
  }

  predicate HasId(d: Doc, id: string) {
    ID in d && d[ID] == Str(id)
  }

  /** The position of the first document with `_id` equal to `id`. */
  function FirstWithId(ds: seq<Doc>, id: string): (r: Option<nat>)
    ensures r.Some? ==> r.value < |ds| && HasId(ds[r.value], id)
    ensures r.Some? ==> forall j :: 0 <= j < r.value ==> !HasId(ds[j], id)
    ensures r.None? <==> forall j :: 0 <= j < |ds| ==> !HasId(ds[j], id)
  {
    if ds == [] then None
    else if HasId(ds[0], id) then Some(0)
    else
      var r := FirstWithId(ds[1..], id);
      assert forall j :: 1 <= j < |ds| ==> ds[j] == ds[1..][j - 1];
      if r.Some? then Some(r.value + 1) else None
  }

  /** `deleteOne({ _id: id })`. */
  function DeleteById(ds: seq<Doc>, id: string): seq<Doc> {
    match FirstWithId(ds, id)
    case Some(i) => ds[..i] + ds[i + 1..]
    case None => ds
  }

  /** An update document: `$set`, `$inc` of one field, or `$inc` of reaction counts. */
  datatype Update =
    | SetOp(fields: Doc)
    | IncOp(field: string, delta: int)
    | IncCountsOp(deltas: seq<(string, int)>)

  function Apply(u: Update, d: Doc): Doc {
    match u
    case SetOp(fields) => SetAll(d, fields)
    case IncOp(f, delta) => IncField(d, f, delta)
    case IncCountsOp(deltas) => IncCounts(d, deltas)
  }

  /** `updateOne({ _id: id }, u)`: the first document with that id is updated. */
  function UpdateById(ds: seq<Doc>, id: string, u: Update): seq<Doc> {
    match FirstWithId(ds, id)
    case Some(i) => ds[i := Apply(u, ds[i])]
    case None => ds
  }

  /** What `findOneAndUpdate({ _id: id }, u, { new: true })` returns: the updated document, if any. */
  function UpdatedById(ds: seq<Doc>, id: string, u: Update): (r: Option<Doc>)
    ensures r.Some? <==> FirstWithId(ds, id).Some?
    ensures r.Some? ==> r.value == UpdateById(ds, id, u)[FirstWithId(ds, id).value]
  {
    match FirstWithId(ds, id)
    case Some(i) => Some(Apply(u, ds[i]))
    case None => None
  }

  /** `$set: upd`: the fields of `upd` overwrite those of `d`. */
  function SetAll(d: Doc, upd: Doc): (r: Doc)
    ensures forall f :: f in upd ==> f in r && r[f] == upd[f]
    ensures forall f :: f !in upd ==> Field(r, f) == Field(d, f)
  {
    d + upd
  }

  /**
   * `$inc: { f: delta }`: a missing field starts from 0.  A field holding
   * something other than a number is left as it is, where the store would
   * reject the whole update.
   */
  function IncField(d: Doc, f: string, delta: int): Doc {
    if f !in d then d[f := Num(delta)]
    else if d[f].Num? then d[f := Num(d[f].n + delta)]
    else d
  }

  /**
   * `$inc: { "reactions.<kind>": delta }` on the nested counts object; a
   * `reactions` that is not an object is left as it is, where the store
   * would reject the update.
   */
  function IncCount(d: Doc, kind: string, delta: int): Doc {
    if "reactions" !in d then d["reactions" := Obj(map[kind := delta])]
    else if d["reactions"].Obj? then
      d["reactions" := Obj(d["reactions"].counts[kind := CountOf(d["reactions"].counts, kind) + delta])]
    else d
  }

  /** Several `"reactions.<kind>": delta` entries of one `$inc`, applied in turn. */
  function IncCounts(d: Doc, deltas: seq<(string, int)>): Doc
    decreases |deltas|
  {
    if deltas == [] then d else IncCounts(IncCount(d, deltas[0].0, deltas[0].1), deltas[1..])
  }

  // ---------------------------------------------------------------------------
  // Sorting and paging of aggregation results

  predicate SortedDesc<T>(s: seq<T>, key: T -> int) {
    forall i, j :: 0 <= i < j < |s| ==> key(s[i]) >= key(s[j])
  }

  /** Places `x` in front of the first element whose key is not larger. */
  function InsertDesc<T>(x: T, s: seq<T>, key: T -> int): (r: seq<T>)
    ensures multiset(r) == multiset(s) + multiset{x}
    ensures |r| == |s| + 1
  {
    if s == [] || key(s[0]) <= key(x) then [x] + s
    else
      assert s == [s[0]] + s[1..];
      [s[0]] + InsertDesc(x, s[1..], key)
  }

  /**
   * `$sort: { key: -1 }`.  The store leaves the order of equal keys open;
   * the model keeps them in collection order.
   */
  function SortDesc<T>(s: seq<T>, key: T -> int): (r: seq<T>)
    ensures multiset(r) == multiset(s)
    ensures |r| == |s|
  {
    if s == [] then []
    else
      assert s == [s[0]] + s[1..];
      InsertDesc(s[0], SortDesc(s[1..], key), key)
  }

  /** `$skip: skip`, then `$limit: limit`. */
  function Paged<T>(s: seq<T>, skip: nat, limit: nat): (r: seq<T>)
    ensures |r| <= limit
    ensures skip <= |s| ==> |r| == if |s| - skip < limit then |s| - skip else limit
    ensures skip <= |s| ==> r == s[skip..skip + |r|]
    ensures skip > |s| ==> r == []
  {
    if skip > |s| then []
    else
      var rest := s[skip..];
      if |rest| <= limit then rest else rest[..limit]
  }

  lemma {:induction false} InsertDescSorted<T>(x: T, s: seq<T>, key: T -> int)
    requires SortedDesc(s, key)
    ensures SortedDesc(InsertDesc(x, s, key), key)
    decreases |s|
  {
    if s != [] && key(s[0]) > key(x) {
      var t := s[1..];
      assert SortedDesc(t, key) by {
        forall i, j | 0 <= i < j < |t| ensures key(t[i]) >= key(t[j]) {
          assert t[i] == s[i + 1] && t[j] == s[j + 1];
        }
      }
      InsertDescSorted(x, t, key);
      var r := InsertDesc(x, t, key);
      forall y | y in r ensures key(s[0]) >= key(y) {
        assert y in multiset(r);
        if y != x {
          assert y in multiset(t);
          var k :| 0 <= k < |t| && t[k] == y;
          assert s[k + 1] == y;
        }
      }
      var w := [s[0]] + r;
      forall i, j | 0 <= i < j < |w| ensures key(w[i]) >= key(w[j]) {
        assert w[j] == r[j - 1];
        assert w[j] in r;
        if i > 0 {
          assert w[i] == r[i - 1];
        }
      }
    } else {
      var w := [x] + s;
      forall i, j | 0 <= i < j < |w| ensures key(w[i]) >= key(w[j]) {
        assert w[j] == s[j - 1];
        if i > 0 {
          assert w[i] == s[i - 1];
        } else if j > 1 {
          assert key(s[0]) >= key(s[j - 1]);
        }
      }
    }
  }

  /** The sort yields its input in descending key order. */
  lemma {:induction false} SortDescSorted<T>(s: seq<T>, key: T -> int)
    ensures SortedDesc(SortDesc(s, key), key)
    decreases |s|
  {
    if s != [] {
      SortDescSorted(s[1..], key);
      InsertDescSorted(s[0], SortDesc(s[1..], key), key);
    }
  }

  /** The first document with an id is the one removed; the others keep their order. */
  lemma DeleteByIdEffect(ds: seq<Doc>, id: string)
    ensures FirstWithId(ds, id).None? ==> DeleteById(ds, id) == ds
    ensures FirstWithId(ds, id).Some? ==>
      var i := FirstWithId(ds, id).value;
      |DeleteById(ds, id)| == |ds| - 1
      && multiset(DeleteById(ds, id)) + multiset{ds[i]} == multiset(ds)
  {
    match FirstWithId(ds, id)
    case None =>
    case Some(i) =>
      var a, b := ds[..i], ds[i + 1..];
      assert ds == a + [ds[i]] + b;
      calc {
        multiset(ds);
        multiset(a + [ds[i]] + b);
        multiset(a) + multiset{ds[i]} + multiset(b);
        multiset(a + b) + multiset{ds[i]};
      }
  }

  /** An update by id touches one document at most and keeps the collection's size. */
  lemma UpdateByIdEffect(ds: seq<Doc>, id: string, u: Update)
    ensures |UpdateById(ds, id, u)| == |ds|
    ensures forall j :: 0 <= j < |ds| && !HasId(ds[j], id) ==> UpdateById(ds, id, u)[j] == ds[j]
    ensures FirstWithId(ds, id).Some? ==>
      var i := FirstWithId(ds, id).value;
      UpdateById(ds, id, u)[i] == Apply(u, ds[i])
  {
  }

  /** `$inc` moves a numeric field by exactly `delta`, a missing one to `delta`, and nothing else. */
  lemma IncFieldEffect(d: Doc, f: string, delta: int)
    ensures NumField(d, f).Some? ==> NumField(IncField(d, f, delta), f) == Some(NumField(d, f).value + delta)
    ensures f !in d ==> NumField(IncField(d, f, delta), f) == Some(delta)
    ensures forall g :: g != f ==> Field(IncField(d, f, delta), g) == Field(d, g)
  {
  }

  /** `$inc` on one reaction kind moves that count by `delta` and leaves the other counts. */
  lemma IncCountEffect(d: Doc, kind: string, delta: int)
    requires "reactions" in d && d["reactions"].Obj?
    ensures var r := IncCount(d, kind, delta);
      "reactions" in r && r["reactions"].Obj?
      && CountOf(r["reactions"].counts, kind) == CountOf(d["reactions"].counts, kind) + delta
      && (forall k :: k != kind ==> CountOf(r["reactions"].counts, k) == CountOf(d["reactions"].counts, k))
      && (forall g :: g != "reactions" ==> Field(r, g) == Field(d, g))
  {
  }

  // ---------------------------------------------------------------------------
  // Typed records

  /** An image record (IFileImageDocument). */
  datatype Image = Image(
    id: string,
    userId: string,
    bgImageVersion: string,
    bgImageId: string,
    imgVersion: string,
    imgId: string)

  /** A notification record (INotificationDocument). */
  datatype Notification = Notification(
    userFrom: string,
    userTo: string,
    message: string,
    notificationType: string,
    entityId: string,
    createdItemId: string,
    createdAt: int,
    comment: Val,
    post: Option<DbValue>,
    imgId: Option<DbValue>,
    imgVersion: Option<DbValue>,
    gifUrl: Option<DbValue>,
    reaction: Val)

  /** The store itself. */
  class Db {
    var posts: seq<Doc>
    var users: seq<Doc>
    var comments: seq<Comment>
    var reactions: seq<Reaction>
    var images: seq<Image>
    var notifications: seq<Notification>

    constructor ()
      ensures posts == [] && users == [] && comments == [] && reactions == []
      ensures images == [] && notifications == []
    {
      posts := [];
      users := [];
      comments := [];
      reactions := [];
      images := [];
      notifications := [];
    }
  }
}
