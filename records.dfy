/**
 * The records the cache-aside pipeline moves around (posts, comments,
 * reactions, reaction counts), the cache key layout, and the string
 * encodings of records kept in cache lists and hash fields.
 */
module Records {
  import opened Wrappers
  import opened Numbers
  import Netstring

  // ---------------------------------------------------------------------------
  // Cache key layout

  /** Name of the sorted set of post ids scored by the author's numeric uId. */
  const POST_SET: string := "post"

  function PostKey(id: string): string { "posts:" + id }
  function UserKey(id: string): string { "users:" + id }
  function CommentsKey(postId: string): string { "comments:" + postId }
  function ReactionsKey(postId: string): string { "reactions:" + postId }
  function FollowingKey(userId: string): string { "following:" + userId }
  function FollowersKey(userId: string): string { "followers:" + userId }

  /** A post hash and a user hash never share a key. */
  lemma PostKeyNotUserKey(a: string, b: string)
    ensures PostKey(a) != UserKey(b)
  {
    assert PostKey(a)[0] == 'p' && UserKey(b)[0] == 'u';
  }

  /** A comment list and a reaction list never share a key. */
  lemma CommentsKeyNotReactionsKey(a: string, b: string)
    ensures CommentsKey(a) != ReactionsKey(b)
  {
    assert CommentsKey(a)[0] == 'c' && ReactionsKey(b)[0] == 'r';
  }

  /** A following collection and a followers collection never share a key. */
  lemma FollowingKeyNotFollowersKey(a: string, b: string)
    ensures FollowingKey(a) != FollowersKey(b)
  {
    assert FollowingKey(a)[6] == 'i' && FollowersKey(b)[6] == 'e';
  }

  /** Each key family is injective: distinct ids give distinct keys. */
  lemma KeysInjective(a: string, b: string)
    requires a != b
    ensures PostKey(a) != PostKey(b) && UserKey(a) != UserKey(b)
    ensures CommentsKey(a) != CommentsKey(b) && ReactionsKey(a) != ReactionsKey(b)
    ensures FollowingKey(a) != FollowingKey(b) && FollowersKey(a) != FollowersKey(b)
  {
    assert PostKey(a)[6..] == a && PostKey(b)[6..] == b;
    assert UserKey(a)[6..] == a && UserKey(b)[6..] == b;
    assert CommentsKey(a)[9..] == a && CommentsKey(b)[9..] == b;
    assert ReactionsKey(a)[10..] == a && ReactionsKey(b)[10..] == b;
    assert FollowingKey(a)[10..] == a && FollowingKey(b)[10..] == b;
    assert FollowersKey(a)[10..] == a && FollowersKey(b)[10..] == b;
  }

  // ---------------------------------------------------------------------------
  // Reaction counts (IReactions)

  /** Reaction kind -> number of reactions of that kind. */
  type Counts = map<string, int>

  /** The six kinds of IReactions, in the order the post record lists them. */
  const KINDS: seq<string> := ["like", "love", "happy", "sad", "wow", "angry"]

  /** The counts of a freshly created post: every kind at zero. */
  const ZERO_COUNTS: Counts := SixCounts(0, 0, 0, 0, 0, 0)

  /** `m[k]`, with an absent kind read as 0. */
  function CountOf(m: Counts, k: string): int {
    if k in m then m[k] else 0
  }

  /** A counts object with exactly the six kinds of IReactions. */
  predicate StandardCounts(m: Counts) {
    m.Keys == {"like", "love", "happy", "sad", "wow", "angry"}
  }

  function EncodeCounts(m: Counts): string {
    Netstring.Encode([IntToString(CountOf(m, "like")), IntToString(CountOf(m, "love")),
                      IntToString(CountOf(m, "happy")), IntToString(CountOf(m, "sad")),
                      IntToString(CountOf(m, "wow")), IntToString(CountOf(m, "angry"))])
  }

  /** The counts object with the six kinds at the given values. */
  function SixCounts(like: int, love: int, happy: int, sad: int, wow: int, angry: int): Counts {
    map["like" := like, "love" := love, "happy" := happy, "sad" := sad, "wow" := wow,
        "angry" := angry]
  }

  function DecodeCounts(s: string): Option<Counts> {
    match Netstring.Decode(s)
    case None => None
    case Some(fs) =>
      if |fs| != 6 then None
      else if JsonInt(fs[0]).None? || JsonInt(fs[1]).None? || JsonInt(fs[2]).None?
           || JsonInt(fs[3]).None? || JsonInt(fs[4]).None? || JsonInt(fs[5]).None? then None
      else Some(SixCounts(JsonInt(fs[0]).value, JsonInt(fs[1]).value, JsonInt(fs[2]).value,
                          JsonInt(fs[3]).value, JsonInt(fs[4]).value, JsonInt(fs[5]).value))
  }

  lemma StandardCountsAreSix(m: Counts)
    requires StandardCounts(m)
    ensures m == SixCounts(m["like"], m["love"], m["happy"], m["sad"], m["wow"], m["angry"])
  {
    var n := SixCounts(m["like"], m["love"], m["happy"], m["sad"], m["wow"], m["angry"]);
    assert n.Keys == m.Keys;
    forall k | k in m ensures m[k] == n[k] {}
  }

  /** Counts with the six standard kinds survive the cache round trip. */
  lemma DecodeEncodeCounts(m: Counts)
    requires StandardCounts(m)
    ensures DecodeCounts(EncodeCounts(m)) == Some(m)
  {
    var fs := [IntToString(m["like"]), IntToString(m["love"]), IntToString(m["happy"]),
               IntToString(m["sad"]), IntToString(m["wow"]), IntToString(m["angry"])];
    assert EncodeCounts(m) == Netstring.Encode(fs);
    Netstring.DecodeEncode(fs);
    JsonIntOfIntToString(m["like"]);
    JsonIntOfIntToString(m["love"]);
    JsonIntOfIntToString(m["happy"]);
    JsonIntOfIntToString(m["sad"]);
    JsonIntOfIntToString(m["wow"]);
    JsonIntOfIntToString(m["angry"]);
    StandardCountsAreSix(m);
  }

  // ---------------------------------------------------------------------------
  // Optional values inside encoded records

  function EncodeVal(v: Val): string {
    match v
    case None => Netstring.Encode([])
    case Some(s) => Netstring.Encode([s])
  }

  function DecodeVal(s: string): Option<Val> {
    match Netstring.Decode(s)
    case Some(fs) =>
      if |fs| == 0 then Some(None) else if |fs| == 1 then Some(Some(fs[0])) else None
    case None => None
  }

  lemma DecodeEncodeVal(v: Val)
    ensures DecodeVal(EncodeVal(v)) == Some(v)
  {
    match v
    case None => Netstring.DecodeEncode([]);
    case Some(s) => Netstring.DecodeEncode([s]);
  }

  lemma EncodeDecodeVal(s: string)
    requires DecodeVal(s).Some?
    ensures EncodeVal(DecodeVal(s).value) == s
  {
    Netstring.EncodeDecode(s);
    var fs := Netstring.Decode(s).value;
    if |fs| == 1 {
      assert fs == [fs[0]];
    }
  }

  // ---------------------------------------------------------------------------
  // Comments (ICommentDocument)

  datatype Comment = Comment(
    id: string,
    postId: Val,
    username: string,
    avatarColor: string,
    profilePicture: Val,
    comment: Val,
    createdAt: int)

  function CommentFields(c: Comment): seq<string> {
    [c.id, EncodeVal(c.postId), c.username, c.avatarColor,
     EncodeVal(c.profilePicture), EncodeVal(c.comment), IntToString(c.createdAt)]
  }

  /** `JSON.stringify(comment)`. */
  function EncodeComment(c: Comment): string {
    Netstring.Encode(CommentFields(c))
  }

  /** `JSON.parse` of a cached comment; `None` for text that is not one. */
  function DecodeComment(s: string): Option<Comment> {
    match Netstring.Decode(s)
    case None => None
    case Some(fs) =>
      if |fs| != 7 || DecodeVal(fs[1]).None? || DecodeVal(fs[4]).None?
         || DecodeVal(fs[5]).None? || JsonInt(fs[6]).None? then None
      else Some(Comment(fs[0], DecodeVal(fs[1]).value, fs[2], fs[3],
                        DecodeVal(fs[4]).value, DecodeVal(fs[5]).value, JsonInt(fs[6]).value))
  }

  /** A cached comment reads back as the comment that was written. */
  lemma DecodeEncodeComment(c: Comment)
    ensures DecodeComment(EncodeComment(c)) == Some(c)
  {
    Netstring.DecodeEncode(CommentFields(c));
    DecodeEncodeVal(c.postId);
    DecodeEncodeVal(c.profilePicture);
    DecodeEncodeVal(c.comment);
    JsonIntOfIntToString(c.createdAt);
  }

  // ---------------------------------------------------------------------------
  // Reactions (IReactionDocument)

  /** A reaction record; the avatar colour sits under the property `avataColor`. */
  datatype Reaction = Reaction(
    id: string,
    postId: Val,
    reactionType: Val,
    avataColor: string,
    username: string,
    profilePicture: Val)

  function ReactionFields(r: Reaction): seq<string> {
    [r.id, EncodeVal(r.postId), EncodeVal(r.reactionType), r.avataColor, r.username,
     EncodeVal(r.profilePicture)]
  }

  /** `JSON.stringify(reaction)`. */
  function EncodeReaction(r: Reaction): string {
    Netstring.Encode(ReactionFields(r))
  }

  function DecodeReaction(s: string): Option<Reaction> {
    match Netstring.Decode(s)
    case None => None
    case Some(fs) =>
      if |fs| != 6 || DecodeVal(fs[1]).None? || DecodeVal(fs[2]).None?
         || DecodeVal(fs[5]).None? then None
      else Some(Reaction(fs[0], DecodeVal(fs[1]).value, DecodeVal(fs[2]).value, fs[3], fs[4],
                         DecodeVal(fs[5]).value))
  }

  /** A cached reaction reads back as the reaction that was written. */
  lemma DecodeEncodeReaction(r: Reaction)
    ensures DecodeReaction(EncodeReaction(r)) == Some(r)
  {
    Netstring.DecodeEncode(ReactionFields(r));
    DecodeEncodeVal(r.postId);
    DecodeEncodeVal(r.reactionType);
    DecodeEncodeVal(r.profilePicture);
  }

  /**
   * A cached text that decodes to a reaction is exactly that reaction's
   * encoding, so removing "the encoding of the decoded entry" removes that
   * very text.
   */
  lemma EncodeDecodeReaction(s: string)
    requires DecodeReaction(s).Some?
    ensures EncodeReaction(DecodeReaction(s).value) == s
  {
    var fs := Netstring.Decode(s).value;
    Netstring.EncodeDecode(s);
    EncodeDecodeVal(fs[1]);
    EncodeDecodeVal(fs[2]);
    EncodeDecodeVal(fs[5]);
    assert ReactionFields(DecodeReaction(s).value) == fs;
  }

  // ---------------------------------------------------------------------------
  // Parsing cached text back into values

  /** What `Helpers.parseJson` makes of a cached text. */
  datatype Json = JNum(n: int) | JCounts(counts: Counts) | JText(text: string)

  /**
   * `JSON.parse(s)`, falling back to the text itself when it is not JSON.
   * Only the two kinds of JSON the post hash holds are recognised: the
   * encoded reaction counts and integer numerals.
   */
  function ParseJson(s: string): Json {
    match DecodeCounts(s)
    case Some(m) => JCounts(m)
    case None =>
      match JsonInt(s)
      case Some(i) => JNum(i)
      case None => JText(s)
  }

  lemma NumeralIsNotCounts(i: int)
    ensures DecodeCounts(IntToString(i)) == None
  {
    var s := IntToString(i);
    if i >= 0 {
      DigitRunOfDigits(s, []);
      assert s + [] == s;
    }
    assert Netstring.DecodeItem(s) == None;
  }

  /** A numeral written to the cache parses back as that number. */
  lemma ParseJsonOfNumeral(i: int)
    ensures ParseJson(IntToString(i)) == JNum(i)
  {
    NumeralIsNotCounts(i);
    JsonIntOfIntToString(i);
  }

  /** Encoded standard counts parse back as the same counts. */
  lemma ParseJsonOfCounts(m: Counts)
    requires StandardCounts(m)
    ensures ParseJson(EncodeCounts(m)) == JCounts(m)
  {
    DecodeEncodeCounts(m);
  }

  // ---------------------------------------------------------------------------
  // Posts (IPostDocument)

  /**
   * A post as the create controllers build it.  The author fields come from
   * the signed-in user; the body fields are whatever the client sent
   * (`None` when it sent nothing); `createdAt` is in milliseconds.
   */
  datatype Post = Post(
    id: string,
    userId: string,
    username: string,
    email: string,
    avatarColor: string,
    profilePicture: Val,
    post: Val,
    bgColor: Val,
    feelings: Val,
    privacy: Val,
    gifUrl: Val,
    commentsCount: int,
    imgVersion: Val,
    imgId: Val,
    videoId: Val,
    videoVersion: Val,
    reactions: Counts,
    createdAt: int)

  /** The ten editable fields the update controllers hand to the post cache. */
  datatype PostEdit = PostEdit(
    post: Val,
    bgColor: Val,
    privacy: Val,
    feelings: Val,
    gifUrl: Val,
    profilePicture: Val,
    imgId: Val,
    imgVersion: Val,
    videoId: Val,
    videoVersion: Val)
}
