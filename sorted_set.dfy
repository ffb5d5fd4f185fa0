/**
 * A Redis sorted set as the sequence of its entries in Redis order:
 * ascending score, ties broken by the member's byte-wise lexicographic order.
 * Only integer scores occur in the pipeline (a user's numeric uId).
 */
module SortedSet {
  datatype Entry = Entry(member: string, score: int)

  /** Byte-wise lexicographic order on strings (a proper prefix comes first). */
  predicate LexLess(a: string, b: string)
    decreases |a|
  {
    if |a| == 0 then |b| > 0
    else if |b| == 0 then false
    else if a[0] != b[0] then a[0] < b[0]
    else LexLess(a[1..], b[1..])
  }

  lemma {:induction false} LexLessIrreflexive(a: string)
    ensures !LexLess(a, a)
    decreases |a|
  {
    if |a| > 0 {
      LexLessIrreflexive(a[1..]);
    }
  }

  lemma {:induction false} LexLessTransitive(a: string, b: string, c: string)
    requires LexLess(a, b) && LexLess(b, c)
    ensures LexLess(a, c)
    decreases |a|
  {
    if |a| > 0 && a[0] == b[0] && b[0] == c[0] {
      LexLessTransitive(a[1..], b[1..], c[1..]);
    }
  }

  lemma {:induction false} LexLessTotal(a: string, b: string)
    requires a != b
    ensures LexLess(a, b) || LexLess(b, a)
    decreases |a|
  {
    if |a| > 0 && |b| > 0 && a[0] == b[0] {
      assert a == [a[0]] + a[1..] && b == [b[0]] + b[1..];
      LexLessTotal(a[1..], b[1..]);
    }
  }

  /** The Redis order of entries. */
  predicate Before(x: Entry, y: Entry) {
    x.score < y.score || (x.score == y.score && LexLess(x.member, y.member))
  }

  lemma BeforeTransitive(x: Entry, y: Entry, z: Entry)
    requires Before(x, y) && Before(y, z)
    ensures Before(x, z)
  {
    if x.score == y.score == z.score {
      LexLessTransitive(x.member, y.member, z.member);
    }
  }

  /** Strictly increasing in Redis order; in particular no member occurs twice. */
  predicate Sorted(z: seq<Entry>) {
    forall i, j :: 0 <= i < j < |z| ==> Before(z[i], z[j])
  }

  predicate HasMember(z: seq<Entry>, m: string) {
    exists e :: e in z && e.member == m
  }

  /** No member occurs twice. */
  predicate Distinct(z: seq<Entry>) {
    z == [] || (!HasMember(z[1..], z[0].member) && Distinct(z[1..]))
  }

  /** The shape every sorted set in the store keeps. */
  predicate Valid(z: seq<Entry>) {
    Sorted(z) && Distinct(z)
  }

  function Members(z: seq<Entry>): (ms: seq<string>)
    ensures |ms| == |z|
    ensures forall i :: 0 <= i < |z| ==> ms[i] == z[i].member
  {
    if z == [] then [] else [z[0].member] + Members(z[1..])
  }

  /** ZREM: the set without member `m`. */
  function Remove(z: seq<Entry>, m: string): (r: seq<Entry>)
    ensures forall e :: e in r <==> e in z && e.member != m
    ensures |r| <= |z|
  {
    if z == [] then []
    else if z[0].member == m then Remove(z[1..], m)
    else [z[0]] + Remove(z[1..], m)
  }

  /** Places `e` at its position in Redis order. */
  function Insert(z: seq<Entry>, e: Entry): (r: seq<Entry>)
    ensures multiset(r) == multiset(z) + multiset{e}
    ensures forall x :: x in r <==> x == e || x in z
  {
    if z == [] || Before(e, z[0]) then [e] + z
    else
      assert z == [z[0]] + z[1..];
      [z[0]] + Insert(z[1..], e)
  }

  /** ZADD: sets member `m` to `score`, replacing any earlier score. */
  function Add(z: seq<Entry>, m: string, score: int): seq<Entry> {
    Insert(Remove(z, m), Entry(m, score))
  }

  /** ZCARD. */
  function Card(z: seq<Entry>): nat {
    |z|
  }

  /** ZCOUNT key min max: the entries whose score lies in [min, max]. */
  function Count(z: seq<Entry>, min: int, max: int): (n: nat)
    ensures n <= |z|
  {
    if z == [] then 0
    else (if min <= z[0].score <= max then 1 else 0) + Count(z[1..], min, max)
  }

  /**
   * ZRANGE key start stop: the members at positions start..stop inclusive,
   * where a negative position counts from the end, a start before the
   * beginning is read as 0 and a stop past the end as the last position.
   */
  function RangeByIndex(z: seq<Entry>, start: int, stop: int): (r: seq<string>)
    ensures |r| <= |z|
  {
    var n := |z|;
    var s := if start < 0 then (if n + start < 0 then 0 else n + start) else start;
    var t := if stop < 0 then n + stop else if stop >= n then n - 1 else stop;
    if s >= n || s > t then [] else Members(z[s..t + 1])
  }

  /** The members whose score lies in [min, max], in Redis order. */
  function InScore(z: seq<Entry>, min: int, max: int): (r: seq<string>)
    ensures |r| == Count(z, min, max)
  {
    if z == [] then []
    else (if min <= z[0].score <= max then [z[0].member] else []) + InScore(z[1..], min, max)
  }

  function Reverse<T>(s: seq<T>): (r: seq<T>)
    ensures |r| == |s|
    ensures forall i :: 0 <= i < |s| ==> r[i] == s[|s| - 1 - i]
  {
    if s == [] then [] else Reverse(s[1..]) + [s[0]]
  }

  /** ZRANGE key max min BYSCORE REV: the members with score in [min, max], last first. */
  function RangeByScoreRev(z: seq<Entry>, max: int, min: int): (r: seq<string>)
    ensures |r| == Count(z, min, max)
  {
    Reverse(InScore(z, min, max))
  }

  // ---------------------------------------------------------------------------
  // Properties

  lemma SortedTail(z: seq<Entry>)
    requires Sorted(z) && z != []
    ensures Sorted(z[1..])
  {
    forall i, j | 0 <= i < j < |z[1..]| ensures Before(z[1..][i], z[1..][j]) {
      assert z[1..][i] == z[i + 1] && z[1..][j] == z[j + 1];
    }
  }

  lemma SortedCons(x: Entry, r: seq<Entry>)
    requires Sorted(r)
    requires forall y :: y in r ==> Before(x, y)
    ensures Sorted([x] + r)
  {
    var s := [x] + r;
    forall i, j | 0 <= i < j < |s| ensures Before(s[i], s[j]) {
      assert s[j] == r[j - 1];
      if i > 0 {
        assert s[i] == r[i - 1];
      }
    }
  }

  lemma {:induction false} RemoveValid(z: seq<Entry>, m: string)
    requires Valid(z)
    ensures Valid(Remove(z, m))
    decreases |z|
  {
    if z != [] {
      SortedTail(z);
      RemoveValid(z[1..], m);
      var r := Remove(z[1..], m);
      if z[0].member != m {
        forall y | y in r ensures Before(z[0], y) {
          var k :| 0 <= k < |z[1..]| && z[1..][k] == y;
          assert z[k + 1] == y;
        }
        SortedCons(z[0], r);
        assert ([z[0]] + r)[1..] == r;
      }
    }
  }

  lemma {:induction false} InsertSorted(z: seq<Entry>, e: Entry)
    requires Sorted(z) && !HasMember(z, e.member)
    ensures Sorted(Insert(z, e))
    decreases |z|
  {
    if z == [] {
    } else if Before(e, z[0]) {
      forall y | y in z ensures Before(e, y) {
        var k :| 0 <= k < |z| && z[k] == y;
        if k > 0 {
          BeforeTransitive(e, z[0], z[k]);
        }
      }
      SortedCons(e, z);
    } else {
      assert z[0] in z;
      LexLessTotal(z[0].member, e.member);
      SortedTail(z);
      InsertSorted(z[1..], e);
      var r := Insert(z[1..], e);
      forall y | y in r ensures Before(z[0], y) {
        if y != e {
          var k :| 0 <= k < |z[1..]| && z[1..][k] == y;
          assert z[k + 1] == y;
        }
      }
      SortedCons(z[0], r);
    }
  }

  lemma {:induction false} InsertDistinct(z: seq<Entry>, e: Entry)
    requires Distinct(z) && !HasMember(z, e.member)
    ensures Distinct(Insert(z, e))
    decreases |z|
  {
    if z == [] {
      assert ([e])[1..] == [];
    } else if Before(e, z[0]) {
      assert ([e] + z)[1..] == z;
    } else {
      assert z[0] in z;
      InsertDistinct(z[1..], e);
      var r := Insert(z[1..], e);
      assert ([z[0]] + r)[1..] == r;
    }
  }

  /** ZADD keeps the set sorted with each member once. */
  lemma AddValid(z: seq<Entry>, m: string, score: int)
    requires Valid(z)
    ensures Valid(Add(z, m, score))
  {
    RemoveValid(z, m);
    InsertSorted(Remove(z, m), Entry(m, score));
    InsertDistinct(Remove(z, m), Entry(m, score));
  }

  lemma {:induction false} RemoveAbsent(z: seq<Entry>, m: string)
    requires !HasMember(z, m)
    ensures Remove(z, m) == z
    decreases |z|
  {
    if z != [] {
      assert z[0] in z;
      assert !HasMember(z[1..], m) by {
        forall x | x in z[1..] ensures x.member != m {
          assert x in z;
        }
      }
      RemoveAbsent(z[1..], m);
      assert z == [z[0]] + z[1..];
    }
  }

  lemma {:induction false} CountInsert(z: seq<Entry>, e: Entry, min: int, max: int)
    ensures Count(Insert(z, e), min, max) == Count(z, min, max) + (if min <= e.score <= max then 1 else 0)
    decreases |z|
  {
    if z != [] && !Before(e, z[0]) {
      CountInsert(z[1..], e, min, max);
      assert Insert(z, e)[1..] == Insert(z[1..], e);
    } else {
      assert ([e] + z)[1..] == z;
    }
  }

  /**
   * ZADD of a member not yet in the set grows ZCARD by one and
   * ZCOUNT(score, score) by one.
   */
  lemma AddNew(z: seq<Entry>, m: string, score: int)
    requires !HasMember(z, m)
    ensures Card(Add(z, m, score)) == Card(z) + 1
    ensures Count(Add(z, m, score), score, score) == Count(z, score, score) + 1
    ensures HasMember(Add(z, m, score), m)
  {
    RemoveAbsent(z, m);
    CountInsert(z, Entry(m, score), score, score);
    var r := Add(z, m, score);
    assert |multiset(r)| == |multiset(z)| + 1;
    assert Entry(m, score) in multiset(r);
  }

  /** ZREM drops exactly the member's entry: ZCARD falls by one when it was there. */
  lemma {:induction false} RemoveCard(z: seq<Entry>, m: string)
    requires Distinct(z)
    ensures Card(Remove(z, m)) == Card(z) - (if HasMember(z, m) then 1 else 0)
    ensures !HasMember(Remove(z, m), m)
    decreases |z|
  {
    if z != [] {
      RemoveCard(z[1..], m);
      assert z[0] in z;
      assert forall x :: x in z <==> x == z[0] || x in z[1..] by {
        assert z == [z[0]] + z[1..];
      }
      if z[0].member == m {
        assert !HasMember(z[1..], m);
      }
    }
  }

  /** A scored range holds exactly the members whose score lies in the range. */
  lemma {:induction false} InScoreMembers(z: seq<Entry>, min: int, max: int, m: string)
    ensures m in InScore(z, min, max) <==> exists e :: e in z && e.member == m && min <= e.score <= max
    decreases |z|
  {
    if z != [] {
      InScoreMembers(z[1..], min, max, m);
      assert forall e :: e in z <==> e == z[0] || e in z[1..] by {
        assert z == [z[0]] + z[1..];
      }
    }
  }
}
