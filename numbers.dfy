/**
 * Numbers as the cache stores them: decimal strings.  `NatToString` and
 * `IntToString` are JavaScript's `String(n)` for integers, `ParseInt` is
 * `parseInt(s, 10)`, and `JsonInt` is what `JSON.parse` makes of an integer
 * literal.  A JavaScript `NaN` is `None`.
 */
module Numbers {
  import opened Wrappers

  predicate IsDigit(c: char) {
    '0' <= c <= '9'
  }

  predicate AllDigits(s: string) {
    forall i :: 0 <= i < |s| ==> IsDigit(s[i])
  }

  /** A decimal numeral without superfluous leading zeros. */
  predicate Canonical(s: string) {
    |s| > 0 && AllDigits(s) && (|s| > 1 ==> s[0] != '0')
  }

  function DigitChar(d: nat): (c: char)
    requires d < 10
    ensures IsDigit(c) && c as int - '0' as int == d
  {
    (d + '0' as int) as char
  }

  function DigitValue(c: char): nat
    requires IsDigit(c)
  {
    c as int - '0' as int
  }

  /** The decimal numeral of `n`, most significant digit first. */
  function NatToString(n: nat): (s: string)
    ensures Canonical(s)
    decreases n
  {
    if n < 10 then [DigitChar(n)] else NatToString(n / 10) + [DigitChar(n % 10)]
  }

  /** The value of a string of decimal digits (0 for the empty string). */
  function DigitsValue(s: string): nat
    requires AllDigits(s)
    decreases |s|
  {
    if s == [] then 0 else 10 * DigitsValue(s[..|s| - 1]) + DigitValue(s[|s| - 1])
  }

  /** Length of the longest prefix of `s` made of decimal digits. */
  function DigitRun(s: string): (n: nat)
    ensures n <= |s| && AllDigits(s[..n])
    ensures n < |s| ==> !IsDigit(s[n])
    decreases |s|
  {
    if s == [] || !IsDigit(s[0]) then 0
    else
      var k := DigitRun(s[1..]);
      assert s[..k + 1] == [s[0]] + s[1..][..k];
      k + 1
  }

  /** `String(i)` for an integer `i`. */
  function IntToString(i: int): string {
    if i < 0 then "-" + NatToString(-i) else NatToString(i)
  }

  /**
   * `parseInt(s, 10)`: an optional sign, then the longest run of decimal
   * digits; `None` (NaN) when there is no digit.  Leading white space,
   * which JavaScript skips, is not modelled.
   */
  function ParseInt(s: string): Option<int> {
    if |s| > 0 && (s[0] == '-' || s[0] == '+') then
      var t := s[1..];
      var n := DigitRun(t);
      var v: int := if n == 0 then 0 else DigitsValue(t[..n]);
      if n == 0 then None
      else if s[0] == '-' then Some(-v)
      else Some(v)
    else
      var n := DigitRun(s);
      if n == 0 then None else Some(DigitsValue(s[..n]))
  }

  /**
   * `JSON.parse` of an integer literal: the canonical numerals of
   * `IntToString` and nothing else.
   */
  function JsonInt(s: string): Option<int> {
    match ParseInt(s)
    case Some(i) => if IntToString(i) == s then Some(i) else None
    case None => None
  }

  /**
   * `parseInt(v, 10) + delta` written back with `String(…)`, where `v` is
   * what HMGET returned for one field (`None` for a missing field, which
   * `parseInt` turns into NaN).  The read-adjust-write of postsCount and of
   * the follower counters.
   */
  function AdjustedCount(v: Option<string>, delta: int): string {
    match v
    case None => "NaN"
    case Some(s) =>
      match ParseInt(s)
      case Some(i) => IntToString(i + delta)
      case None => "NaN"
  }

  /**
   * `count = parseJson(v); count += 1; `${count}``, the commentsCount update.
   * A missing field parses to `null`, and `null + 1` is 1; a stored value
   * that is not an integer literal stays a string, and `+ 1` appends "1".
   */
  function JsonCountPlusOne(v: Option<string>): string {
    match v
    case None => "1"
    case Some(s) =>
      match JsonInt(s)
      case Some(i) => IntToString(i + 1)
      case None => s + "1"
  }

  lemma {:induction false} DigitRunOfDigits(s: string, rest: string)
    requires AllDigits(s)
    requires rest == [] || !IsDigit(rest[0])
    ensures DigitRun(s + rest) == |s|
    decreases |s|
  {
    if s != [] {
      assert (s + rest)[1..] == s[1..] + rest;
      DigitRunOfDigits(s[1..], rest);
    } else {
      assert s + rest == rest;
    }
  }

  lemma {:induction false} DigitsValueOfNatToString(n: nat)
    ensures DigitsValue(NatToString(n)) == n
    decreases n
  {
    if n >= 10 {
      var s := NatToString(n / 10);
      var t := NatToString(n);
      assert t == s + [DigitChar(n % 10)];
      assert t[..|t| - 1] == s;
      DigitsValueOfNatToString(n / 10);
    }
  }

  lemma {:induction false} DigitsValuePositive(s: string)
    requires |s| > 0 && AllDigits(s) && s[0] != '0'
    ensures DigitsValue(s) >= 1
    decreases |s|
  {
    if |s| > 1 {
      DigitsValuePositive(s[..|s| - 1]);
    }
  }

  /** Every canonical numeral is the numeral of its own value. */
  lemma {:induction false} NatToStringOfDigitsValue(s: string)
    requires Canonical(s)
    ensures NatToString(DigitsValue(s)) == s
    decreases |s|
  {
    if |s| > 1 {
      var p := s[..|s| - 1];
      assert Canonical(p);
      DigitsValuePositive(p);
      NatToStringOfDigitsValue(p);
      var v := DigitsValue(s);
      assert v / 10 == DigitsValue(p) && v % 10 == DigitValue(s[|s| - 1]);
      assert s == p + [s[|s| - 1]];
    }
  }

  /** `parseInt(String(i), 10) == i`. */
  lemma ParseIntOfIntToString(i: int)
    ensures ParseInt(IntToString(i)) == Some(i)
  {
    var m: nat := if i < 0 then -i else i;
    var d := NatToString(m);
    DigitRunOfDigits(d, []);
    assert d + [] == d && d[..|d|] == d;
    DigitsValueOfNatToString(m);
    if i < 0 {
      assert IntToString(i)[1..] == d;
    }
  }

  /** An integer's numeral is read back by `JSON.parse` as that integer. */
  lemma JsonIntOfIntToString(i: int)
    ensures JsonInt(IntToString(i)) == Some(i)
  {
    ParseIntOfIntToString(i);
  }

  /** Distinct integers have distinct numerals. */
  lemma IntToStringInjective(i: int, j: int)
    requires IntToString(i) == IntToString(j)
    ensures i == j
  {
    ParseIntOfIntToString(i);
    ParseIntOfIntToString(j);
  }

  /**
   * The read-adjust-write of a counter held as a numeral moves it by exactly
   * `delta`; NaN (a missing field or a non-numeral) is written back as "NaN".
   */
  lemma AdjustedCountOfNumeral(n: int, delta: int)
    ensures AdjustedCount(Some(IntToString(n)), delta) == IntToString(n + delta)
    ensures JsonInt(AdjustedCount(Some(IntToString(n)), delta)) == Some(n + delta)
  {
    ParseIntOfIntToString(n);
    JsonIntOfIntToString(n + delta);
  }

  /** A comments counter held as a numeral moves by exactly one. */
  lemma JsonCountPlusOneOfNumeral(n: int)
    ensures JsonCountPlusOne(Some(IntToString(n))) == IntToString(n + 1)
    ensures JsonInt(JsonCountPlusOne(Some(IntToString(n)))) == Some(n + 1)
  {
    JsonIntOfIntToString(n);
    JsonIntOfIntToString(n + 1);
  }
}
