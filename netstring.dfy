/**
 * A canonical, injective string encoding of lists of strings (netstrings:
 * `<length>:<bytes>,` per item).  The model uses it wherever the source
 * writes `JSON.stringify(record)` into the cache and reads the record back
 * with `JSON.parse`; only the two round-trip properties below are relied on.
 */
module Netstring {
  import opened Wrappers
  import opened Numbers

  function EncodeItem(f: string): string {
    NatToString(|f|) + ":" + f + ","
  }

  function Encode(fs: seq<string>): string
    decreases |fs|
  {
    if fs == [] then "" else EncodeItem(fs[0]) + Encode(fs[1..])
  }

  /**
   * Reads one item off the front of `s`: a canonical length, ':', that many
   * characters and ','.  Yields the item and what follows it.
   */
  function DecodeItem(s: string): (r: Option<(string, string)>)
    ensures r.Some? ==> |r.value.1| < |s|
  {
    var n := DigitRun(s);
    if n == 0 || n >= |s| || !Canonical(s[..n]) || s[n] != ':' then None
    else
      var len := DigitsValue(s[..n]);
      if n + 1 + len >= |s| || s[n + 1 + len] != ',' then None
      else Some((s[n + 1..n + 1 + len], s[n + 2 + len..]))
  }

  function Decode(s: string): Option<seq<string>>
    decreases |s|
  {
    if s == [] then Some([])
    else
      match DecodeItem(s)
      case None => None
      case Some((f, rest)) =>
        match Decode(rest)
        case None => None
        case Some(fs) => Some([f] + fs)
  }

  lemma DecodeItemOfEncodeItem(f: string, rest: string)
    ensures DecodeItem(EncodeItem(f) + rest) == Some((f, rest))
  {
    var d := NatToString(|f|);
    var s := EncodeItem(f) + rest;
    assert s == d + (":" + f + "," + rest);
    DigitRunOfDigits(d, ":" + f + "," + rest);
    assert s[..|d|] == d;
    DigitsValueOfNatToString(|f|);
    var n := |d|;
    assert s[n + 1..n + 1 + |f|] == f;
    assert s[n + 2 + |f|..] == rest;
  }

  /** Decoding an encoding gives back the list. */
  lemma {:induction false} DecodeEncode(fs: seq<string>)
    ensures Decode(Encode(fs)) == Some(fs)
    decreases |fs|
  {
    if fs != [] {
      DecodeItemOfEncodeItem(fs[0], Encode(fs[1..]));
      DecodeEncode(fs[1..]);
      assert [fs[0]] + fs[1..] == fs;
    }
  }

  lemma EncodeItemOfDecodeItem(s: string)
    requires DecodeItem(s).Some?
    ensures EncodeItem(DecodeItem(s).value.0) + DecodeItem(s).value.1 == s
  {
    var n := DigitRun(s);
    var len := DigitsValue(s[..n]);
    NatToStringOfDigitsValue(s[..n]);
    var f := s[n + 1..n + 1 + len];
    assert |f| == len;
    assert s == s[..n] + [s[n]] + f + [s[n + 1 + len]] + s[n + 2 + len..];
  }

  /** The decoding is strict: whatever decodes is the encoding of its result. */
  lemma {:induction false} EncodeDecode(s: string)
    requires Decode(s).Some?
    ensures Encode(Decode(s).value) == s
    decreases |s|
  {
    if s != [] {
      var (f, rest) := DecodeItem(s).value;
      EncodeItemOfDecodeItem(s);
      EncodeDecode(rest);
      var fs := Decode(rest).value;
      assert ([f] + fs)[1..] == fs;
    }
  }

  /** Different lists have different encodings. */
  lemma EncodeInjective(a: seq<string>, b: seq<string>)
    requires Encode(a) == Encode(b)
    ensures a == b
  {
    DecodeEncode(a);
    DecodeEncode(b);
  }
}
