/**
 What `UnescapeUnicode` computes, told token by token over immutable sequences and with
 arithmetic instead of shifts (helpers/unicode.go).
 */
module UnescapeSpec {
  import opened Bits
  import opened Utf8
  import opened Wrappers

  const BACKSLASH := 0x5C
  const LOWER_U := 0x75

  /** What stands at the start of a sequence of symbols. */
  datatype Escape =
    | NoEscape
    | Single(v: u16)          // `\uXXXX`
    | Pair(hi: u16, lo: u16)  // two escapes joined as a surrogate pair
  {
    /** How many symbols the scanner moves on. */
    function Consumed(): nat {
      match this
      case NoEscape => 1
      case Single(_) => 6
      case Pair(_, _) => 12
    }

    function Value(): int {
      match this
      case NoEscape => -1
      case Single(v) => v
      case Pair(hi, lo) => 0x1_0000 + (hi - 0xD800) * 1024 + (lo - 0xDC00)
    }
  }

  function HexDigitValue(c: int): Option<nat> {
    if 0x30 <= c <= 0x39 then Some(c - 0x30)
    else if 0x61 <= c <= 0x66 then Some(c - 0x61 + 10)
    else if 0x41 <= c <= 0x46 then Some(c - 0x41 + 10)
    else None
  }

  predicate IsHex4(s: seq<int>) {
    |s| == 4 && forall k | 0 <= k < 4 :: HexDigitValue(s[k]).Some?
  }

  /** Big-endian value of hexadecimal digits. */
  function HexNumber(s: seq<int>): (v: nat)
    requires forall k | 0 <= k < |s| :: HexDigitValue(s[k]).Some?
    ensures |s| == 0 ==> v < 1
    ensures |s| == 1 ==> v < 0x10
    ensures |s| == 2 ==> v < 0x100
    ensures |s| == 3 ==> v < 0x1000
    ensures |s| == 4 ==> v < 0x1_0000
  {
    if s == [] then 0
    else HexNumber(s[..|s| - 1]) * 16 + HexDigitValue(s[|s| - 1]).value
  }

  /** `\u` and four hexadecimal digits start at position i. */
  predicate EscapeStarts(s: seq<int>, i: nat) {
    i + 5 < |s| && s[i] == BACKSLASH && s[i + 1] == LOWER_U && IsHex4(s[i + 2..i + 6])
  }

  function EscapeNumber(s: seq<int>, i: nat): u16
    requires EscapeStarts(s, i)
  {
    HexNumber(s[i + 2..i + 6])
  }

  predicate IsHigh(v: int) { 0xD800 <= v <= 0xDBFF }

  predicate IsLow(v: int) { 0xDC00 <= v <= 0xDFFF }

  /** The escape at the head of `s`, looking at most twelve symbols ahead. */
  function EscapeAt(s: seq<int>): (e: Escape)
    ensures e.Consumed() <= |s| || (s == [] && e.NoEscape?)
    ensures !e.NoEscape? ==> 0 <= e.Value() < 0x11_0000
    ensures e.Pair? ==> IsHigh(e.hi) && IsLow(e.lo)
  {
    if !EscapeStarts(s, 0) then NoEscape
    else
      var v := EscapeNumber(s, 0);
      if IsHigh(v) && EscapeStarts(s, 6) && IsLow(EscapeNumber(s, 6)) then Pair(v, EscapeNumber(s, 6))
      else Single(v)
  }

  /** The bytes that remain once every escape is replaced by the UTF-8 of its value. */
  function Unescape(s: seq<byte>): seq<byte> {
    if s == [] then []
    else
      var e := EscapeAt(s);
      if e.NoEscape? then [s[0]] + Unescape(s[1..])
      else Encode(e.Value()) + Unescape(s[e.Consumed()..])
  }

  /** The same replacement done on characters instead of bytes. */
  function UnescapeChars(s: seq<CodePoint>): seq<CodePoint> {
    if s == [] then []
    else
      var e := EscapeAt(s);
      if e.NoEscape? then [s[0]] + UnescapeChars(s[1..])
      else [e.Value()] + UnescapeChars(s[e.Consumed()..])
  }

  /** A stretch without a backslash passes through unchanged. */
  lemma {:induction false} PlainRun(p: seq<byte>, s: seq<byte>)
    requires BACKSLASH !in p
    ensures Unescape(p + s) == p + Unescape(s)
  {
    if p == [] {
      assert p + s == s;
    } else {
      assert (p + s)[0] == p[0] && (p + s)[1..] == p[1..] + s;
      PlainRun(p[1..], s);
      assert [p[0]] + p[1..] == p;
    }
  }
}
