/** Laws of the unescaper, proved of the token-level specification. */
module UnescapeTheorems {
  import opened Bits
  import opened Utf8
  import opened Wrappers
  import opened UnescapeSpec

  // ---------------------------------------------------------------- ASCII windows

  /** The longest prefix of ASCII symbols. */
  function AsciiPrefix(s: seq<int>): (p: seq<int>)
    ensures p <= s && forall k | 0 <= k < |p| :: 0 <= p[k] < 0x80
    ensures |p| < |s| ==> !(0 <= s[|p|] < 0x80)
  {
    if s == [] || !(0 <= s[0] < 0x80) then [] else [s[0]] + AsciiPrefix(s[1..])
  }

  lemma AsciiPrefixCons(c: int, s: seq<int>)
    ensures AsciiPrefix([c] + s) == if 0 <= c < 0x80 then [c] + AsciiPrefix(s) else []
  {
    assert ([c] + s)[1..] == s;
  }

  lemma StartsInPrefix(s: seq<int>, i: nat)
    requires i <= |AsciiPrefix(s)|
    ensures EscapeStarts(s, i) <==> EscapeStarts(AsciiPrefix(s), i)
    ensures EscapeStarts(s, i) ==> EscapeNumber(s, i) == EscapeNumber(AsciiPrefix(s), i)
  {
    var p := AsciiPrefix(s);
    if EscapeStarts(s, i) {
      var w := s[i + 2..i + 6];
      assert forall k | 0 <= k < 4 :: s[i + 2 + k] == w[k] && HexDigitValue(w[k]).Some?;
      assert |p| >= i + 6 by {
        assert forall k | i <= k < i + 6 :: k == i || k == i + 1 || s[k] == w[k - i - 2];
      }
      assert p[i + 2..i + 6] == w;
    }
    if EscapeStarts(p, i) {
      assert p[i + 2..i + 6] == s[i + 2..i + 6];
    }
  }

  /** An escape is made of ASCII symbols, so only the ASCII prefix matters. */
  lemma EscapeInPrefix(s: seq<int>)
    ensures EscapeAt(s) == EscapeAt(AsciiPrefix(s))
    ensures !EscapeAt(s).NoEscape? ==> EscapeAt(s).Consumed() <= |AsciiPrefix(s)|
  {
    StartsInPrefix(s, 0);
    if EscapeStarts(s, 0) {
      StartsInPrefix(s, 6);
    }
  }

  // ---------------------------------------------------------------- UTF-8

  lemma {:induction false} EncodingPrefix(cps: seq<CodePoint>)
    ensures AsciiPrefix(EncodeAll(cps)) == AsciiPrefix(cps)
  {
    if cps != [] {
      var r, rest := cps[0], cps[1..];
      EncodingPrefix(rest);
      if r < 0x80 {
        AsciiPrefixCons(r, EncodeAll(rest));
      } else {
        assert EncodeAll(cps)[0] == Encode(r)[0] >= 0x80;
      }
    }
  }

  /** Within the ASCII prefix, bytes and characters are counted alike. */
  lemma {:induction false} DropAscii(cps: seq<CodePoint>, n: nat)
    requires n <= |AsciiPrefix(cps)|
    ensures n <= |EncodeAll(cps)| && EncodeAll(cps)[n..] == EncodeAll(cps[n..])
  {
    if n > 0 {
      var r, rest := cps[0], cps[1..];
      assert r < 0x80;
      AsciiPrefixCons(r, rest);
      assert cps == [r] + rest;
      hide EncodeAll, AsciiPrefix;
      DropAscii(rest, n - 1);
      EncodeCons(r, rest);
      DropCons(r, EncodeAll(rest), n);
      DropCons(r, rest, n);
    }
  }

  lemma DropCons<T>(x: T, s: seq<T>, n: nat)
    requires 0 < n <= |s| + 1
    ensures ([x] + s)[n..] == s[n - 1..]
  {
  }

  lemma SameEscape(cps: seq<CodePoint>)
    ensures EscapeAt(EncodeAll(cps)) == EscapeAt(cps)
    ensures var e := EscapeAt(cps);
            !e.NoEscape? ==> EncodeAll(cps) != [] && EncodeAll(cps)[e.Consumed()..] == EncodeAll(cps[e.Consumed()..])
  {
    EncodingPrefix(cps);
    EscapeInPrefix(cps);
    EscapeInPrefix(EncodeAll(cps));
    if !EscapeAt(cps).NoEscape? {
      DropAscii(cps, EscapeAt(cps).Consumed());
    }
  }

  lemma NoBackslashAbove(r: CodePoint)
    requires r != BACKSLASH
    ensures BACKSLASH !in Encode(r)
  {
  }

  /** Unescaping bytes is unescaping characters, whatever code points are encoded. */
  lemma {:induction false} BytesAreChars(cps: seq<CodePoint>)
    ensures Unescape(EncodeAll(cps)) == EncodeAll(UnescapeChars(cps))
    decreases |cps|
  {
    if cps != [] {
      var b, e := EncodeAll(cps), EscapeAt(cps);
      SameEscape(cps);
      BytesAreChars(cps[e.Consumed()..]);
      if e.NoEscape? {
        var r, rest := cps[0], cps[1..];
        EncodeCons(r, UnescapeChars(rest));
        if r == BACKSLASH {
          assert b == [r] + EncodeAll(rest) && b[1..] == EncodeAll(rest);
        } else {
          NoBackslashAbove(r);
          PlainRun(Encode(r), EncodeAll(rest));
        }
      } else {
        EncodeCons(e.Value(), UnescapeChars(cps[e.Consumed()..]));
      }
    }
  }

  /** Some decoded token is an unpaired surrogate. */
  predicate LoneSurrogate(s: seq<int>)
    decreases |s|
  {
    s != [] && ((EscapeAt(s).Single? && IsSurrogate(EscapeAt(s).v)) || LoneSurrogate(s[EscapeAt(s).Consumed()..]))
  }

  lemma {:induction false} LoneInBytes(cps: seq<CodePoint>)
    ensures LoneSurrogate(EncodeAll(cps)) <==> LoneSurrogate(cps)
    decreases |cps|
  {
    if cps != [] {
      var e := EscapeAt(cps);
      SameEscape(cps);
      LoneInBytes(cps[e.Consumed()..]);
      if e.NoEscape? {
        var r, rest := cps[0], EncodeAll(cps[1..]);
        if r == BACKSLASH {
          assert EncodeAll(cps)[1..] == rest;
        } else {
          NoBackslashAbove(r);
          LoneSkips(Encode(r), rest);
        }
      }
    }
  }

  lemma {:induction false} LoneSkips(p: seq<int>, s: seq<int>)
    requires BACKSLASH !in p
    ensures LoneSurrogate(p + s) <==> LoneSurrogate(s)
  {
    if p == [] {
      assert p + s == s;
    } else {
      assert (p + s)[0] == p[0] && (p + s)[1..] == p[1..] + s;
      LoneSkips(p[1..], s);
    }
  }

  lemma {:induction false} ScalarsOut(cps: seq<CodePoint>)
    requires AllScalars(cps)
    ensures AllScalars(UnescapeChars(cps)) <==> !LoneSurrogate(cps)
    decreases |cps|
  {
    if cps != [] {
      var e := EscapeAt(cps);
      var rest := cps[e.Consumed()..];
      ScalarsOut(rest);
      var r: CodePoint := if e.NoEscape? then cps[0] else e.Value();
      EncodeCons(r, UnescapeChars(rest));
    }
  }

  predicate HighAt(s: seq<int>, i: nat) { EscapeStarts(s, i) && IsHigh(EscapeNumber(s, i)) }

  predicate LowAt(s: seq<int>, i: nat) { EscapeStarts(s, i) && IsLow(EscapeNumber(s, i)) }

  /** An escape of half a pair at position i, without the escape of the other half next to it. */
  predicate Unpaired(s: seq<int>, i: nat) {
    (HighAt(s, i) && !LowAt(s, i + 6)) || (LowAt(s, i) && !(i >= 6 && HighAt(s, i - 6)))
  }

  predicate HasUnpaired(s: seq<int>) { exists i | 0 <= i < |s| :: Unpaired(s, i) }

  lemma ShiftHalves(s: seq<int>, c: nat, i: nat)
    requires c <= i <= |s|
    ensures HighAt(s, i) == HighAt(s[c..], i - c) && LowAt(s, i) == LowAt(s[c..], i - c)
  {
    ShiftStarts(s, i);
    ShiftStarts(s[c..], i - c);
    assert s[c..][i - c..] == s[i..];
  }

  /** Inside a token no escape starts, but for the second half of a pair. */
  lemma InsideToken(s: seq<int>, i: nat)
    requires s != [] && 0 < i < EscapeAt(s).Consumed()
    ensures EscapeStarts(s, i) ==> EscapeAt(s).Pair? && i == 6
  {
    var w := s[2..6];
    assert 2 <= i < 6 ==> s[i] == w[i - 2];
    if EscapeAt(s).Pair? {
      var x := s[8..12];
      assert 8 <= i < 12 ==> s[i] == x[i - 8];
    }
  }

  lemma UnpairedAtHead(s: seq<int>, i: nat)
    requires s != [] && i < EscapeAt(s).Consumed()
    ensures Unpaired(s, i) <==> i == 0 && EscapeAt(s).Single? && IsSurrogate(EscapeAt(s).v)
  {
    if i > 0 {
      InsideToken(s, i);
    }
    hide EscapeNumber;
  }

  lemma UnpairedBehind(s: seq<int>, i: nat)
    requires s != [] && EscapeAt(s).Consumed() <= i <= |s|
    ensures Unpaired(s, i) <==> Unpaired(s[EscapeAt(s).Consumed()..], i - EscapeAt(s).Consumed())
  {
    var c := EscapeAt(s).Consumed();
    ShiftHalves(s, c, i);
    if i + 6 <= |s| {
      ShiftHalves(s, c, i + 6);
    }
    if i - 6 >= c {
      ShiftHalves(s, c, i - 6);
    } else if i - 6 > 0 {
      InsideToken(s, i - 6);
    }
    hide EscapeNumber;
  }

  /** Unpaired surrogates as a condition on positions. */
  lemma {:induction false} LoneIsUnpaired(s: seq<int>)
    ensures LoneSurrogate(s) <==> HasUnpaired(s)
    decreases |s|
  {
    if s != [] {
      var c := EscapeAt(s).Consumed();
      var rest := s[c..];
      LoneIsUnpaired(rest);
      hide Unpaired;
      forall i | 0 <= i < |s|
        ensures i < c ==> (Unpaired(s, i) <==> i == 0 && EscapeAt(s).Single? && IsSurrogate(EscapeAt(s).v))
        ensures i >= c ==> (Unpaired(s, i) <==> Unpaired(rest, i - c))
      {
        if i < c { UnpairedAtHead(s, i); } else { UnpairedBehind(s, i); }
      }
      assert EscapeAt(s).Single? && IsSurrogate(EscapeAt(s).v) ==> Unpaired(s, 0);
      if k :| 0 <= k < |rest| && Unpaired(rest, k) {
        assert Unpaired(s, k + c);
      }
    }
  }

  /** On valid UTF-8 the output is valid exactly when no position holds the escape of an unpaired surrogate. */
  lemma Utf8Preserved(b: seq<byte>)
    requires Valid(b)
    ensures Valid(Unescape(b)) <==> !HasUnpaired(b)
    ensures !HasUnpaired(b) ==> Decode(Unescape(b)) == UnescapeChars(Decode(b))
  {
    LoneIsUnpaired(b);
    var cps := Decode(b);
    DecodeEncodes(b);
    BytesAreChars(cps);
    LoneInBytes(cps);
    ScalarsOut(cps);
    EncodeAllValid(UnescapeChars(cps));
  }

  // ---------------------------------------------------------------- round trip

  /** How one character is written; `upper` holds the digit positions printed in upper case. */
  datatype Style = AsIs | Escaped(upper: set<nat>)

  datatype Glyph = Glyph(r: CodePoint, style: Style)

  function HexDigit(d: nat, upper: bool): byte
    requires d < 16
  {
    if d < 10 then 0x30 + d else if upper then 0x41 + d - 10 else 0x61 + d - 10
  }

  function EscapeText(v: u16, upper: set<nat>, at: nat): (t: seq<byte>)
    ensures |t| == 6
  {
    [BACKSLASH, LOWER_U, HexDigit(v / 4096, at in upper), HexDigit(v / 256 % 16, at + 1 in upper),
     HexDigit(v / 16 % 16, at + 2 in upper), HexDigit(v % 16, at + 3 in upper)]
  }

  /** Section 2.1 of RFC 2781. */
  function HighHalf(r: CodePoint): u16
    requires r >= 0x1_0000
  {
    0xD800 + (r - 0x1_0000) / 1024
  }

  function LowHalf(r: CodePoint): u16
    requires r >= 0x1_0000
  {
    0xDC00 + (r - 0x1_0000) % 1024
  }

  /** A backslash is always escaped; anything else in the chosen style. */
  function Print(g: Glyph): seq<byte> {
    if g.style.AsIs? && g.r != BACKSLASH then Encode(g.r)
    else
      var upper := if g.style.AsIs? then {} else g.style.upper;
      if g.r < 0x1_0000 then EscapeText(g.r, upper, 0)
      else EscapeText(HighHalf(g.r), upper, 0) + EscapeText(LowHalf(g.r), upper, 4)
  }

  function PrintAll(gs: seq<Glyph>): seq<byte> {
    if gs == [] then [] else Print(gs[0]) + PrintAll(gs[1..])
  }

  function Characters(gs: seq<Glyph>): seq<CodePoint> {
    if gs == [] then [] else [gs[0].r] + Characters(gs[1..])
  }

  lemma HexOfDigit(d: nat, upper: bool)
    requires d < 16
    ensures HexDigitValue(HexDigit(d, upper)) == Some(d)
  {
  }

  lemma HexOfFour(s: seq<int>, a: nat, b: nat, c: nat, d: nat)
    requires |s| == 4
    requires HexDigitValue(s[0]) == Some(a) && HexDigitValue(s[1]) == Some(b)
    requires HexDigitValue(s[2]) == Some(c) && HexDigitValue(s[3]) == Some(d)
    ensures IsHex4(s) && HexNumber(s) == a * 4096 + b * 256 + c * 16 + d
  {
    assert s[..3][..2] == s[..2] && s[..2][..1] == s[..1] && s[..1][..0] == [];
    assert HexNumber(s[..1]) == a;
    assert HexNumber(s[..2]) == a * 16 + b;
    assert HexNumber(s[..3]) == a * 256 + b * 16 + c;
  }

  lemma NibblesJoin(v: u16)
    ensures v / 4096 * 4096 + v / 256 % 16 * 256 + v / 16 % 16 * 16 + v % 16 == v && v / 4096 < 16
  {
    var a := v / 16;
    var b := a / 16;
    assert v / 256 == b && v / 4096 == b / 16;
  }

  lemma EscapeTextStarts(s: seq<byte>, i: nat, v: u16, upper: set<nat>, at: nat)
    requires i + 6 <= |s| && s[i..i + 6] == EscapeText(v, upper, at)
    ensures EscapeStarts(s, i) && EscapeNumber(s, i) == v
  {
    var t := EscapeText(v, upper, at);
    var w := s[i + 2..i + 6];
    assert w == t[2..6] by { assert s[i..i + 6][2..6] == w; }
    assert s[i] == t[0] && s[i + 1] == t[1] by {
      assert s[i..i + 6][0] == s[i] && s[i..i + 6][1] == s[i + 1];
    }
    NibblesJoin(v);
    HexOfDigit(v / 4096, at in upper);
    HexOfDigit(v / 256 % 16, at + 1 in upper);
    HexOfDigit(v / 16 % 16, at + 2 in upper);
    HexOfDigit(v % 16, at + 3 in upper);
    HexOfFour(w, v / 4096, v / 256 % 16, v / 16 % 16, v % 16);
  }

  lemma UnescapePrinted(g: Glyph, rest: seq<byte>)
    requires IsScalar(g.r)
    ensures Unescape(Print(g) + rest) == Encode(g.r) + Unescape(rest)
  {
    var s := Print(g) + rest;
    if g.style.AsIs? && g.r != BACKSLASH {
      NoBackslashAbove(g.r);
      PlainRun(Encode(g.r), rest);
    } else {
      var upper := if g.style.AsIs? then {} else g.style.upper;
      if g.r < 0x1_0000 {
        assert s[0..6] == EscapeText(g.r, upper, 0);
        EscapeTextStarts(s, 0, g.r, upper, 0);
        assert EscapeAt(s) == Single(g.r);
        assert s[6..] == rest;
      } else {
        var hi, lo := HighHalf(g.r), LowHalf(g.r);
        assert s[0..6] == EscapeText(hi, upper, 0);
        assert s[6..12] == EscapeText(lo, upper, 4);
        EscapeTextStarts(s, 0, hi, upper, 0);
        EscapeTextStarts(s, 6, lo, upper, 4);
        assert EscapeAt(s) == Pair(hi, lo) && EscapeAt(s).Value() == g.r;
        assert s[12..] == rest;
      }
    }
  }

  /** Printing scalars with any mix of escapes and raw UTF-8 is undone by `UnescapeUnicode`. */
  lemma {:induction false} RoundTrip(gs: seq<Glyph>)
    requires AllScalars(Characters(gs))
    ensures Unescape(PrintAll(gs)) == EncodeAll(Characters(gs))
  {
    if gs != [] {
      EncodeCons(gs[0].r, Characters(gs[1..]));
      RoundTrip(gs[1..]);
      UnescapePrinted(gs[0], PrintAll(gs[1..]));
    }
  }

  // ---------------------------------------------------------------- length

  /** Decoded tokens by the UTF-8 width of their value. */
  datatype Census = Census(one: nat, two: nat, three: nat, pairs: nat)

  function Count(s: seq<byte>): Census
    decreases |s|
  {
    if s == [] then Census(0, 0, 0, 0)
    else
      var e := EscapeAt(s);
      var c := Count(s[e.Consumed()..]);
      if e.NoEscape? then c
      else if e.Pair? then c.(pairs := c.pairs + 1)
      else if e.v < 0x80 then c.(one := c.one + 1)
      else if e.v < 0x800 then c.(two := c.two + 1)
      else c.(three := c.three + 1)
  }

  /** Exact shrinkage, and the bound behind allocating no more than the input's length. */
  lemma {:induction false} LengthAccounting(s: seq<byte>)
    ensures var c := Count(s);
            && |s| == |Unescape(s)| + 5 * c.one + 4 * c.two + 3 * c.three + 8 * c.pairs
            && |Unescape(s)| <= |s| - 3 * (c.one + c.two + c.three) - 8 * c.pairs
    decreases |s|
  {
    if s != [] {
      LengthAccounting(s[EscapeAt(s).Consumed()..]);
    }
  }

  // ---------------------------------------------------------------- idempotence

  datatype Piece = Plain(b: byte) | Decoded(r: CodePoint)

  function Pieces(s: seq<byte>): seq<Piece>
    decreases |s|
  {
    if s == [] then []
    else
      var e := EscapeAt(s);
      [if e.NoEscape? then Plain(s[0]) else Decoded(e.Value())] + Pieces(s[e.Consumed()..])
  }

  function Bytes(p: Piece): seq<byte> { if p.Plain? then [p.b] else Encode(p.r) }

  function Render(ps: seq<Piece>): seq<byte> {
    if ps == [] then [] else Bytes(ps[0]) + Render(ps[1..])
  }

  const OTHER := -1

  /** The ASCII symbol a piece stands for; OTHER when it is not ASCII. */
  function Symbol(p: Piece): int {
    var c: int := if p.Plain? then p.b else p.r;
    if c < 0x80 then c else OTHER
  }

  /** The input's tokens read as ASCII symbols: what a second pass would scan. */
  function Outline(ps: seq<Piece>): seq<int> {
    if ps == [] then [] else [Symbol(ps[0])] + Outline(ps[1..])
  }

  predicate HasEscape(s: seq<int>) {
    s != [] && (EscapeStarts(s, 0) || HasEscape(s[1..]))
  }

  lemma {:induction false} RenderPieces(s: seq<byte>)
    ensures Render(Pieces(s)) == Unescape(s)
    decreases |s|
  {
    if s != [] {
      var c := EscapeAt(s).Consumed();
      RenderPieces(s[c..]);
      assert Pieces(s)[1..] == Pieces(s[c..]);
    }
  }

  /** A sequence is left alone exactly when it holds no escape. */
  lemma {:induction false} FixedPoint(s: seq<byte>)
    ensures Unescape(s) == s <==> !HasEscape(s)
    decreases |s|
  {
    if s != [] {
      LengthAccounting(s);
      if EscapeAt(s).NoEscape? {
        FixedPoint(s[1..]);
        assert s == [s[0]] + s[1..];
        assert Unescape(s)[1..] == Unescape(s[1..]);
      } else {
        LengthAccounting(s[EscapeAt(s).Consumed()..]);
      }
    }
  }

  lemma {:induction false} RenderPrefix(ps: seq<Piece>)
    ensures AsciiPrefix(Render(ps)) == AsciiPrefix(Outline(ps))
  {
    if ps != [] {
      RenderPrefix(ps[1..]);
      var c := Symbol(ps[0]);
      AsciiPrefixCons(c, Outline(ps[1..]));
      if c != OTHER {
        assert Bytes(ps[0]) == [c];
        AsciiPrefixCons(c, Render(ps[1..]));
      } else {
        assert Render(ps)[0] == Bytes(ps[0])[0] >= 0x80;
      }
    }
  }

  lemma {:induction false} NoEscapeInside(p: seq<int>, s: seq<int>)
    requires BACKSLASH !in p
    ensures HasEscape(p + s) <==> HasEscape(s)
  {
    if p == [] {
      assert p + s == s;
    } else {
      assert (p + s)[0] == p[0] && (p + s)[1..] == p[1..] + s;
      NoEscapeInside(p[1..], s);
    }
  }

  /** Bytes of decoded non-ASCII values separate their neighbours. */
  lemma {:induction false} EscapesInOutline(ps: seq<Piece>)
    ensures HasEscape(Render(ps)) <==> HasEscape(Outline(ps))
  {
    if ps != [] {
      var rest := ps[1..];
      var c := Symbol(ps[0]);
      EscapesInOutline(rest);
      RenderPrefix(ps);
      StartsInPrefix(Render(ps), 0);
      StartsInPrefix(Outline(ps), 0);
      assert Outline(ps)[1..] == Outline(rest);
      if c != OTHER {
        assert Render(ps) == [c] + Render(rest);
        assert Render(ps)[1..] == Render(rest);
      } else {
        assert BACKSLASH !in Bytes(ps[0]);
        NoEscapeInside(Bytes(ps[0]), Render(rest));
      }
    }
  }

  lemma OutlineDecides(s: seq<byte>)
    ensures Unescape(Unescape(s)) == Unescape(s) <==> !HasEscape(Outline(Pieces(s)))
  {
    FixedPoint(Unescape(s));
    RenderPieces(s);
    EscapesInOutline(Pieces(s));
  }

  /** The symbol the input shows at its head: an escape stands for its number. */
  function SymbolAt(s: seq<int>): int
    requires s != []
  {
    if EscapeStarts(s, 0) then EscapeNumber(s, 0) else s[0]
  }

  function WidthAt(s: seq<int>): (w: nat)
    requires s != []
    ensures 0 < w <= |s|
  {
    if EscapeStarts(s, 0) then 6 else 1
  }

  /** At most n symbols read one after another. */
  function Reading(s: seq<int>, n: nat): seq<int> {
    if n == 0 || s == [] then [] else [SymbolAt(s)] + Reading(s[WidthAt(s)..], n - 1)
  }

  /** The six symbols shown from position i on are a backslash, a `u` and four hexadecimal digits. */
  predicate Respells(s: seq<int>, i: nat)
    requires i <= |s|
  {
    EscapeStarts(Reading(s[i..], 6), 0)
  }

  lemma SameHead(s: seq<byte>) returns (c: int, rest: seq<byte>)
    requires s != []
    ensures rest == s[EscapeAt(s).Consumed()..] && Outline(Pieces(s)) == [c] + Outline(Pieces(rest))
    ensures if SymbolAt(s) < 0x80 then c == SymbolAt(s) && rest == s[WidthAt(s)..] && 0 <= c else c == OTHER
  {
    var e := EscapeAt(s);
    rest, c := s[e.Consumed()..], Symbol(Pieces(s)[0]);
    assert Pieces(s)[1..] == Pieces(rest);
  }

  function Take(p: seq<int>, n: nat): seq<int> { if n <= |p| then p[..n] else p }

  lemma TakeCons(x: int, p: seq<int>, n: nat)
    requires n > 0
    ensures [x] + Take(p, n - 1) == Take([x] + p, n)
  {
  }

  lemma ReadingCons(s: seq<byte>, n: nat)
    requires n > 0 && s != []
    ensures Reading(s, n) == [SymbolAt(s)] + Reading(s[WidthAt(s)..], n - 1) && 0 <= SymbolAt(s)
  {
  }

  lemma {:induction false} ReadingPrefix(s: seq<byte>, n: nat)
    ensures AsciiPrefix(Reading(s, n)) == Take(AsciiPrefix(Outline(Pieces(s))), n)
    decreases n
  {
    hide AsciiPrefix, Outline, Pieces, SymbolAt, WidthAt, Reading, Take;
    if n > 0 && s != [] {
      var x, after := SymbolAt(s), s[WidthAt(s)..];
      ReadingCons(s, n);
      var c, rest := SameHead(s);
      AsciiPrefixCons(c, Outline(Pieces(rest)));
      AsciiPrefixCons(x, Reading(after, n - 1));
      if x < 0x80 {
        ReadingPrefix(rest, n - 1);
        TakeCons(x, AsciiPrefix(Outline(Pieces(rest))), n);
      } else {
        TakeNothing(n);
      }
    } else {
      NothingRead(s, n);
    }
  }

  lemma NothingRead(s: seq<byte>, n: nat)
    requires n == 0 || s == []
    ensures AsciiPrefix(Reading(s, n)) == [] == Take(AsciiPrefix(Outline(Pieces(s))), n)
  {
  }

  lemma TakeNothing(n: nat)
    ensures Take([], n) == []
  {
  }

  /** Six symbols decide whether an escape starts. */
  lemma SixSymbols(r: seq<int>, o: seq<int>)
    requires AsciiPrefix(r) == Take(AsciiPrefix(o), 6)
    ensures EscapeStarts(r, 0) <==> EscapeStarts(o, 0)
  {
    StartsInPrefix(r, 0);
    StartsInPrefix(o, 0);
    var p, q := AsciiPrefix(o), AsciiPrefix(r);
    hide AsciiPrefix;
    if |p| >= 6 {
      assert p[2..6] == q[2..6];
    }
  }

  /** Inside an escape no position shows a backslash. */
  lemma NoRespellInside(s: seq<byte>, i: nat)
    requires s != [] && 0 < i < EscapeAt(s).Consumed()
    ensures !Respells(s, i)
  {
    var t := s[i..];
    assert SymbolAt(t) != BACKSLASH by {
      ShiftStarts(s, i);
      var w := s[2..6];
      assert 2 <= i < 6 ==> s[i] == w[i - 2];
      if EscapeAt(s).Pair? {
        var x := s[8..12];
        assert 8 <= i < 12 ==> s[i] == x[i - 8];
      }
    }
    assert Reading(t, 6)[0] == SymbolAt(t);
  }

  lemma RespellsAtHead(s: seq<byte>)
    requires s != []
    ensures Respells(s, 0) <==> EscapeStarts(Outline(Pieces(s)), 0)
  {
    assert s[0..] == s;
    ReadingPrefix(s, 6);
    hide AsciiPrefix, Reading, Outline, Pieces, EscapeStarts, Take;
    SixSymbols(Reading(s, 6), Outline(Pieces(s)));
  }

  lemma {:induction false} OutlineIsWindows(s: seq<byte>)
    ensures HasEscape(Outline(Pieces(s))) <==> exists i | 0 <= i < |s| :: Respells(s, i)
    decreases |s|
  {
    if s != [] {
      var c := EscapeAt(s).Consumed();
      var rest := s[c..];
      OutlineIsWindows(rest);
      RespellsAtHead(s);
      var o := Outline(Pieces(s));
      assert o[1..] == Outline(Pieces(rest)) by { assert Pieces(s)[1..] == Pieces(rest); }
      forall i | c <= i < |s| ensures Respells(s, i) == Respells(rest, i - c) {
        assert s[i..] == rest[i - c..];
      }
      forall i | 0 < i < c ensures !Respells(s, i) {
        NoRespellInside(s, i);
      }
      hide Respells, EscapeStarts, Outline, Pieces;
      if k :| 0 <= k < |rest| && Respells(rest, k) {
        assert Respells(s, k + c);
      }
    }
  }

  /** A second pass changes nothing exactly when nowhere in the input six shown symbols spell an escape. */
  lemma IdempotentWhen(s: seq<byte>)
    ensures Unescape(Unescape(s)) == Unescape(s) <==> !exists i | 0 <= i < |s| :: Respells(s, i)
  {
    OutlineDecides(s);
    OutlineIsWindows(s);
  }

  lemma HexReads(s: seq<byte>, w: seq<byte>, a: nat, b: nat, c: nat, d: nat)
    requires |s| >= 6 && |w| == 4 && s[0] == BACKSLASH && s[1] == LOWER_U
    requires s[2] == w[0] && s[3] == w[1] && s[4] == w[2] && s[5] == w[3]
    requires HexDigitValue(w[0]) == Some(a) && HexDigitValue(w[1]) == Some(b)
    requires HexDigitValue(w[2]) == Some(c) && HexDigitValue(w[3]) == Some(d)
    ensures EscapeStarts(s, 0) && EscapeNumber(s, 0) == a * 4096 + b * 256 + c * 16 + d
  {
    hide HexDigitValue, HexNumber;
    assert s[2..6] == w;
    HexOfFour(w, a, b, c, d);
  }

  lemma EscapeThenPlain(s: seq<byte>, v: u16)
    requires EscapeStarts(s, 0) && EscapeNumber(s, 0) == v && !IsHigh(v) && BACKSLASH !in s[6..]
    ensures Unescape(s) == Encode(v) + s[6..]
  {
    hide EscapeStarts, EscapeNumber, Encode, IsHigh;
    assert EscapeAt(s) == Single(v);
    PlainRun(s[6..], []);
    assert s[6..] + [] == s[6..];
  }

  /** `\u005cu0041`: the decoded backslash starts a new escape, so idempotence is not unconditional. */
  lemma NotIdempotent()
    ensures var s := [0x5C, 0x75, 0x30, 0x30, 0x35, 0x63, 0x75, 0x30, 0x30, 0x34, 0x31];
            Unescape(s) == [0x5C, 0x75, 0x30, 0x30, 0x34, 0x31] && Unescape(Unescape(s)) == [0x41]
  {
    hide Unescape, HexNumber;
    var s: seq<byte> := [0x5C, 0x75, 0x30, 0x30, 0x35, 0x63, 0x75, 0x30, 0x30, 0x34, 0x31];
    var t: seq<byte> := [0x5C, 0x75, 0x30, 0x30, 0x34, 0x31];
    HexReads(s, [0x30, 0x30, 0x35, 0x63], 0, 0, 5, 12);
    assert s[6..] == [0x75, 0x30, 0x30, 0x34, 0x31];
    EscapeThenPlain(s, 0x5C);
    HexReads(t, [0x30, 0x30, 0x34, 0x31], 0, 0, 4, 1);
    assert t[6..] == [];
    EscapeThenPlain(t, 0x41);
  }

  /** `\ud800`: an unpaired surrogate leaves UTF-8. */
  lemma NotUtf8()
    ensures var s := [0x5C, 0x75, 0x64, 0x38, 0x30, 0x30];
            Valid(s) && HasUnpaired(s) && Unescape(s) == [0xED, 0xA0, 0x80] && !Valid(Unescape(s))
  {
    hide Unescape, HexNumber, EscapeStarts, EscapeNumber, LoneSurrogate, HasUnpaired, Valid;
    var s: seq<byte> := [0x5C, 0x75, 0x64, 0x38, 0x30, 0x30];
    HexReads(s, [0x64, 0x38, 0x30, 0x30], 13, 8, 0, 0);
    OnlyEscape(s, 0xD800);
    LoneIsUnpaired(s);
    AsciiValid(s);
    EncodeLeads(0xD800, []);
    assert Encode(0xD800) + [] == Encode(0xD800);
    NotLeading(Encode(0xD800));
  }

  lemma OnlyEscape(s: seq<byte>, v: u16)
    requires |s| == 6 && EscapeStarts(s, 0) && EscapeNumber(s, 0) == v
    ensures Unescape(s) == Encode(v) && (LoneSurrogate(s) <==> IsSurrogate(v))
  {
    hide EscapeNumber, Encode, IsSurrogate;
    assert EscapeAt(s) == Single(v);
    assert s[6..] == [] && Unescape([]) == [];
  }

  lemma NotLeading(b: seq<byte>)
    requires b != [] && LeadWidth(b) == 0
    ensures !Valid(b)
  {
  }

  lemma {:induction false} AsciiValid(s: seq<byte>)
    requires forall k | 0 <= k < |s| :: s[k] < 0x80
    ensures Valid(s)
  {
    if s != [] {
      AsciiValid(s[1..]);
    }
  }

  /** Every escape of the first pass stands for a non-ASCII value. */
  predicate AllDecodedHigh(s: seq<byte>)
    decreases |s|
  {
    s == [] || ((EscapeAt(s).NoEscape? || EscapeAt(s).Value() >= 0x80) && AllDecodedHigh(s[EscapeAt(s).Consumed()..]))
  }

  lemma {:induction false} OutlineKeepsPrefix(s: seq<byte>)
    requires AllDecodedHigh(s)
    ensures AsciiPrefix(Outline(Pieces(s))) <= AsciiPrefix(s)
    decreases |s|
  {
    if s != [] {
      var rest := s[EscapeAt(s).Consumed()..];
      OutlineKeepsPrefix(rest);
      assert Pieces(s)[1..] == Pieces(rest);
      AsciiPrefixCons(Symbol(Pieces(s)[0]), Outline(Pieces(rest)));
    }
  }

  lemma PrefixStarts(o: seq<int>, s: seq<int>)
    requires AsciiPrefix(o) <= AsciiPrefix(s)
    ensures EscapeStarts(o, 0) ==> EscapeStarts(s, 0)
  {
    StartsInPrefix(o, 0);
    StartsInPrefix(s, 0);
    var p, q := AsciiPrefix(o), AsciiPrefix(s);
    hide AsciiPrefix;
    if EscapeStarts(p, 0) {
      assert p[2..6] == q[2..6];
    }
  }

  /** Unpaired surrogates included: values from 0x80 up never form a new escape. */
  lemma {:induction false} IdempotentAboveAscii(s: seq<byte>)
    requires AllDecodedHigh(s)
    ensures !HasEscape(Outline(Pieces(s)))
    ensures Unescape(Unescape(s)) == Unescape(s)
    decreases |s|
  {
    OutlineDecides(s);
    if s != [] {
      var rest := s[EscapeAt(s).Consumed()..];
      var o := Outline(Pieces(s));
      IdempotentAboveAscii(rest);
      assert Pieces(s)[1..] == Pieces(rest);
      assert o[1..] == Outline(Pieces(rest));
      OutlineKeepsPrefix(s);
      PrefixStarts(o, s);
      hide IsHex4, AsciiPrefix;
    }
  }

  // ---------------------------------------------------------------- concatenation

  /** A proper prefix of `\uXXXX`. */
  predicate Unfinished(t: seq<int>) {
    && 1 <= |t| <= 5
    && t[0] == BACKSLASH
    && (|t| > 1 ==> t[1] == LOWER_U)
    && forall k | 2 <= k < |t| :: HexDigitValue(t[k]).Some?
  }

  /** A proper prefix, possibly empty, of the escape of a low surrogate. */
  predicate UnfinishedLow(t: seq<int>) {
    t == [] || (Unfinished(t)
                && (|t| > 2 ==> HexDigitValue(t[2]) == Some(13))
                && (|t| > 3 ==> HexDigitValue(t[3]).value >= 12))
  }

  /** The token at the head would read differently if more bytes followed. */
  predicate Open(t: seq<int>) {
    Unfinished(t) || (EscapeStarts(t, 0) && IsHigh(EscapeNumber(t, 0)) && UnfinishedLow(t[6..]))
  }

  /** Some token of `a` is cut by its end. */
  predicate Dangling(a: seq<int>)
    decreases |a|
  {
    a != [] && (Open(a) || Dangling(a[EscapeAt(a).Consumed()..]))
  }

  /** A token that is not open reads the same whatever follows. */
  lemma ClosedToken(a: seq<byte>, b: seq<byte>)
    requires a != [] && !Open(a)
    ensures EscapeAt(a + b) == EscapeAt(a)
  {
    var s := a + b;
    assert forall k | 0 <= k < |a| :: s[k] == a[k];
    StartsStable(a, b, 0);
    if EscapeStarts(a, 0) {
      if !Unfinished(a[6..]) && a[6..] != [] {
        StartsStable(a[6..], b, 0);
        assert a[6..] + b == s[6..];
        ShiftStarts(a, 6);
        ShiftStarts(s, 6);
      } else if EscapeStarts(s, 6) && !UnfinishedLow(a[6..]) {
        LowPrefix(a, b);
      }
    }
  }

  lemma StartsStable(a: seq<byte>, b: seq<byte>, i: nat)
    requires i == 0 && a != [] && !Unfinished(a)
    ensures EscapeStarts(a + b, i) <==> EscapeStarts(a, i)
    ensures EscapeStarts(a, i) ==> EscapeNumber(a + b, i) == EscapeNumber(a, i)
  {
    var s := a + b;
    if |a| >= 6 {
      assert s[2..6] == a[2..6];
    } else if EscapeStarts(s, 0) {
      var w := s[2..6];
      forall k | 2 <= k < |a| ensures HexDigitValue(a[k]).Some? {
        assert a[k] == w[k - 2];
      }
    }
  }

  lemma ShiftStarts(s: seq<int>, i: nat)
    requires i <= |s|
    ensures EscapeStarts(s, i) <==> EscapeStarts(s[i..], 0)
    ensures EscapeStarts(s, i) ==> EscapeNumber(s, i) == EscapeNumber(s[i..], 0)
  {
    if i + 6 <= |s| {
      assert s[i..][2..6] == s[i + 2..i + 6];
    }
  }

  /** The leading digits of a low surrogate. */
  lemma LowDigits(w: seq<int>)
    requires IsHex4(w)
    ensures IsLow(HexNumber(w)) <==> HexDigitValue(w[0]) == Some(13) && HexDigitValue(w[1]).value >= 12
  {
    var a, b, c, d := HexDigitValue(w[0]).value, HexDigitValue(w[1]).value, HexDigitValue(w[2]).value,
        HexDigitValue(w[3]).value;
    var v := HexNumber(w);
    assert v == a * 4096 + b * 256 + c * 16 + d by { HexOfFour(w, a, b, c, d); }
    assert 0 <= c * 16 + d < 256 && a < 16 && b < 16;
  }

  /** If the cut second half is not a prefix of a low surrogate, completing it gives no low surrogate. */
  lemma LowPrefix(a: seq<byte>, b: seq<byte>)
    requires EscapeStarts(a, 0) && (a[6..] == [] || Unfinished(a[6..])) && EscapeStarts(a + b, 6)
    requires !UnfinishedLow(a[6..])
    ensures !IsLow(EscapeNumber(a + b, 6))
  {
    var t, w := a[6..], (a + b)[8..12];
    LowDigits(w);
    assert |t| > 2 ==> t[2] == w[0];
    assert |t| > 3 ==> t[3] == w[1];
  }

  /** Without a cut token, concatenation is preserved. */
  lemma {:induction false} ConcatClosed(a: seq<byte>, b: seq<byte>)
    requires !Dangling(a)
    ensures Unescape(a + b) == Unescape(a) + Unescape(b)
    decreases |a|
  {
    if a == [] {
      assert a + b == b;
    } else {
      var c := EscapeAt(a).Consumed();
      ClosedToken(a, b);
      assert (a + b)[c..] == a[c..] + b;
      ConcatClosed(a[c..], b);
    }
  }

  lemma FirstToken(a: seq<byte>, b: seq<byte>) returns (head: seq<byte>)
    requires a != [] && !Open(a)
    ensures Unescape(a) == head + Unescape(a[EscapeAt(a).Consumed()..])
    ensures Unescape(a + b) == head + Unescape(a[EscapeAt(a).Consumed()..] + b)
  {
    var e := EscapeAt(a);
    head := if e.NoEscape? then [a[0]] else Encode(e.Value());
    ClosedToken(a, b);
    assert (a + b)[e.Consumed()..] == a[e.Consumed()..] + b;
  }

  lemma Cancel(head: seq<byte>, x: seq<byte>, y: seq<byte>, z: seq<byte>)
    requires x != y + z
    ensures head + x != (head + y) + z
  {
    assert (head + x)[|head|..] == x;
    assert ((head + y) + z)[|head|..] == y + z;
  }

  /** With a cut token, completing it breaks the law. */
  lemma {:induction false} ConcatOpen(a: seq<byte>) returns (b: seq<byte>)
    requires Dangling(a)
    ensures Unescape(a + b) != Unescape(a) + Unescape(b)
    decreases |a|
  {
    if Open(a) {
      if Unfinished(a) {
        b := [LOWER_U, 0x30, 0x30, 0x30, 0x30][|a| - 1..];
        CompletedSingle(a, b);
      } else {
        b := [BACKSLASH, LOWER_U, 0x64, 0x63, 0x30, 0x30][|a| - 6..];
        CompletedPair(a, b);
      }
    } else {
      var rest := a[EscapeAt(a).Consumed()..];
      b := ConcatOpen(rest);
      var head := FirstToken(a, b);
      Cancel(head, Unescape(rest + b), Unescape(rest), Unescape(b));
    }
  }

  lemma CompletedSingle(t: seq<byte>, rest: seq<byte>)
    requires Unfinished(t) && rest == [LOWER_U, 0x30, 0x30, 0x30, 0x30][|t| - 1..]
    ensures Unescape(t + rest) != Unescape(t) + Unescape(rest)
  {
    var s := t + rest;
    var w := s[2..6];
    assert |s| == 6 && s[0] == BACKSLASH && s[1] == LOWER_U && w[3] == 0x30;
    assert forall k | 2 <= k < |t| :: w[k - 2] == t[k];
    assert forall k | 0 <= k < 4 :: HexDigitValue(w[k]).Some?;
    HexOfFour(w, HexDigitValue(w[0]).value, HexDigitValue(w[1]).value, HexDigitValue(w[2]).value, 0);
    var v := EscapeNumber(s, 0);
    assert v % 16 == 0 && EscapeAt(s) == Single(v);
    NoBackslashAbove(v);
    assert Unescape(s)[0] == Encode(v)[0] != BACKSLASH;
    assert Unescape(t)[0] == BACKSLASH;
  }

  lemma CompletedPair(t: seq<byte>, rest: seq<byte>)
    requires Open(t) && !Unfinished(t)
    requires rest == [BACKSLASH, LOWER_U, 0x64, 0x63, 0x30, 0x30][|t| - 6..]
    ensures Unescape(t + rest) != Unescape(t) + Unescape(rest)
  {
    hide HexNumber;
    var s := t + rest;
    var u := s[8..12];
    assert |s| == 12 && s[2..6] == t[2..6];
    var half := t[6..];
    assert forall k | 0 <= k < |half| :: s[6 + k] == half[k];
    assert s[6] == BACKSLASH && s[7] == LOWER_U;
    assert forall k | 2 <= k < |half| :: u[k - 2] == half[k];
    assert forall k | 0 <= k < 4 :: HexDigitValue(u[k]).Some?;
    assert HexDigitValue(u[0]) == Some(13) && HexDigitValue(u[1]).value >= 12;
    LowDigits(u);
    assert EscapeAt(s).Pair?;
    assert Unescape(s)[0] >= 0xF0;
    var v := EscapeNumber(t, 0);
    assert !EscapeAt(t).Pair?;
    assert Unescape(t)[0] == Encode(v)[0] < 0xF0;
  }

  /** From some position on, what is left of `a` is the beginning of a token. */
  predicate CutShort(a: seq<int>) { exists k | 0 <= k < |a| :: Open(a[k..]) }

  lemma {:induction false} DanglingIsCutShort(a: seq<int>)
    ensures Dangling(a) <==> CutShort(a)
    decreases |a|
  {
    if a != [] {
      var c := EscapeAt(a).Consumed();
      var rest := a[c..];
      DanglingIsCutShort(rest);
      assert a[0..] == a;
      forall k | 0 < k < |a|
        ensures k < c ==> !Open(a[k..])
        ensures k >= c ==> a[k..] == rest[k - c..]
      {
        if k < c { ClosedInside(a, k); }
      }
      hide Open;
      if k :| 0 <= k < |rest| && Open(rest[k..]) {
        assert a[k + c..] == rest[k..];
      }
    }
  }

  /** No token begins inside a token, but for the complete second half of a pair. */
  lemma ClosedInside(a: seq<int>, k: nat)
    requires a != [] && 0 < k < EscapeAt(a).Consumed()
    ensures !Open(a[k..])
  {
    InsideToken(a, k);
    ShiftStarts(a, k);
    NotBackslashInside(a, k);
  }

  lemma NotBackslashInside(a: seq<int>, k: nat)
    requires a != [] && 0 < k < EscapeAt(a).Consumed()
    ensures a[k] == BACKSLASH ==> EscapeAt(a).Pair? && k == 6
  {
    var w := a[2..6];
    assert 2 <= k < 6 ==> a[k] == w[k - 2];
    if EscapeAt(a).Pair? {
      var x := a[8..12];
      assert 8 <= k < 12 ==> a[k] == x[k - 8];
    }
  }

  /** The law holds for every continuation exactly when `a` does not end in the beginning of a token. */
  lemma ConcatenationLaw(a: seq<byte>)
    ensures (forall b: seq<byte> :: Unescape(a + b) == Unescape(a) + Unescape(b)) <==> !CutShort(a)
  {
    DanglingIsCutShort(a);
    hide CutShort, Dangling;
    if Dangling(a) {
      var b := ConcatOpen(a);
    } else {
      forall b: seq<byte> ensures Unescape(a + b) == Unescape(a) + Unescape(b) {
        ConcatClosed(a, b);
      }
    }
  }

  /** `\` followed by `u0041`: a token cut in two. */
  lemma NotDistributive()
    ensures var a, b: seq<byte> := [0x5C], [0x75, 0x30, 0x30, 0x34, 0x31];
            CutShort(a) && Unescape(a + b) == [0x41] && Unescape(a) + Unescape(b) == a + b
  {
    hide Unescape, HexNumber;
    var a: seq<byte> := [0x5C];
    var b: seq<byte> := [0x75, 0x30, 0x30, 0x34, 0x31];
    var s := a + b;
    assert a[0..] == a && Open(a[0..]);
    HexReads(s, [0x30, 0x30, 0x34, 0x31], 0, 0, 4, 1);
    assert s[6..] == [];
    EscapeThenPlain(s, 0x41);
    PlainRun(b, []);
    assert b + [] == b && !HasEscape(a) by { assert a[1..] == []; }
    FixedPoint(a);
    FixedPoint([]);
  }

  /** A backslash-free tail of eleven bytes is enough, because the lookahead is twelve. */
  lemma QuietTail(a: seq<byte>, b: seq<byte>)
    requires forall k | 0 <= k < |a| && |a| - 11 <= k :: a[k] != BACKSLASH
    ensures !CutShort(a) && Unescape(a + b) == Unescape(a) + Unescape(b)
  {
    forall k | 0 <= k < |a| ensures !Open(a[k..]) {
      assert a[k..][0] == a[k];
    }
    ConcatenationLaw(a);
  }
}
