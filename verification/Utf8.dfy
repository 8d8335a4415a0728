/**
 UTF-8 as RFC 3629 defines it: the encoding of section 3 and the byte grammar of section 4.
 */
module Utf8 {
  import opened Bits

  /** Any value the unescaper can emit; lone surrogates are included because it emits them too. */
  type CodePoint = r: int | 0 <= r < 0x11_0000

  predicate IsSurrogate(r: int) { 0xD800 <= r <= 0xDFFF }

  /** A Unicode scalar value. */
  predicate IsScalar(r: int) { 0 <= r < 0x11_0000 && !IsSurrogate(r) }

  predicate AllScalars(cps: seq<CodePoint>) { forall k | 0 <= k < |cps| :: IsScalar(cps[k]) }

  /** Section 3 of RFC 3629, applied also to surrogates. */
  function Encode(r: CodePoint): (b: seq<byte>)
    ensures 1 <= |b| <= 4
    ensures r < 0x80 ==> b == [r]
    ensures r >= 0x80 ==> forall k | 0 <= k < |b| :: b[k] >= 0x80
  {
    if r < 0x80 then [r]
    else if r < 0x800 then [0xC0 + r / 64, 0x80 + r % 64]
    else if r < 0x1_0000 then [0xE0 + r / 4096, 0x80 + r / 64 % 64, 0x80 + r % 64]
    else [0xF0 + r / 262144, 0x80 + r / 4096 % 64, 0x80 + r / 64 % 64, 0x80 + r % 64]
  }

  function EncodeAll(cps: seq<CodePoint>): seq<byte> {
    if cps == [] then [] else Encode(cps[0]) + EncodeAll(cps[1..])
  }

  predicate Tail(b: int) { 0x80 <= b <= 0xBF }

  predicate Lead2(b0: int, b1: int) { 0xC2 <= b0 <= 0xDF && Tail(b1) }

  predicate Lead3(b0: int, b1: int, b2: int) {
    && Tail(b2)
    && ((b0 == 0xE0 && 0xA0 <= b1 <= 0xBF)
        || (0xE1 <= b0 <= 0xEC && Tail(b1))
        || (b0 == 0xED && 0x80 <= b1 <= 0x9F)
        || (0xEE <= b0 <= 0xEF && Tail(b1)))
  }

  predicate Lead4(b0: int, b1: int, b2: int, b3: int) {
    && Tail(b2)
    && Tail(b3)
    && ((b0 == 0xF0 && 0x90 <= b1 <= 0xBF)
        || (0xF1 <= b0 <= 0xF3 && Tail(b1))
        || (b0 == 0xF4 && 0x80 <= b1 <= 0x8F))
  }

  /** Length of the UTF8-char of the grammar that starts `b`; 0 when there is none. */
  function LeadWidth(b: seq<byte>): (w: nat)
    ensures w <= |b| && w <= 4
  {
    if |b| >= 1 && b[0] <= 0x7F then 1
    else if |b| >= 2 && Lead2(b[0], b[1]) then 2
    else if |b| >= 3 && Lead3(b[0], b[1], b[2]) then 3
    else if |b| >= 4 && Lead4(b[0], b[1], b[2], b[3]) then 4
    else 0
  }

  /** UTF8-octets of section 4: a sequence of UTF8-char. */
  predicate Valid(b: seq<byte>) {
    b == [] || (LeadWidth(b) > 0 && Valid(b[LeadWidth(b)..]))
  }

  function DecodeOne(b: seq<byte>): CodePoint
    requires LeadWidth(b) > 0
  {
    var w := LeadWidth(b);
    if w == 1 then b[0]
    else if w == 2 then Join2(b[0], b[1])
    else if w == 3 then Join3(b[0], b[1], b[2])
    else Join4(b[0], b[1], b[2], b[3])
  }

  function Join2(b0: int, b1: int): int { (b0 - 0xC0) * 64 + (b1 - 0x80) }

  function Join3(b0: int, b1: int, b2: int): int { (b0 - 0xE0) * 4096 + (b1 - 0x80) * 64 + (b2 - 0x80) }

  function Join4(b0: int, b1: int, b2: int, b3: int): int {
    (b0 - 0xF0) * 262144 + (b1 - 0x80) * 4096 + (b2 - 0x80) * 64 + (b3 - 0x80)
  }

  function Decode(b: seq<byte>): seq<CodePoint>
    requires Valid(b)
  {
    if b == [] then [] else [DecodeOne(b)] + Decode(b[LeadWidth(b)..])
  }

  /** The base-64 digits of a code point put back together. */
  lemma Digits(r: nat)
    ensures r == r / 64 * 64 + r % 64
    ensures r == r / 4096 * 4096 + r / 64 % 64 * 64 + r % 64
    ensures r == r / 262144 * 262144 + r / 4096 % 64 * 4096 + r / 64 % 64 * 64 + r % 64
  {
    var q := r / 64;
    var p := q / 64;
    assert r == 64 * q + r % 64 && q == 64 * p + q % 64 && p == 64 * (p / 64) + p % 64;
    DigitsUnique(p / 64, p % 64, q % 64, r % 64);
  }

  /** The digits are determined by the number they make up. */
  lemma DigitsUnique(d3: nat, d2: nat, d1: nat, d0: nat)
    requires d2 < 64 && d1 < 64 && d0 < 64
    ensures var r := d3 * 262144 + d2 * 4096 + d1 * 64 + d0;
            r % 64 == d0 && r / 64 % 64 == d1 && r / 4096 % 64 == d2 && r / 262144 == d3
            && r / 4096 == d3 * 64 + d2 && r / 64 == d3 * 4096 + d2 * 64 + d1
  {
    var r := d3 * 262144 + d2 * 4096 + d1 * 64 + d0;
    var q := d3 * 4096 + d2 * 64 + d1;
    assert r / 64 == q;
    assert q / 64 == d3 * 64 + d2;
    assert r / 4096 == q / 64;
  }

  /** The grammar accepts the encoding of exactly the scalar values, and reads them back. */
  lemma {:induction false} EncodeLeads(r: CodePoint, rest: seq<byte>)
    ensures IsScalar(r) ==> LeadWidth(Encode(r) + rest) == |Encode(r)| && DecodeOne(Encode(r) + rest) == r
    ensures IsSurrogate(r) ==> LeadWidth(Encode(r) + rest) == 0
  {
    var b := Encode(r) + rest;
    Digits(r);
    assert forall k | 0 <= k < |Encode(r)| :: b[k] == Encode(r)[k];
    if 0x800 <= r < 0x1_0000 {
      var d2, d1 := r / 4096, r / 64 % 64;
      assert b[0] == 0xE0 + d2 && b[1] == 0x80 + d1;
      assert IsSurrogate(r) <==> d2 == 0xD && d1 >= 0x20;
      assert d2 == 0 ==> d1 >= 0x20;
    } else if r >= 0x1_0000 {
      var d3, d2 := r / 262144, r / 4096 % 64;
      assert b[0] == 0xF0 + d3 && b[1] == 0x80 + d2;
      assert d3 == 0 ==> d2 >= 0x10;
      assert d3 <= 4 && (d3 == 4 ==> d2 < 0x10);
    }
  }

  /** Decoding one character of the grammar gives a scalar whose encoding is that character. */
  lemma {:induction false} DecodeOneEncodes(b: seq<byte>)
    requires LeadWidth(b) > 0
    ensures IsScalar(DecodeOne(b))
    ensures Encode(DecodeOne(b)) == b[..LeadWidth(b)]
  {
    var w := LeadWidth(b);
    if w == 2 {
      Decode2(b[0], b[1]);
    } else if w == 3 {
      Decode3(b[0], b[1], b[2]);
    } else if w == 4 {
      Decode4(b[0], b[1], b[2], b[3]);
    }
  }

  lemma Decode2(b0: int, b1: int)
    requires Lead2(b0, b1)
    ensures var r := Join2(b0, b1); IsScalar(r) && Encode(r) == [b0, b1]
  {
    DigitsUnique(0, 0, b0 - 0xC0, b1 - 0x80);
  }

  lemma Encode3(r: CodePoint, d2: nat, d1: nat, d0: nat)
    requires 0x800 <= r < 0x1_0000 && d1 < 64 && d0 < 64 && r == d2 * 4096 + d1 * 64 + d0
    ensures Encode(r) == [0xE0 + d2, 0x80 + d1, 0x80 + d0]
  {
    assert r / 4096 == d2 && r / 64 % 64 == d1 && r % 64 == d0 by { DigitsUnique(0, d2, d1, d0); }
  }

  lemma Decode3(b0: int, b1: int, b2: int)
    requires Lead3(b0, b1, b2)
    ensures var r := Join3(b0, b1, b2); IsScalar(r) && Encode(r) == [b0, b1, b2]
  {
    hide Encode;
    Encode3(Join3(b0, b1, b2), b0 - 0xE0, b1 - 0x80, b2 - 0x80);
  }

  lemma Encode4(r: CodePoint, d3: nat, d2: nat, d1: nat, d0: nat)
    requires 0x1_0000 <= r && d2 < 64 && d1 < 64 && d0 < 64 && r == d3 * 262144 + d2 * 4096 + d1 * 64 + d0
    ensures d3 <= 4 && Encode(r) == [0xF0 + d3, 0x80 + d2, 0x80 + d1, 0x80 + d0]
  {
    assert r / 262144 == d3 && r / 4096 % 64 == d2 && r / 64 % 64 == d1 && r % 64 == d0 by {
      DigitsUnique(d3, d2, d1, d0);
    }
  }

  lemma Decode4(b0: int, b1: int, b2: int, b3: int)
    requires Lead4(b0, b1, b2, b3)
    ensures var r := Join4(b0, b1, b2, b3); IsScalar(r) && Encode(r) == [b0, b1, b2, b3]
  {
    hide Encode;
    var d3, d2 := b0 - 0xF0, b1 - 0x80;
    assert d3 <= 4 && (d3 == 0 ==> d2 >= 16) && (d3 == 4 ==> d2 < 16);
    assert 0x1_0000 <= Join4(b0, b1, b2, b3) < 0x11_0000;
    Encode4(Join4(b0, b1, b2, b3), d3, d2, b2 - 0x80, b3 - 0x80);
  }

  /** Encoding any code points is valid UTF-8 exactly when none of them is a surrogate. */
  lemma {:induction false} EncodeAllValid(cps: seq<CodePoint>)
    ensures Valid(EncodeAll(cps)) <==> AllScalars(cps)
    ensures AllScalars(cps) ==> Decode(EncodeAll(cps)) == cps
  {
    if cps != [] {
      var r, rest := cps[0], EncodeAll(cps[1..]);
      EncodeLeads(r, rest);
      EncodeAllValid(cps[1..]);
      assert cps == [r] + cps[1..];
      if IsScalar(r) {
        assert (Encode(r) + rest)[|Encode(r)|..] == rest;
        assert AllScalars(cps) <==> AllScalars(cps[1..]);
      }
    }
  }

  lemma EncodeCons(r: CodePoint, cps: seq<CodePoint>)
    ensures EncodeAll([r] + cps) == Encode(r) + EncodeAll(cps)
    ensures AllScalars([r] + cps) <==> IsScalar(r) && AllScalars(cps)
  {
    assert ([r] + cps)[1..] == cps;
    assert forall k | 0 <= k < |cps| :: ([r] + cps)[k + 1] == cps[k];
  }

  lemma Peel(b: seq<byte>) returns (r: CodePoint, rest: seq<byte>)
    requires Valid(b) && b != []
    ensures IsScalar(r) && b == Encode(r) + rest
    ensures |rest| < |b| && Valid(rest) && Decode(b) == [r] + Decode(rest)
  {
    hide LeadWidth, DecodeOne, Encode, IsScalar;
    var w := LeadWidth(b);
    r, rest := DecodeOne(b), b[w..];
    assert Encode(r) == b[..w] && IsScalar(r) by { DecodeOneEncodes(b); }
    assert b == b[..w] + rest;
  }

  /** Every valid byte sequence is the encoding of the scalars it decodes to. */
  lemma {:induction false} DecodeEncodes(b: seq<byte>)
    requires Valid(b)
    ensures AllScalars(Decode(b)) && EncodeAll(Decode(b)) == b
    decreases |b|
  {
    if b != [] {
      var r, rest := Peel(b);
      DecodeEncodes(rest);
      ghost var cps := Decode(rest);
      EncodeCons(r, cps);
    }
  }
}
