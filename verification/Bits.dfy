/**
 Go's fixed-width unsigned integers and the bit operators the unescaper uses on them.
 The operators are defined bit by bit, so that every use of `|`, `&`, `<<` and `>>` in the
 imperative code is written as in the source and related to arithmetic by a lemma.
 */
module Bits {
  type byte = x: int | 0 <= x < 0x100
  type u16 = x: int | 0 <= x < 0x1_0000
  type u32 = x: int | 0 <= x < 0x1_0000_0000

  function BitOr(a: nat, b: nat): nat
    decreases a + b
  {
    if a == 0 && b == 0 then 0
    else 2 * BitOr(a / 2, b / 2) + (if a % 2 == 1 || b % 2 == 1 then 1 else 0)
  }

  function BitAnd(a: nat, b: nat): nat {
    if a == 0 || b == 0 then 0
    else 2 * BitAnd(a / 2, b / 2) + (if a % 2 == 1 && b % 2 == 1 then 1 else 0)
  }

  /** `v << k` before the result is cut to the operand's width. */
  function Shl(v: nat, k: nat): nat { if k == 0 then v else 2 * Shl(v, k - 1) }

  function Shl16(v: u16, k: nat): u16 { Shl(v, k) % 0x1_0000 }

  function Shl32(v: u32, k: nat): u32 { Shl(v, k) % 0x1_0000_0000 }

  function Shr(v: nat, k: nat): nat { if k == 0 then v else Shr(v / 2, k - 1) }

  /** Go's conversion `byte(v)`. */
  function ToByte(v: nat): byte { v % 0x100 }

  lemma Shifts(v: nat)
    ensures Shl(v, 3) == 8 * v && Shl(v, 4) == 16 * v && Shl(v, 5) == 32 * v && Shl(v, 6) == 64 * v
    ensures Shl(v, 10) == 1024 * v
  {
    assert Shl(v, 1) == 2 * v;
    assert Shl(v, 2) == 4 * v;
    assert Shl(v, 3) == 8 * v;
    assert Shl(v, 4) == 16 * v;
    assert Shl(v, 5) == 32 * v;
    assert Shl(v, 6) == 64 * v;
    assert Shl(v, 7) == 128 * v;
    assert Shl(v, 8) == 256 * v;
    assert Shl(v, 9) == 512 * v;
  }

  lemma ShrThree(v: nat, k: nat)
    ensures Shr(v, k + 3) == Shr(v / 8, k)
  {
    assert Shr(v, k + 3) == Shr(v / 2, k + 2);
    assert Shr(v / 2, k + 2) == Shr(v / 2 / 2, k + 1);
    assert v / 2 / 2 / 2 == v / 8;
  }

  lemma ShrSix(v: nat, k: nat)
    ensures Shr(v, k + 6) == Shr(v / 64, k)
  {
    ShrThree(v, k + 3);
    ShrThree(v / 8, k);
    assert v / 8 / 8 == v / 64;
  }

  lemma RightShifts(r: nat)
    ensures Shr(r, 6) == r / 64 && Shr(r, 12) == r / 4096 && Shr(r, 18) == r / 262144
  {
    ShrSix(r, 0);
    ShrSix(r, 6);
    ShrSix(r / 64, 0);
    ShrSix(r, 12);
    ShrSix(r / 64, 6);
    ShrSix(r / 4096, 0);
    assert r / 64 / 64 == r / 4096 && r / 4096 / 64 == r / 262144;
  }

  lemma {:induction false} OrZero(a: nat)
    ensures BitOr(a, 0) == a
  {
    if a > 0 { OrZero(a / 2); }
  }

  /** When the operands share no bit position, `|` adds them. */
  lemma {:induction false} OrDisjoint(a: nat, hi: nat, k: nat, lo: nat)
    requires a == Shl(hi, k) && lo < Shl(1, k)
    ensures BitOr(a, lo) == a + lo
  {
    if k == 0 {
      OrZero(a);
    } else {
      OrDisjoint(a / 2, hi, k - 1, lo / 2);
    }
  }

  /** One bit of a mask whose lowest bit is set. */
  lemma AndStep(a: nat, m: nat)
    ensures BitAnd(a, 2 * m + 1) == 2 * BitAnd(a / 2, m) + a % 2
  {
    assert (2 * m + 1) / 2 == m;
  }

  lemma AndTwoSteps(a: nat, m: nat)
    ensures BitAnd(a, 4 * m + 3) == 4 * BitAnd(a / 4, m) + a % 4
  {
    AndStep(a, 2 * m + 1);
    AndStep(a / 2, m);
    assert a / 2 / 2 == a / 4;
  }

  /** Masking with 0x3F keeps the remainder modulo 64. */
  lemma AndMask6(a: nat)
    ensures BitAnd(a, 0x3F) == a % 64
  {
    var b, c, d := a / 4, a / 16, a / 64;
    assert b / 4 == c && c / 4 == d;
    AndTwoSteps(a, 15);
    AndTwoSteps(b, 3);
    AndTwoSteps(c, 0);
    assert a == 64 * d + 16 * (c % 4) + 4 * (b % 4) + a % 4;
  }

  lemma Mark(low: nat)
    requires low < 64
    ensures BitOr(0x80, low) == 0x80 + low && ToByte(low) == low
  {
    hide BitOr, Shl;
    Shifts(1);
    Shifts(2);
    OrDisjoint(0x80, 2, 6, low);
  }

  /** A continuation byte carries the low six bits of `x`. */
  lemma ContinuationByte(x: nat, low: nat)
    requires low == x % 64
    ensures BitAnd(x, 0x3F) == low && ToByte(low) == low && BitOr(0x80, low) == 0x80 + low
  {
    hide BitOr, BitAnd;
    AndMask6(x);
    Mark(low);
  }

  lemma LeadByte2(x: nat)
    requires x < 0x20
    ensures BitOr(0xC0, ToByte(x)) == 0xC0 + x
  {
    hide BitOr, Shl;
    Shifts(1);
    Shifts(6);
    assert ToByte(x) == x;
    OrDisjoint(0xC0, 6, 5, x);
  }

  lemma LeadByte3(x: nat)
    requires x < 0x10
    ensures BitOr(0xE0, ToByte(x)) == 0xE0 + x
  {
    hide BitOr, Shl;
    Shifts(1);
    Shifts(14);
    assert ToByte(x) == x;
    OrDisjoint(0xE0, 14, 4, x);
  }

  lemma LeadByte4(x: nat)
    requires x < 0x08
    ensures BitOr(0xF0, ToByte(x)) == 0xF0 + x
  {
    hide BitOr, Shl;
    Shifts(1);
    Shifts(30);
    assert ToByte(x) == x;
    OrDisjoint(0xF0, 30, 3, x);
  }

  lemma AppendDigit(v: u16, h: u16)
    requires v < 0x1000 && h < 16
    ensures BitOr(Shl16(v, 4), h) == v * 16 + h
  {
    hide BitOr, Shl;
    var a := 16 * v;
    assert Shl16(v, 4) == a by { Shifts(v); }
    assert BitOr(a, h) == a + h by { Shifts(1); Shifts(v); OrDisjoint(a, v, 4, h); }
  }

  lemma JoinHalves(hi: u32, lo: u32)
    requires hi < 0x400 && lo < 0x400
    ensures BitOr(Shl32(hi, 10), lo) == hi * 1024 + lo
  {
    hide BitOr, Shl;
    var a := 1024 * hi;
    assert Shl32(hi, 10) == a by { Shifts(hi); }
    assert BitOr(a, lo) == a + lo by { Shifts(1); Shifts(hi); OrDisjoint(a, hi, 10, lo); }
  }
}
