/** What the scanner takes for an escape: exactly the texts that print one, in either hex case, and nothing else. */
module UnescapeSyntax {
  import opened Bits
  import opened Wrappers
  import opened UnescapeSpec
  import opened UnescapeTheorems

  const LOWER_DIGITS := "0123456789abcdef"
  const UPPER_DIGITS := "0123456789ABCDEF"

  /** A symbol is the hexadecimal digit d if and only if it is the d-th character of one of the two rows. */
  lemma HexDigitsExact(c: int, d: nat)
    ensures HexDigitValue(c) == Some(d) <==>
            d < 16 && (c == LOWER_DIGITS[d] as int || c == UPPER_DIGITS[d] as int)
    ensures d < 16 ==> HexDigit(d, false) == LOWER_DIGITS[d] as int && HexDigit(d, true) == UPPER_DIGITS[d] as int
  {
    if d < 10 {
      assert LOWER_DIGITS[d] == '0' + d as char && UPPER_DIGITS[d] == '0' + d as char;
    } else if d < 16 {
      assert LOWER_DIGITS[d] == 'a' + (d - 10) as char && UPPER_DIGITS[d] == 'A' + (d - 10) as char;
    }
  }

  lemma Nibbles(a: nat, b: nat, c: nat, d: nat)
    requires a < 16 && b < 16 && c < 16 && d < 16
    ensures var v := a * 4096 + b * 256 + c * 16 + d;
            v < 0x1_0000 && v / 4096 == a && v / 256 % 16 == b && v / 16 % 16 == c && v % 16 == d
  {
    var v := a * 4096 + b * 256 + c * 16 + d;
    assert v / 16 == a * 256 + b * 16 + c;
    assert v / 256 == a * 16 + b;
  }

  /** Which of four digits are written in upper case. */
  function UpperCase(w: seq<byte>): set<nat> {
    set k: nat | k < |w| && 0x41 <= w[k] <= 0x46
  }

  lemma DigitPrinted(w: seq<byte>, k: nat, d: nat)
    requires k < |w| && HexDigitValue(w[k]) == Some(d)
    ensures d < 16 && w[k] == HexDigit(d, k in UpperCase(w))
  {
  }

  lemma Printed(s: seq<byte>, i: nat)
    requires EscapeStarts(s, i)
    ensures s[i..i + 6] == EscapeText(EscapeNumber(s, i), UpperCase(s[i + 2..i + 6]), 0)
  {
    var w := s[i + 2..i + 6];
    var a, b := HexDigitValue(w[0]).value, HexDigitValue(w[1]).value;
    var c, d := HexDigitValue(w[2]).value, HexDigitValue(w[3]).value;
    HexOfFour(w, a, b, c, d);
    DigitPrinted(w, 0, a);
    DigitPrinted(w, 1, b);
    DigitPrinted(w, 2, c);
    DigitPrinted(w, 3, d);
    Nibbles(a, b, c, d);
    hide HexNumber, HexDigit, HexDigitValue, UpperCase;
    assert s[i..i + 6] == [s[i], s[i + 1]] + w;
    assert w == [w[0], w[1], w[2], w[3]];
  }

  /** An escape with number v stands at position i if and only if some printing of v stands there. */
  lemma EscapesExact(s: seq<byte>, i: nat, v: u16)
    ensures (EscapeStarts(s, i) && EscapeNumber(s, i) == v) <==>
            i + 6 <= |s| && exists upper: set<nat> :: s[i..i + 6] == EscapeText(v, upper, 0)
  {
    hide EscapeStarts, EscapeNumber, EscapeText;
    if EscapeStarts(s, i) && EscapeNumber(s, i) == v {
      Printed(s, i);
      EscapeFits(s, i);
    } else if i + 6 <= |s| {
      forall upper: set<nat> ensures s[i..i + 6] != EscapeText(v, upper, 0) {
        if s[i..i + 6] == EscapeText(v, upper, 0) {
          EscapeTextStarts(s, i, v, upper, 0);
        }
      }
    }
  }

  lemma EscapeFits(s: seq<byte>, i: nat)
    requires EscapeStarts(s, i)
    ensures i + 6 <= |s|
  {
  }

  /** The printing of a number: a backslash, a `u` and its four digits. */
  lemma EscapeTextSpelled(v: u16, upper: set<nat>)
    ensures EscapeText(v, upper, 0)
            == ['\\' as int, 'u' as int, HexDigit(v / 4096, 0 in upper), HexDigit(v / 256 % 16, 1 in upper),
                HexDigit(v / 16 % 16, 2 in upper), HexDigit(v % 16, 3 in upper)]
  {
  }

  /** `\users` is no escape: the scanner keeps it. */
  lemma LettersKept()
    ensures var s := [0x5C, 0x75, 0x73, 0x65, 0x72, 0x73]; Unescape(s) == s
  {
    var s: seq<byte> := [0x5C, 0x75, 0x73, 0x65, 0x72, 0x73];
    assert HexDigitValue(s[2..6][0]).None?;
    assert EscapeAt(s).NoEscape? && BACKSLASH !in s[1..];
    PlainRun(s[1..], []);
    assert s[1..] + [] == s[1..] && [s[0]] + s[1..] == s;
  }
}
