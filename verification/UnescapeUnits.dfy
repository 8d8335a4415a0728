/**
 The doubled backslash. In JSON text `\\` is one unit (section 7 of RFC 8259); the scanner does not
 treat it as one, and reads an escape from its second backslash.
 */
module UnescapeUnits {
  import opened Bits
  import opened Utf8
  import opened UnescapeSpec
  import opened UnescapeTheorems

  predicate Doubled(s: seq<int>) { |s| >= 2 && s[0] == BACKSLASH && s[1] == BACKSLASH }

  /** The unescaping that leaves doubled backslashes alone. */
  function Aware(s: seq<byte>): seq<byte>
    decreases |s|
  {
    if s == [] then []
    else if Doubled(s) then [s[0], s[1]] + Aware(s[2..])
    else
      var e := EscapeAt(s);
      if e.NoEscape? then [s[0]] + Aware(s[1..]) else Encode(e.Value()) + Aware(s[e.Consumed()..])
  }

  /** How far the aware scan moves on. */
  function Step(s: seq<int>): (n: nat)
    requires s != []
    ensures 0 < n <= |s|
  {
    if Doubled(s) then 2 else EscapeAt(s).Consumed()
  }

  /** Some escape begins at the second half of a doubled backslash. */
  predicate Shadowed(s: seq<int>)
    decreases |s|
  {
    s != [] && ((Doubled(s) && EscapeStarts(s, 1)) || Shadowed(s[Step(s)..]))
  }

  /** Backslashes standing immediately before position i. */
  function BackslashesBefore(s: seq<int>, i: nat): (n: nat)
    requires i <= |s|
    ensures n <= i
  {
    if i > 0 && s[i - 1] == BACKSLASH then 1 + BackslashesBefore(s, i - 1) else 0
  }

  /** An escape after an odd number of backslashes. */
  predicate AfterOdd(s: seq<int>, i: nat)
    requires i <= |s|
  {
    EscapeStarts(s, i) && BackslashesBefore(s, i) % 2 == 1
  }

  predicate OddEscape(s: seq<int>) { exists i | 0 <= i < |s| :: AfterOdd(s, i) }

  // ---------------------------------------------------------------- the two unescapings

  lemma {:induction false} AwarePlain(p: seq<byte>, s: seq<byte>)
    requires BACKSLASH !in p
    ensures Aware(p + s) == p + Aware(s)
  {
    if p == [] {
      assert p + s == s;
    } else {
      assert (p + s)[0] == p[0] && (p + s)[1..] == p[1..] + s;
      AwarePlain(p[1..], s);
      assert [p[0]] + p[1..] == p;
    }
  }

  /** Four hexadecimal digits and their `u` are no backslashes. */
  lemma EscapeBody(s: seq<int>, i: nat)
    requires EscapeStarts(s, i)
    ensures BACKSLASH !in s[i + 1..i + 6]
  {
    var body, digits := s[i + 1..i + 6], s[i + 2..i + 6];
    forall k | 0 < k < |body| ensures body[k] != BACKSLASH {
      assert body[k] == digits[k - 1] && HexDigitValue(digits[k - 1]).Some?;
    }
  }

  /** The token the scanner sees at the second backslash, against the bytes the aware scan keeps. */
  lemma ShadowedUnit(s: seq<byte>) returns (c: nat)
    requires Doubled(s) && EscapeStarts(s, 1)
    ensures 7 <= c <= |s|
    ensures |Unescape(s)| - |Unescape(s[c..])| < |Aware(s)| - |Aware(s[c..])|
  {
    ShiftStarts(s, 1);
    var t := s[1..];
    var e := EscapeAt(t);
    c := 1 + e.Consumed();
    assert Unescape(s) == [s[0]] + Unescape(t);
    assert t[e.Consumed()..] == s[c..];
    EscapeBody(s, 1);
    assert s[2..] == s[2..7] + s[7..];
    AwarePlain(s[2..7], s[7..]);
    if e.Pair? {
      ShiftStarts(t, 6);
      assert t[6..] == s[7..] && s[7..][6..] == s[c..];
    }
  }

  /** Reading escapes at second backslashes always loses bytes, and is the only difference. */
  lemma {:induction false} UnitsCompared(s: seq<byte>)
    ensures Shadowed(s) ==> |Unescape(s)| < |Aware(s)|
    ensures !Shadowed(s) ==> Unescape(s) == Aware(s)
    decreases |s|
  {
    if s != [] {
      hide Encode, EscapeStarts;
      if Doubled(s) && EscapeStarts(s, 1) {
        var c := ShadowedUnit(s);
        UnitsCompared(s[c..]);
      } else if Doubled(s) {
        UnitsCompared(s[2..]);
        QuietUnit(s);
      } else {
        UnitsCompared(s[EscapeAt(s).Consumed()..]);
      }
    }
  }

  /** A doubled backslash before anything but an escape is copied by either scan. */
  lemma QuietUnit(s: seq<byte>)
    requires Doubled(s) && !EscapeStarts(s, 1)
    ensures Unescape(s) == [s[0], s[1]] + Unescape(s[2..])
  {
    ShiftStarts(s, 1);
    assert s[1..][1..] == s[2..];
    assert Unescape(s) == [s[0]] + ([s[1]] + Unescape(s[2..]));
  }

  // ---------------------------------------------------------------- as a condition on positions

  /** Counting backslashes back from i does not look past a position below i that holds none. */
  lemma {:induction false} CountStops(s: seq<int>, c: nat, i: nat)
    requires 0 < c <= i <= |s| && s[c - 1] != BACKSLASH
    ensures BackslashesBefore(s[c..], i - c) == BackslashesBefore(s, i)
  {
    if i > c {
      CountStops(s, c, i - 1);
      assert s[c..][i - c - 1] == s[i - 1];
    }
  }

  /** Dropping a doubled backslash keeps the parity. */
  lemma {:induction false} CountPasses(s: seq<int>, i: nat)
    requires Doubled(s) && 2 <= i <= |s|
    ensures BackslashesBefore(s[2..], i - 2) % 2 == BackslashesBefore(s, i) % 2
  {
    if i == 2 {
      assert BackslashesBefore(s, 1) == 1 && BackslashesBefore(s, 2) == 2;
    } else {
      CountPasses(s, i - 1);
      assert s[2..][i - 3] == s[i - 1];
    }
  }

  /** Inside the unit at the head only a shadowed escape follows an odd number of backslashes. */
  lemma OddInHead(s: seq<int>, i: nat)
    requires s != [] && i < Step(s)
    ensures AfterOdd(s, i) <==> Doubled(s) && i == 1 && EscapeStarts(s, 1)
  {
    if !Doubled(s) && !EscapeAt(s).NoEscape? {
      EscapeBody(s, 0);
      assert 0 < i < 6 ==> s[i] == s[1..6][i - 1];
      if EscapeAt(s).Pair? {
        EscapeBody(s, 6);
        assert 6 < i < 12 ==> s[i] == s[7..12][i - 7];
        assert s[5] == s[1..6][4];
      }
    }
  }

  /** Behind the unit at the head the parity is what the rest alone shows. */
  lemma OddInRest(s: seq<int>, i: nat)
    requires s != [] && Step(s) <= i <= |s|
    ensures AfterOdd(s, i) <==> AfterOdd(s[Step(s)..], i - Step(s))
  {
    var n := Step(s);
    ShiftStarts(s, i);
    ShiftStarts(s[n..], i - n);
    assert s[n..][i - n..] == s[i..];
    if Doubled(s) {
      CountPasses(s, i);
    } else if EscapeAt(s).NoEscape? && s[0] == BACKSLASH {
      if i > 1 {
        CountStops(s, 2, i);
        CountStops(s[1..], 1, i - 1);
        assert s[1..][1..] == s[2..];
      }
    } else {
      if !EscapeAt(s).NoEscape? {
        EscapeBody(s, n - 6);
        assert s[n - 1] == s[n - 5..n][4];
      }
      CountStops(s, n, i);
    }
  }

  /** Shadowed escapes are the escapes after an odd number of backslashes. */
  lemma {:induction false} ShadowedIsOdd(s: seq<int>)
    ensures Shadowed(s) <==> OddEscape(s)
    decreases |s|
  {
    if s != [] {
      var n := Step(s);
      var rest := s[n..];
      ShadowedIsOdd(rest);
      hide AfterOdd, EscapeStarts;
      forall i | 0 <= i < |s|
        ensures i < n ==> (AfterOdd(s, i) <==> Doubled(s) && i == 1 && EscapeStarts(s, 1))
        ensures i >= n ==> (AfterOdd(s, i) <==> AfterOdd(rest, i - n))
      {
        if i < n { OddInHead(s, i); } else { OddInRest(s, i); }
      }
      if Doubled(s) && EscapeStarts(s, 1) {
        assert AfterOdd(s, 1);
      }
      if OddEscape(rest) {
        var k :| 0 <= k < |rest| && AfterOdd(rest, k);
        assert AfterOdd(s, k + n);
      }
      if OddEscape(s) {
        var i :| 0 <= i < |s| && AfterOdd(s, i);
        assert i >= n ==> AfterOdd(rest, i - n);
      }
    }
  }

  /**
   The scanner treats a doubled backslash as a unit exactly when no escape of the input stands after
   an odd number of backslashes; otherwise its result is shorter than it should be.
   */
  lemma DoubledBackslash(s: seq<byte>)
    ensures Unescape(s) == Aware(s) <==> !OddEscape(s)
    ensures OddEscape(s) ==> |Unescape(s)| < |Aware(s)|
  {
    UnitsCompared(s);
    ShadowedIsOdd(s);
  }

  /** `\\u0041` is an escaped backslash and five letters, but is decoded from its second backslash. */
  lemma NotAware()
    ensures var s := [BACKSLASH, BACKSLASH, LOWER_U, 0x30, 0x30, 0x34, 0x31];
            Unescape(s) == [BACKSLASH, 0x41] && Aware(s) == s
  {
    hide Unescape, HexNumber;
    var s: seq<byte> := [BACKSLASH, BACKSLASH, LOWER_U, 0x30, 0x30, 0x34, 0x31];
    var t: seq<byte> := [BACKSLASH, LOWER_U, 0x30, 0x30, 0x34, 0x31];
    HexReads(t, [0x30, 0x30, 0x34, 0x31], 0, 0, 4, 1);
    EscapeThenPlain(t, 0x41);
    assert t[6..] == [] && Encode(0x41) + [] == [0x41];
    NoEscapeFirst(s);
    assert s[1..] == t;
    AllKept(s);
  }

  lemma AllKept(s: seq<byte>)
    requires Doubled(s) && BACKSLASH !in s[2..]
    ensures Aware(s) == s
  {
    AwarePlain(s[2..], []);
    assert s[2..] + [] == s[2..] && [s[0], s[1]] + s[2..] == s;
  }

  lemma NoEscapeFirst(s: seq<byte>)
    requires Doubled(s)
    ensures Unescape(s) == [s[0]] + Unescape(s[1..])
  {
  }
}
