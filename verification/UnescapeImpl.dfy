/**
 The byte scanner itself: two cursors over fixed buffers (helpers/unicode.go).
 Array accesses are checked by the verifier, so the contracts below also say that no read
 leaves `data` and no write, those through the four-byte window included, leaves `out`.
 */
module UnescapeImpl {
  import opened Bits
  import opened Utf8
  import opened UnescapeSpec

  /** The digit's value and whether there is one. */
  function HexValue(b: byte): (u16, bool) {
    if 0x30 <= b <= 0x39 then ((b - 0x30) as int, true)
    else if 0x61 <= b <= 0x66 then (b as int - 0x61 + 10, true)
    else if 0x41 <= b <= 0x46 then (b as int - 0x41 + 10, true)
    else (0, false)
  }

  predicate IsUnicodeEscape(data: seq<byte>, i: nat) {
    i + 5 < |data| && data[i] == BACKSLASH && data[i + 1] == LOWER_U
  }

  method ParseHex4(b: seq<byte>) returns (v: u16, ok: bool)
    requires |b| == 4
    ensures ok <==> IsHex4(b)
    ensures ok ==> v == HexNumber(b)
  {
    v := 0;
    for k := 0 to |b|
      invariant forall m | 0 <= m < k :: HexDigitValue(b[m]).Some?
      invariant v == HexNumber(b[..k])
    {
      var (h, isDigit) := HexValue(b[k]);
      if !isDigit {
        return 0, false;
      }
      assert b[..k + 1][..k] == b[..k];
      AppendDigit(v, h);
      v := BitOr(Shl16(v, 4), h);
    }
    assert b[..4] == b;
    ok := true;
  }

  /** Value of the escape at the head of `data` and its length; -1 when the digits are not hexadecimal. */
  method DecodeUnicodeEscape(data: seq<byte>) returns (r: int, consumed: nat)
    requires IsUnicodeEscape(data, 0)
    ensures r == EscapeAt(data).Value() && consumed == EscapeAt(data).Consumed()
  {
    var v1, ok := ParseHex4(data[2..6]);
    if !ok {
      return -1, 1;
    }
    if 0xD800 <= v1 && v1 <= 0xDBFF && IsUnicodeEscape(data, 6) {
      var v2, ok2 := ParseHex4(data[8..12]);
      if ok2 && 0xDC00 <= v2 && v2 <= 0xDFFF {
        JoinHalves(v1 - 0xD800, v2 - 0xDC00);
        r := 0x1_0000 + BitOr(Shl32(v1 - 0xD800, 10), v2 - 0xDC00);
        return r, 12;
      }
    }
    return v1, 6;
  }

  /** `0xC0 | byte(r>>6)` and the other lead bytes: a marker and the top bits. */
  method LeadByte(r: CodePoint, width: nat) returns (b: byte)
    requires 2 <= width <= 4 && width == |Encode(r)|
    ensures b == Encode(r)[0]
  {
    RightShifts(r);
    if width == 2 {
      LeadByte2(r / 64);
      b := BitOr(0xC0, ToByte(Shr(r, 6)));
    } else if width == 3 {
      LeadByte3(r / 4096);
      b := BitOr(0xE0, ToByte(Shr(r, 12)));
    } else {
      LeadByte4(r / 262144);
      b := BitOr(0xF0, ToByte(Shr(r, 18)));
    }
  }

  /** `0x80 | byte((r>>k)&0x3F)`: a continuation byte. */
  method TailByte(r: CodePoint, k: nat) returns (b: byte)
    requires k == 0 || k == 6 || k == 12
    ensures k == 0 ==> b == 0x80 + r % 64
    ensures k == 6 ==> b == 0x80 + r / 64 % 64
    ensures k == 12 ==> b == 0x80 + r / 4096 % 64
  {
    RightShifts(r);
    ContinuationByte(Shr(r, k), Shr(r, k) % 64);
    b := BitOr(0x80, ToByte(BitAnd(Shr(r, k), 0x3F)));
  }

  /** Writes the UTF-8 of `r` at `j`; the window must lie inside the buffer. */
  method AppendRuneAt(buf: array<byte>, j: nat, r: CodePoint) returns (next: nat)
    requires j + |Encode(r)| <= buf.Length
    modifies buf
    ensures next == j + |Encode(r)|
    ensures buf[..next] == old(buf[..j]) + Encode(r)
  {
    if r < 0x80 {
      buf[j] := ToByte(r);
      next := j + 1;
    } else if r < 0x800 {
      var p0 := LeadByte(r, 2);
      var p1 := TailByte(r, 0);
      buf[j], buf[j + 1] := p0, p1;
      next := j + 2;
    } else if r < 0x1_0000 {
      var p0 := LeadByte(r, 3);
      var p1 := TailByte(r, 6);
      var p2 := TailByte(r, 0);
      buf[j], buf[j + 1], buf[j + 2] := p0, p1, p2;
      next := j + 3;
    } else {
      var p0 := LeadByte(r, 4);
      var p1 := TailByte(r, 12);
      var p2 := TailByte(r, 6);
      var p3 := TailByte(r, 0);
      buf[j], buf[j + 1], buf[j + 2], buf[j + 3] := p0, p1, p2, p3;
      next := j + 4;
    }
  }

  /** Go's `copy(out[j:], block)`, with room in `out` for the whole block. */
  method CopyBlock(out: array<byte>, j: nat, block: seq<byte>)
    requires j + |block| <= out.Length
    modifies out
    ensures out[..j + |block|] == old(out[..j]) + block
  {
    forall k | 0 <= k < |block| {
      out[j + k] := block[k];
    }
  }

  /** The stretch from `start` to the next backslash, copied to `j`. */
  method CopyPlain(data: seq<byte>, start: nat, out: array<byte>, j: nat) returns (i: nat, next: nat)
    requires start < |data| && data[start] != BACKSLASH && j + (|data| - start) <= out.Length
    modifies out
    ensures start < i <= |data| && next == j + (i - start)
    ensures out[..next] == old(out[..j]) + data[start..i]
    ensures Unescape(data[start..]) == data[start..i] + Unescape(data[i..])
  {
    i := start + 1;
    while i < |data| && data[i] != BACKSLASH
      invariant start < i <= |data|
      invariant BACKSLASH !in data[start..i]
    {
      i := i + 1;
    }
    var block := data[start..i];
    assert |block| == i - start;
    CopyBlock(out, j, block);
    next := j + |block|;
    assert data[start..] == block + data[i..];
    PlainRun(block, data[i..]);
  }

  /** The escape at position i, if there is one; -1 otherwise. A decoded value is shorter than its escape. */
  method EscapeHere(data: seq<byte>, i: nat) returns (r: int, consumed: nat)
    requires i < |data|
    ensures r < 0 ==> Unescape(data[i..]) == [data[i]] + Unescape(data[i + 1..])
    ensures r >= 0 ==>
              && r < 0x11_0000
              && |Encode(r)| < consumed <= |data| - i
              && Unescape(data[i..]) == Encode(r) + Unescape(data[i + consumed..])
  {
    r, consumed := -1, 1;
    if IsUnicodeEscape(data, i) {
      r, consumed := DecodeUnicodeEscape(data[i..]);
    }
    assert data[i..][consumed..] == data[i + consumed..];
  }

  method PutByte(out: array<byte>, j: nat, b: byte) returns (next: nat)
    requires j < out.Length
    modifies out
    ensures next == j + 1 && out[..next] == old(out[..j]) + [b]
  {
    out[j] := b;
    next := j + 1;
  }

  method UnescapeUnicode(data: seq<byte>) returns (result: seq<byte>)
    ensures result == Unescape(data)
  {
    var n := |data|;
    var out := new byte[n];
    var i, j := 0, 0;
    ghost var written: seq<byte> := [];
    while i < n
      invariant 0 <= j <= i <= n
      invariant fresh(out) && out.Length == n && out[..j] == written
      invariant written + Unescape(data[i..]) == Unescape(data)
      decreases n - i
    {
      ghost var here := Unescape(data[i..]);
      if data[i] != BACKSLASH {
        var start := i;
        i, j := CopyPlain(data, start, out, j);
        written := Written(written, data[start..i], Unescape(data[i..]), here, Unescape(data));
        continue;
      }
      var r, consumed := EscapeHere(data, i);
      if r >= 0 {
        j := AppendRuneAt(out, j, r);
        i := i + consumed;
        written := Written(written, Encode(r), Unescape(data[i..]), here, Unescape(data));
        continue;
      }
      j := PutByte(out, j, data[i]);
      i := i + 1;
      written := Written(written, [data[i - 1]], Unescape(data[i..]), here, Unescape(data));
    }
    result := out[..j];
  }

  /** Moving the cursor over one piece keeps what is written plus what is left. */
  lemma Written(written: seq<byte>, piece: seq<byte>, rest: seq<byte>, here: seq<byte>, whole: seq<byte>)
    returns (now: seq<byte>)
    requires written + here == whole && here == piece + rest
    ensures now == written + piece && now + rest == whole
  {
    now := written + piece;
  }
}
