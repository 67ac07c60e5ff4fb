/** Bytes and their lower-case hexadecimal rendering, built the way the fingerprint code builds it:
    `b.toString(16).padStart(2, '0')` per byte, joined with no separator. */
module Hex {
  import opened Digits

  type byte = x: int | 0 <= x < 256

  /** `b.toString(16)`: the shortest lower-case hexadecimal rendering (one digit below 16). */
  function ToString16(b: byte): (s: string)
    ensures 1 <= |s| <= 2
    ensures |s| == 1 <==> b < 16
    ensures forall j :: 0 <= j < |s| ==> IsLowerHex(s[j])
    ensures Value(s, 16) == b
  {
    if b < 16 then
      var s := [DigitChar(b)];
      assert s[..0] == [];
      s
    else
      var s := [DigitChar(b / 16), DigitChar(b % 16)];
      assert s[..1] == [DigitChar(b / 16)] && s[..1][..0] == [];
      assert Value(s[..1], 16) == b / 16;
      s
  }

  /** `s.padStart(len, [fill])`: `fill` repeated on the left up to length `len`. */
  function PadStart(s: string, len: nat, fill: char): (r: string)
    ensures |r| == if |s| >= len then |s| else len
    ensures r[|r| - |s|..] == s
    ensures forall i :: 0 <= i < |r| - |s| ==> r[i] == fill
  {
    if |s| >= len then s else seq(len - |s|, _ => fill) + s
  }

  /** The two-character rendering of one byte: high nibble digit, then low nibble digit. */
  function ByteHex(b: byte): (r: string)
    ensures r == [DigitChar(b / 16), DigitChar(b % 16)]
  {
    PadStart(ToString16(b), 2, '0')
  }

  /** `bytes.map(ByteHex).join('')`. */
  function HexJoin(bs: seq<byte>): (r: string)
    ensures |r| == 2 * |bs|
    ensures forall i :: 0 <= i < |bs| ==> r[2 * i] == DigitChar(bs[i] / 16) && r[2 * i + 1] == DigitChar(bs[i] % 16)
  {
    if |bs| == 0 then ""
    else
      var p := ByteHex(bs[0]);
      var t := HexJoin(bs[1..]);
      ShiftedPairs(bs, p, t);
      p + t
  }

  /** The pair at byte `i` of `p + t` is the pair at byte `i - 1` of `t`, for a two-character `p`. */
  lemma ShiftedPairs(bs: seq<byte>, p: string, t: string)
    requires |bs| > 0 && p == [DigitChar(bs[0] / 16), DigitChar(bs[0] % 16)]
    requires |t| == 2 * (|bs| - 1)
    requires forall i :: 0 <= i < |bs| - 1 ==> t[2 * i] == DigitChar(bs[1..][i] / 16) && t[2 * i + 1] == DigitChar(bs[1..][i] % 16)
    ensures forall i :: 0 <= i < |bs| ==> (p + t)[2 * i] == DigitChar(bs[i] / 16) && (p + t)[2 * i + 1] == DigitChar(bs[i] % 16)
  {
    forall i | 1 <= i < |bs|
      ensures (p + t)[2 * i] == DigitChar(bs[i] / 16) && (p + t)[2 * i + 1] == DigitChar(bs[i] % 16)
    {
      var j := i - 1;
      assert bs[1..][j] == bs[i];
      assert (p + t)[2 * i] == t[2 * j];
      assert (p + t)[2 * i + 1] == t[2 * j + 1];
    }
  }

  /** The rendering uses only the characters `0-9a-f`. */
  lemma {:induction false} HexJoinLowerHex(bs: seq<byte>)
    ensures forall j :: 0 <= j < |HexJoin(bs)| ==> IsLowerHex(HexJoin(bs)[j])
  {
    if |bs| > 0 {
      var p := ByteHex(bs[0]);
      var t := HexJoin(bs[1..]);
      HexJoinLowerHex(bs[1..]);
      assert IsLowerHex(p[0]) && IsLowerHex(p[1]);
      LowerHexConcat(p, t);
    }
  }

  lemma LowerHexConcat(p: string, t: string)
    requires forall j :: 0 <= j < |p| ==> IsLowerHex(p[j])
    requires forall j :: 0 <= j < |t| ==> IsLowerHex(t[j])
    ensures forall j :: 0 <= j < |p + t| ==> IsLowerHex((p + t)[j])
  {
    forall j | 0 <= j < |p + t|
      ensures IsLowerHex((p + t)[j])
    {
      if j >= |p| {
        assert (p + t)[j] == t[j - |p|];
      }
    }
  }

  /** Rendering distributes over concatenation of byte sequences. */
  lemma {:induction false} HexJoinAppend(a: seq<byte>, b: seq<byte>)
    ensures HexJoin(a + b) == HexJoin(a) + HexJoin(b)
  {
    if |a| == 0 {
      assert a + b == b;
    } else {
      assert (a + b)[1..] == a[1..] + b;
      HexJoinAppend(a[1..], b);
    }
  }

  /** The first `2k` characters of the rendering are the rendering of the first `k` bytes. */
  lemma HexJoinPrefix(bs: seq<byte>, k: nat)
    requires k <= |bs|
    ensures HexJoin(bs)[..2 * k] == HexJoin(bs[..k])
  {
    assert bs == bs[..k] + bs[k..];
    HexJoinAppend(bs[..k], bs[k..]);
  }

  /** Reads pairs of hexadecimal digits back into bytes; a trailing odd character is ignored. */
  function Unhex(s: string): (bs: seq<byte>)
    ensures |bs| == |s| / 2
  {
    if |s| < 2 then [] else [CharValue(s[0]) * 16 + CharValue(s[1])] + Unhex(s[2..])
  }

  /** The rendering loses nothing: `Unhex` recovers the bytes. */
  lemma {:induction false} UnhexHexJoin(bs: seq<byte>)
    ensures Unhex(HexJoin(bs)) == bs
  {
    if |bs| > 0 {
      var b := bs[0];
      var p := ByteHex(b);
      var t := HexJoin(bs[1..]);
      var s := p + t;
      assert s == HexJoin(bs);
      assert s[0] == DigitChar(b / 16) && s[1] == DigitChar(b % 16);
      assert CharValue(s[0]) * 16 + CharValue(s[1]) == b;
      assert s[2..] == t;
      UnhexHexJoin(bs[1..]);
      assert Unhex(s) == [b] + Unhex(t);
    }
  }
}
