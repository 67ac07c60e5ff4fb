/** The visitor fingerprint: the first 16 hexadecimal characters of the SHA-256 digest of the
    UTF-8 encoding of `ip + "-" + ua`. The digest itself is a parameter. */
module Fingerprint {
  import opened Wrappers
  import opened Digits
  import opened Hex
  import opened JsString

  /** A SHA-256 digest (FIPS 180-4): always 32 bytes. */
  type Digest = d: seq<byte> | |d| == 32 witness seq(32, _ => 0)

  /** `TextEncoder.encode` of one Unicode scalar value: one byte below U+0080, otherwise a lead
      byte announcing the length followed by continuation bytes of six payload bits each. */
  function Utf8Char(c: char): (bs: seq<byte>)
    ensures 1 <= |bs| <= 4
    ensures c as int < 0x80 <==> |bs| == 1
    ensures |bs| == 1 ==> bs[0] == c as int
    ensures |bs| == 2 <==> 0x80 <= c as int < 0x800
    ensures |bs| == 3 <==> 0x800 <= c as int < 0x10000
    ensures |bs| == 2 ==> 0xC0 <= bs[0] <= 0xDF
    ensures |bs| == 3 ==> 0xE0 <= bs[0] <= 0xEF
    ensures |bs| == 4 ==> 0xF0 <= bs[0] <= 0xF4
    ensures forall i :: 1 <= i < |bs| ==> 0x80 <= bs[i] <= 0xBF
  {
    var cp := c as int;
    if cp < 0x80 then [cp]
    else if cp < 0x800 then [0xC0 + cp / 0x40, 0x80 + cp % 0x40]
    else if cp < 0x10000 then [0xE0 + cp / 0x1000, 0x80 + (cp / 0x40) % 0x40, 0x80 + cp % 0x40]
    else [0xF0 + cp / 0x40000, 0x80 + (cp / 0x1000) % 0x40, 0x80 + (cp / 0x40) % 0x40, 0x80 + cp % 0x40]
  }

  /** `TextEncoder.encode`: the UTF-8 bytes of a string. */
  function Utf8(s: string): (bs: seq<byte>)
    ensures |s| <= |bs| <= 4 * |s|
  {
    if |s| == 0 then [] else Utf8Char(s[0]) + Utf8(s[1..])
  }

  /** How many bytes the character led by `lead` takes; 0 for a byte that cannot lead one. */
  function Utf8Width(lead: byte): nat {
    if lead < 0x80 then 1
    else if 0xC0 <= lead <= 0xDF then 2
    else if 0xE0 <= lead <= 0xEF then 3
    else if 0xF0 <= lead <= 0xF7 then 4
    else 0
  }

  /** The code point of one encoded character: the lead byte's payload, then six bits per
      continuation byte. */
  function CodePoint(bs: seq<byte>): int
    requires 1 <= |bs| <= 4
  {
    var b := seq(|bs|, i requires 0 <= i < |bs| => bs[i] as int);
    if |b| == 1 then b[0]
    else if |b| == 2 then (b[0] - 0xC0) * 0x40 + (b[1] - 0x80)
    else if |b| == 3 then (b[0] - 0xE0) * 0x1000 + (b[1] - 0x80) * 0x40 + (b[2] - 0x80)
    else (b[0] - 0xF0) * 0x40000 + (b[1] - 0x80) * 0x1000 + (b[2] - 0x80) * 0x40 + (b[3] - 0x80)
  }

  /** UTF-8 decoding to code points; `None` when a byte cannot lead a character or a character is
      cut off at the end. */
  function Utf8Decode(bs: seq<byte>): Option<seq<int>>
    decreases |bs|
  {
    if |bs| == 0 then Some([])
    else
      var w := Utf8Width(bs[0]);
      if w == 0 || |bs| < w then None
      else
        match Utf8Decode(bs[w..])
        case None => None
        case Some(rest) => Some([CodePoint(bs[..w])] + rest)
  }

  /** The code points of a string. */
  function CodePoints(s: string): seq<int> {
    if |s| == 0 then [] else [s[0] as int] + CodePoints(s[1..])
  }

  /** One encoded character announces its own length and carries its code point. */
  lemma Utf8CharDecodes(c: char)
    ensures Utf8Width(Utf8Char(c)[0]) == |Utf8Char(c)|
    ensures CodePoint(Utf8Char(c)) == c as int
  {
    var cp := c as int;
    if cp >= 0x10000 {
      var bs := Utf8Char(c);
      assert bs[1] - 0x80 == (cp / 0x1000) % 0x40;
      assert bs[2] - 0x80 == (cp / 0x40) % 0x40;
      assert (cp / 0x40000) * 0x40 + (cp / 0x1000) % 0x40 == cp / 0x1000;
      assert (cp / 0x1000) * 0x40 + (cp / 0x40) % 0x40 == cp / 0x40;
    } else if cp >= 0x800 {
      assert (cp / 0x1000) * 0x40 + (cp / 0x40) % 0x40 == cp / 0x40;
    }
  }

  /** Decoding the encoding of a string gives back its code points: nothing is lost. */
  lemma {:induction false} Utf8RoundTrip(s: string)
    ensures Utf8Decode(Utf8(s)) == Some(CodePoints(s))
  {
    if |s| > 0 {
      var p := Utf8Char(s[0]);
      var t := Utf8(s[1..]);
      Utf8CharDecodes(s[0]);
      Utf8RoundTrip(s[1..]);
      assert (p + t)[0] == p[0];
      assert (p + t)[..|p|] == p && (p + t)[|p|..] == t;
    }
  }

  /** Different strings are hashed as different byte sequences. */
  lemma Utf8Injective(s: string, t: string)
    requires Utf8(s) == Utf8(t)
    ensures s == t
  {
    Utf8RoundTrip(s);
    Utf8RoundTrip(t);
    CodePointsInjective(s, t);
  }

  lemma {:induction false} CodePointsInjective(s: string, t: string)
    requires CodePoints(s) == CodePoints(t)
    ensures s == t
  {
    if |s| > 0 && |t| > 0 {
      assert CodePoints(s)[0] == CodePoints(t)[0];
      assert CodePoints(s)[1..] == CodePoints(s[1..]);
      assert CodePoints(t)[1..] == CodePoints(t[1..]);
      CodePointsInjective(s[1..], t[1..]);
      assert s == [s[0]] + s[1..];
      assert t == [t[0]] + t[1..];
    }
  }

  /** The text that is hashed: the IP, a hyphen, the user agent. */
  function FingerprintInput(ip: string, ua: string): string {
    ip + "-" + ua
  }

  /** `generateFingerprint(ip, ua)`: render all 32 digest bytes as hex, keep the first 16 characters.
      The result is the hex rendering of the first 8 digest bytes, and those bytes can be read back. */
  function GenerateFingerprint(ip: string, ua: string, sha256: seq<byte> -> Digest): (fp: string)
    ensures |fp| == 16
    ensures forall j :: 0 <= j < |fp| ==> IsLowerHex(fp[j])
    ensures fp == HexJoin(sha256(Utf8(FingerprintInput(ip, ua)))[..8])
    ensures Unhex(fp) == sha256(Utf8(FingerprintInput(ip, ua)))[..8]
  {
    var hash := sha256(Utf8(FingerprintInput(ip, ua)));
    var full := HexJoin(hash);
    HexJoinPrefix(hash, 8);
    HexJoinLowerHex(hash[..8]);
    UnhexHexJoin(hash[..8]);
    JsSubstring(full, 0, 16)
  }

  /** Only the joined text is hashed, so a hyphen can move between the IP and the user agent
      without changing the fingerprint. */
  lemma SeparatorAmbiguity(ip: string, mid: string, ua: string, sha256: seq<byte> -> Digest)
    ensures GenerateFingerprint(ip + "-" + mid, ua, sha256) == GenerateFingerprint(ip, mid + "-" + ua, sha256)
  {
    assert FingerprintInput(ip + "-" + mid, ua) == FingerprintInput(ip, mid + "-" + ua);
  }
}
