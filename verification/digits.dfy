/** Digit characters, maximal digit runs and positional values in radix 10 and 16. */
module Digits {

  /** The lower-case digit for a value below 16, as JavaScript prints digits. */
  function DigitChar(d: nat): (c: char)
    requires d < 16
    ensures IsDigit(c, 16) && CharValue(c) == d
    ensures d < 10 <==> IsDigit(c, 10)
    ensures IsLowerHex(c)
  {
    if d < 10 then (48 + d) as char else (87 + d) as char
  }

  /** `c` is one of `0-9a-f`. */
  predicate IsLowerHex(c: char) {
    ('0' <= c <= '9') || ('a' <= c <= 'f')
  }

  /** `c` is a digit in the given radix (10 or 16; hexadecimal digits in either case). */
  predicate IsDigit(c: char, radix: nat) {
    if radix == 16 then ('0' <= c <= '9') || ('a' <= c <= 'f') || ('A' <= c <= 'F')
    else '0' <= c <= '9'
  }

  /** The value of a digit character (hexadecimal letters in either case). */
  function CharValue(c: char): (v: nat)
    ensures IsDigit(c, 10) ==> v < 10
    ensures IsDigit(c, 16) ==> v < 16
  {
    if '0' <= c <= '9' then c as nat - 48
    else if 'a' <= c <= 'f' then c as nat - 87
    else if 'A' <= c <= 'F' then c as nat - 55
    else 0
  }

  /** Every character of `s` is a digit in `radix`. */
  predicate AllDigits(s: string, radix: nat) {
    forall i :: 0 <= i < |s| ==> IsDigit(s[i], radix)
  }

  /** Length of the longest prefix of `s` made of digits in `radix`. */
  function Run(s: string, radix: nat): (n: nat)
    ensures n <= |s|
    ensures AllDigits(s[..n], radix)
    ensures n < |s| ==> !IsDigit(s[n], radix)
  {
    if |s| == 0 || !IsDigit(s[0], radix) then 0
    else
      var n := 1 + Run(s[1..], radix);
      assert s[..n] == [s[0]] + s[1..][..n - 1];
      n
  }

  /** Positional value of the digit string `s` in `radix`, most significant digit first. */
  function Value(s: string, radix: nat): nat
  {
    if |s| == 0 then 0 else Value(s[..|s| - 1], radix) * radix + CharValue(s[|s| - 1])
  }

  /** The shortest decimal rendering of `n`: no sign, no leading zero. */
  function Dec(n: nat): (s: string)
    ensures |s| >= 1 && AllDigits(s, 10)
    ensures s[0] == '0' ==> n == 0 && |s| == 1
    decreases n
  {
    if n < 10 then [DigitChar(n)] else Dec(n / 10) + [DigitChar(n % 10)]
  }

  /** Reading back the decimal rendering gives the number: `Dec` and `Value` are inverse. */
  lemma {:induction false} DecValue(n: nat)
    ensures Value(Dec(n), 10) == n
    decreases n
  {
    if n >= 10 {
      var s := Dec(n);
      assert s[..|s| - 1] == Dec(n / 10);
      DecValue(n / 10);
    }
  }

  /** The digit run of a digit string followed by a non-digit is exactly that digit string. */
  lemma {:induction false} RunOfDigits(d: string, rest: string, radix: nat)
    requires AllDigits(d, radix)
    requires |rest| == 0 || !IsDigit(rest[0], radix)
    ensures Run(d + rest, radix) == |d|
    ensures (d + rest)[..|d|] == d
  {
    if |d| > 0 {
      assert (d + rest)[1..] == d[1..] + rest;
      RunOfDigits(d[1..], rest, radix);
    }
  }

  function Pow(b: nat, e: nat): (p: nat)
    ensures b >= 1 ==> p >= 1
  {
    if e == 0 then 1 else b * Pow(b, e - 1)
  }

  /** A digit string of length `n` in `radix` is worth less than `radix^n`. */
  lemma {:induction false} ValueBound(s: string, radix: nat)
    requires radix == 10 || radix == 16
    requires AllDigits(s, radix)
    ensures Value(s, radix) < Pow(radix, |s|)
  {
    if |s| > 0 {
      var init := s[..|s| - 1];
      ValueBound(init, radix);
      var v := Value(init, radix);
      var p := Pow(radix, |init|);
      assert v <= p - 1;
      assert v * radix <= (p - 1) * radix;
      assert CharValue(s[|s| - 1]) < radix;
    }
  }
}
