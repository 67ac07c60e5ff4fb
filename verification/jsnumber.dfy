/** The two number/text conversions the program relies on: `parseInt(text)` and `String(integer)`. */
module JsNumber {
  import opened Digits

  /** A JavaScript number as far as this model needs one: an integer, or NaN. */
  datatype Num = Int(i: int) | NaN

  /** `Number.MAX_SAFE_INTEGER`, 2^53 - 1: up to here a JavaScript number holds every integer exactly. */
  const MaxSafeInteger: int := 0x1F_FFFF_FFFF_FFFF

  /** The characters `parseInt` skips before the number: white space and line terminators. */
  predicate IsJsSpace(c: char) {
    || c == '\t' || c == '\n' || c == '\U{B}' || c == '\U{C}' || c == '\r' || c == ' '
    || c == '\U{A0}' || c == '\U{1680}' || ('\U{2000}' <= c <= '\U{200A}')
    || c == '\U{2028}' || c == '\U{2029}' || c == '\U{202F}' || c == '\U{205F}'
    || c == '\U{3000}' || c == '\U{FEFF}'
  }

  /** Number of leading white-space characters of `s`. */
  function SpaceRun(s: string): (n: nat)
    ensures n <= |s|
    ensures n < |s| ==> !IsJsSpace(s[n])
  {
    if |s| == 0 || !IsJsSpace(s[0]) then 0 else 1 + SpaceRun(s[1..])
  }

  /** `parseInt(s)` with no radix argument: skip white space, read an optional sign, then a
      `0x`/`0X` prefix selects radix 16, otherwise radix 10; the longest digit run is the
      number, and no digit at all gives NaN. */
  function ParseInt(s: string): (r: Num)
    ensures r.NaN? <==> Run(Unsigned(s)[Prefix(s)..], Radix(s)) == 0
  {
    var u := Unsigned(s)[Prefix(s)..];
    var n := Run(u, Radix(s));
    if n == 0 then NaN
    else
      var v: int := Value(u[..n], Radix(s));
      Int(if Negative(s) then -v else v)
  }

  /** `s` after its leading white space. */
  function Trimmed(s: string): string {
    s[SpaceRun(s)..]
  }

  /** The trimmed text starts with a minus sign. */
  predicate Negative(s: string) {
    |Trimmed(s)| > 0 && Trimmed(s)[0] == '-'
  }

  /** The trimmed text without its sign, if it has one. */
  function Unsigned(s: string): string {
    var t := Trimmed(s);
    if |t| > 0 && (t[0] == '-' || t[0] == '+') then t[1..] else t
  }

  /** The unsigned text starts with a hexadecimal prefix. */
  predicate HexPrefixed(s: string) {
    var u := Unsigned(s);
    |u| >= 2 && u[0] == '0' && (u[1] == 'x' || u[1] == 'X')
  }

  function Radix(s: string): nat {
    if HexPrefixed(s) then 16 else 10
  }

  function Prefix(s: string): nat {
    if HexPrefixed(s) then 2 else 0
  }

  /** `String(k)` for an integer `k`: a minus sign for negatives, then the decimal digits. */
  function IntToString(k: int): (s: string)
    ensures |s| >= 1
  {
    if k < 0 then "-" + Dec(-k) else Dec(k)
  }

  /** A text that starts with a decimal digit, and has no `x` after a leading zero, is read in
      radix 10 from its first character. */
  lemma PlainDigits(s: string)
    requires |s| >= 1 && '0' <= s[0] <= '9'
    requires |s| >= 2 ==> s[1] != 'x' && s[1] != 'X'
    ensures ParseInt(s) == Int(Value(s[..Run(s, 10)], 10))
  {
    assert !IsJsSpace(s[0]);
    assert SpaceRun(s) == 0;
    assert Trimmed(s) == s;
    assert !Negative(s);
    assert Unsigned(s) == s;
    assert !HexPrefixed(s);
    assert Unsigned(s)[Prefix(s)..] == s;
    assert IsDigit(s[0], 10);
  }

  /** A text made only of decimal digits parses to its positional value. */
  lemma ParseIntDigits(d: string)
    requires |d| >= 1 && AllDigits(d, 10)
    requires |d| >= 2 ==> d[1] != 'x' && d[1] != 'X'
    ensures ParseInt(d) == Int(Value(d, 10))
  {
    assert IsDigit(d[0], 10);
    PlainDigits(d);
    RunOfDigits(d, "", 10);
    assert d + "" == d;
  }

  /** A minus sign in front of a text that starts with a digit negates what it reads as. */
  lemma NegatedDigits(d: string)
    requires |d| >= 1 && '0' <= d[0] <= '9'
    ensures ParseInt(d).Int? ==> ParseInt("-" + d) == Int(-ParseInt(d).i)
  {
    var s := "-" + d;
    assert s[1..] == d;
    assert !IsJsSpace(s[0]) && !IsJsSpace(d[0]);
    assert SpaceRun(s) == 0 && SpaceRun(d) == 0;
    assert Trimmed(s) == s && Trimmed(d) == d;
    assert Negative(s) && !Negative(d);
    assert Unsigned(s) == d == Unsigned(d);
  }

  /** `parseInt("NaN")` is NaN: the text has no digit. */
  lemma ParseIntNaN()
    ensures ParseInt("NaN").NaN?
  {
    var t := "NaN";
    assert !IsJsSpace(t[0]) && SpaceRun(t) == 0;
    assert Trimmed(t) == t && Unsigned(t) == t && !HexPrefixed(t);
    assert !IsDigit(t[0], 10);
  }

  /** `parseInt` reads back exactly the integer that `String` wrote. */
  lemma ParseIntToString(k: int)
    ensures ParseInt(IntToString(k)) == Int(k)
  {
    var m: nat := if k < 0 then -k else k;
    var d := Dec(m);
    assert IsDigit(d[0], 10);
    assert |d| >= 2 ==> IsDigit(d[1], 10);
    ParseIntDigits(d);
    DecValue(m);
    if k < 0 {
      NegatedDigits(d);
    }
  }
}
