/** The stored visitor record and its JSON text. `Stringify` produces what `JSON.stringify` produces
    for the record's shape `{ip, ua, first, count[, last]}`; `Parse` reads that shape back the way
    `JSON.parse` does, and rejects every other text. */
module RecordJson {
  import opened Wrappers
  import opened Digits

  /** One visitor, keyed in the store by its fingerprint. `last` is absent until the second visit. */
  datatype VisitorRecord = VisitorRecord(ip: string, ua: string, first: nat, count: nat, last: Option<nat>)

  /** Code points JavaScript strings may hold but Dafny characters cannot. */
  predicate IsSurrogate(v: nat) {
    0xD800 <= v <= 0xDFFF
  }

  /** How `JSON.stringify` writes one character inside a string literal. */
  function EscapeChar(c: char): (e: string)
    ensures 1 <= |e| <= 6
  {
    if c == '"' then "\\\""
    else if c == '\\' then "\\\\"
    else if c == '\U{8}' then "\\b"
    else if c == '\t' then "\\t"
    else if c == '\n' then "\\n"
    else if c == '\U{C}' then "\\f"
    else if c == '\r' then "\\r"
    else if (c as int) < 0x20 then "\\u00" + [DigitChar(c as int / 16), DigitChar(c as int % 16)]
    else [c]
  }

  function Escape(s: string): string {
    if |s| == 0 then "" else EscapeChar(s[0]) + Escape(s[1..])
  }

  /** A JSON string literal. */
  function Quote(s: string): string {
    "\"" + Escape(s) + "\""
  }

  /** The `last` member, present only once the record has been seen again. */
  function LastMember(last: Option<nat>): string {
    match last
    case None => ""
    case Some(t) => ",\"last\":" + Dec(t)
  }

  /** `JSON.stringify(record)`, members in insertion order: ip, ua, first, count, then last. */
  function Stringify(r: VisitorRecord): (s: string)
    ensures |s| > 0 && s[0] == '{'
  {
    "{\"ip\":" + (Quote(r.ip) + (",\"ua\":" + (Quote(r.ua) + (",\"first\":" + (Dec(r.first)
      + (",\"count\":" + (Dec(r.count) + (LastMember(r.last) + "}"))))))))
  }

  /** The text after the literal `lit`, if the text starts with it. */
  function Expect(lit: string, t: string): (r: Option<string>)
    ensures r.Some? <==> lit <= t
    ensures r.Some? ==> t == lit + r.value
  {
    if lit <= t then Some(t[|lit|..]) else None
  }

  /** The character a simple (one-letter) escape stands for. */
  function SimpleEscape(e: char): Option<char> {
    if e == '"' then Some('"')
    else if e == '\\' then Some('\\')
    else if e == '/' then Some('/')
    else if e == 'b' then Some('\U{8}')
    else if e == 'f' then Some('\U{C}')
    else if e == 'n' then Some('\n')
    else if e == 'r' then Some('\r')
    else if e == 't' then Some('\t')
    else None
  }

  /** The body of a string literal up to its closing quote: the decoded text and what follows the
      quote. Raw control characters and unknown escapes are rejected, as `JSON.parse` rejects them. */
  function ParseChars(t: string): Option<(string, string)>
    decreases |t|
  {
    if |t| == 0 then None
    else if t[0] == '"' then Some(("", t[1..]))
    else if t[0] == '\\' then
      if |t| < 2 then None
      else if SimpleEscape(t[1]).Some? then Prepend(SimpleEscape(t[1]).value, ParseChars(t[2..]))
      else if t[1] == 'u' && |t| >= 6 && AllDigits(t[2..6], 16) && !IsSurrogate(Value(t[2..6], 16)) then
        ValueBound(t[2..6], 16);
        assert Pow(16, 4) == 0x10000;
        Prepend(Value(t[2..6], 16) as char, ParseChars(t[6..]))
      else None
    else if (t[0] as int) < 0x20 then None
    else Prepend(t[0], ParseChars(t[1..]))
  }

  function Prepend(c: char, p: Option<(string, string)>): Option<(string, string)> {
    match p
    case None => None
    case Some((s, rest)) => Some(([c] + s, rest))
  }

  /** A string literal at the start of `t`: its text and what follows it. */
  function ParseString(t: string): Option<(string, string)> {
    if |t| > 0 && t[0] == '"' then ParseChars(t[1..]) else None
  }

  /** A non-negative integer literal at the start of `t` (no leading zeros, as in JSON). */
  function ParseNat(t: string): Option<(nat, string)> {
    var n := Run(t, 10);
    if n == 0 || (t[0] == '0' && n > 1) then None else Some((Value(t[..n], 10), t[n..]))
  }

  /** `JSON.parse(text)` for the record shape, read member by member; a record text opens with
      its `ip` member. */
  function Parse(s: string): (r: Option<VisitorRecord>)
    ensures r.Some? ==> "{\"ip\":" <= s
  {
    var t :- Expect("{\"ip\":", s);
    ParseIp(t)
  }

  function ParseIp(t: string): Option<VisitorRecord> {
    var ip :- ParseString(t);
    var t' :- Expect(",\"ua\":", ip.1);
    ParseUa(ip.0, t')
  }

  function ParseUa(ip: string, t: string): Option<VisitorRecord> {
    var ua :- ParseString(t);
    var t' :- Expect(",\"first\":", ua.1);
    ParseFirst(ip, ua.0, t')
  }

  function ParseFirst(ip: string, ua: string, t: string): Option<VisitorRecord> {
    var first :- ParseNat(t);
    var t' :- Expect(",\"count\":", first.1);
    ParseCount(ip, ua, first.0, t')
  }

  function ParseCount(ip: string, ua: string, first: nat, t: string): Option<VisitorRecord> {
    var count :- ParseNat(t);
    ParseEnd(VisitorRecord(ip, ua, first, count.0, None), count.1)
  }

  /** Either the closing brace, or the `last` member and then the closing brace. */
  function ParseEnd(r: VisitorRecord, t: string): Option<VisitorRecord> {
    if t == "}" then Some(r)
    else
      var t' :- Expect(",\"last\":", t);
      var last :- ParseNat(t');
      if last.1 == "}" then Some(r.(last := Some(last.0))) else None
  }

  /** The empty text is not a record: a record text is never falsy. */
  lemma ParseNonEmpty(s: string)
    requires Parse(s).Some?
    ensures s != ""
  {
  }

  lemma HexEscapeValue(x: char, y: char)
    ensures Value(['0', '0', x, y], 16) == CharValue(x) * 16 + CharValue(y)
  {
    var h := ['0', '0', x, y];
    assert h[..3] == ['0', '0', x];
    assert h[..3][..2] == ['0', '0'];
    assert ['0', '0'][..1] == ['0'];
    assert ['0'][..0] == [];
    assert Value(['0'], 16) == 0;
    assert Value(['0', '0'], 16) == 0;
    assert Value(['0', '0', x], 16) == CharValue(x);
  }

  /** One escaped character is read back as that character. */
  lemma ParseEscapeChar(c: char, tail: string)
    ensures ParseChars(EscapeChar(c) + tail) == Prepend(c, ParseChars(tail))
  {
    var t := EscapeChar(c) + tail;
    if c == '"' || c == '\\' || c == '\U{8}' || c == '\t' || c == '\n' || c == '\U{C}' || c == '\r' {
      assert t[2..] == tail;
    } else if (c as int) < 0x20 {
      var v := c as int;
      var hex := t[2..6];
      assert hex == ['0', '0', DigitChar(v / 16), DigitChar(v % 16)];
      assert t[6..] == tail;
      HexEscapeValue(DigitChar(v / 16), DigitChar(v % 16));
    } else {
      assert t[1..] == tail;
    }
  }

  /** A string literal is read back as the string that was quoted, leaving what follows. */
  lemma {:induction false} ParseEscape(s: string, rest: string)
    ensures ParseChars(Escape(s) + "\"" + rest) == Some((s, rest))
  {
    if |s| == 0 {
      assert Escape(s) + "\"" + rest == "\"" + rest;
    } else {
      assert Escape(s) + "\"" + rest == EscapeChar(s[0]) + (Escape(s[1..]) + "\"" + rest);
      ParseEscapeChar(s[0], Escape(s[1..]) + "\"" + rest);
      ParseEscape(s[1..], rest);
      assert [s[0]] + s[1..] == s;
    }
  }

  lemma QuoteRoundTrip(s: string, rest: string)
    ensures ParseString(Quote(s) + rest) == Some((s, rest))
  {
    var t := Quote(s) + rest;
    assert t[1..] == Escape(s) + "\"" + rest;
    ParseEscape(s, rest);
  }

  /** A decimal literal is read back as its number, up to the first non-digit. */
  lemma DecRoundTrip(n: nat, rest: string)
    requires |rest| == 0 || !IsDigit(rest[0], 10)
    ensures ParseNat(Dec(n) + rest) == Some((n, rest))
  {
    var d := Dec(n);
    RunOfDigits(d, rest, 10);
    assert (d + rest)[|d|..] == rest;
    DecValue(n);
  }

  lemma ParseEndRoundTrip(r: VisitorRecord, last: Option<nat>)
    requires r.last == None
    ensures ParseEnd(r, LastMember(last) + "}") == Some(r.(last := last))
  {
    match last
    case None =>
    case Some(t) =>
      var tl := Dec(t) + "}";
      assert LastMember(last) + "}" == ",\"last\":" + tl;
      DecRoundTrip(t, "}");
  }

  lemma ParseCountRoundTrip(r: VisitorRecord)
    ensures ParseCount(r.ip, r.ua, r.first, Dec(r.count) + (LastMember(r.last) + "}")) == Some(r)
  {
    var end := LastMember(r.last) + "}";
    DecRoundTrip(r.count, end);
    ParseEndRoundTrip(VisitorRecord(r.ip, r.ua, r.first, r.count, None), r.last);
  }

  lemma ParseFirstRoundTrip(r: VisitorRecord)
    ensures ParseFirst(r.ip, r.ua, Dec(r.first) + (",\"count\":" + (Dec(r.count) + (LastMember(r.last) + "}")))) == Some(r)
  {
    var t3 := Dec(r.count) + (LastMember(r.last) + "}");
    DecRoundTrip(r.first, ",\"count\":" + t3);
    assert Expect(",\"count\":", ",\"count\":" + t3) == Some(t3);
    ParseCountRoundTrip(r);
  }

  lemma ParseUaRoundTrip(r: VisitorRecord)
    ensures ParseUa(r.ip, Quote(r.ua) + (",\"first\":" + (Dec(r.first)
      + (",\"count\":" + (Dec(r.count) + (LastMember(r.last) + "}")))))) == Some(r)
  {
    var t2 := Dec(r.first) + (",\"count\":" + (Dec(r.count) + (LastMember(r.last) + "}")));
    QuoteRoundTrip(r.ua, ",\"first\":" + t2);
    assert Expect(",\"first\":", ",\"first\":" + t2) == Some(t2);
    ParseFirstRoundTrip(r);
  }

  /** `JSON.parse(JSON.stringify(r))` gives back `r`. */
  lemma ParseStringify(r: VisitorRecord)
    ensures Parse(Stringify(r)) == Some(r)
  {
    var t1 := Quote(r.ua) + (",\"first\":" + (Dec(r.first)
      + (",\"count\":" + (Dec(r.count) + (LastMember(r.last) + "}")))));
    var t0 := Quote(r.ip) + (",\"ua\":" + t1);
    assert Stringify(r) == "{\"ip\":" + t0;
    assert Expect("{\"ip\":", Stringify(r)) == Some(t0);
    QuoteRoundTrip(r.ip, ",\"ua\":" + t1);
    assert Expect(",\"ua\":", ",\"ua\":" + t1) == Some(t1);
    ParseUaRoundTrip(r);
  }
}
