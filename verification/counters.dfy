/** The two running counters `total_visitors` and `total_visits`: how they are written and read. */
module Counters {
  import opened Wrappers
  import opened Digits
  import opened JsNumber
  import opened Kv

  /** How a counter is advanced: the text written back, given the text the counter holds now.
      `Concatenated` is the program's own step, `Incremented` the evidently intended one. */
  type CounterStep = Option<string> -> string

  /** `get(k) || '0'`: the counter text, with null and the empty text reading as "0". */
  function TextOrZero(v: Option<string>): (t: string)
    ensures !Truthy(v) ==> t == "0"
    ensures Truthy(v) ==> t == v.value
  {
    if Truthy(v) then v.value else "0"
  }

  /** `parseInt(get(k) || '0')`: the number a counter shows; an absent counter reads as 0. */
  function ReadCounter(v: Option<string>): (n: Num)
    ensures !Truthy(v) ==> n == Int(0)
  {
    ParseIntDigits("0");
    ParseInt(TextOrZero(v))
  }

  /** `(get(k) || 0) + 1` as the program evaluates it: an absent or empty counter becomes the number
      1 (which the store keeps as the text "1"), and any other text gets "1" appended. */
  function Concatenated(prev: Option<string>): (r: string)
    ensures !Truthy(prev) ==> r == "1"
    ensures Truthy(prev) ==> |r| == |prev.value| + 1 && prev.value <= r && r[|r| - 1] == '1'
  {
    if Truthy(prev) then prev.value + "1" else "1"
  }

  /** The numeric increment: the decimal text of one more than the counter reads; NaN stays NaN. */
  function Incremented(prev: Option<string>): string {
    match ReadCounter(prev)
    case Int(i) => IntToString(i + 1)
    case NaN => "NaN"
  }

  /** The counter after `n` bumps of an absent counter. */
  function Iterate(bump: CounterStep, n: nat): Option<string> {
    if n == 0 then None else Some(bump(Iterate(bump, n - 1)))
  }

  /** `1`, `11`, `111`, ...: the number made of `n` decimal ones. */
  function Repunit(n: nat): nat {
    if n == 0 then 0 else Repunit(n - 1) * 10 + 1
  }

  function Ones(n: nat): string {
    seq(n, _ => '1')
  }

  /** As written, `n` bumps leave the text of `n` ones. */
  lemma {:induction false} AsWrittenText(n: nat)
    requires n >= 1
    ensures Iterate(Concatenated, n) == Some(Ones(n))
  {
    if n > 1 {
      AsWrittenText(n - 1);
      assert |Ones(n - 1)| == n - 1;
      assert Ones(n - 1) + "1" == Ones(n);
    } else {
      assert Ones(1) == "1";
    }
  }

  /** ... which reads as the repunit of `n`, a safe JavaScript integer only while `n <= 16`. */
  lemma AsWrittenRepunit(n: nat)
    requires n >= 1
    ensures Iterate(Concatenated, n) == Some(Ones(n))
    ensures ReadCounter(Iterate(Concatenated, n)) == Int(Repunit(n))
    ensures Repunit(n) <= MaxSafeInteger <==> n <= 16
  {
    RepunitSafe(n);
    AsWrittenText(n);
    var d := Ones(n);
    assert |d| == n && d != "";
    assert AllDigits(d, 10);
    assert n >= 2 ==> d[1] == '1';
    OnesValue(n);
    ParseIntDigits(d);
    ReadText(d);
  }

  lemma {:induction false} OnesValue(n: nat)
    ensures Value(Ones(n), 10) == Repunit(n)
  {
    if n > 0 {
      assert Ones(n)[..n - 1] == Ones(n - 1);
      OnesValue(n - 1);
    }
  }

  /** The program's counter shows 11 after two increments: the discrepancy in one input. */
  lemma AsWrittenTwoIncrementsReadEleven()
    ensures Iterate(Concatenated, 1) == Some("1") && ReadCounter(Some("1")) == Int(1)
    ensures Iterate(Concatenated, 2) == Some("11") && ReadCounter(Some("11")) == Int(11)
  {
    AsWrittenRepunit(1);
    AsWrittenRepunit(2);
    assert Ones(1) == "1" && Ones(2) == "11";
  }

  /** Past one increment the program's counter shows more than the number of increments. */
  lemma AsWrittenOvercounts(n: nat)
    requires n >= 2
    ensures ReadCounter(Iterate(Concatenated, n)).Int? && ReadCounter(Iterate(Concatenated, n)).i > n
  {
    AsWrittenRepunit(n);
    RepunitGrows(n);
  }

  /** The repunits up to 16 digits are safe integers; from 17 digits on they are not. */
  lemma RepunitSafe(n: nat)
    ensures Repunit(n) <= MaxSafeInteger <==> n <= 16
  {
    // The verifier unfolds `Repunit` on literals only a few levels at a time.
    assert Repunit(8) == 11111111;
    assert Repunit(12) == 111111111111;
    assert Repunit(16) == 1111111111111111;
    assert Repunit(17) == 11111111111111111;
    if n <= 16 {
      RepunitMonotone(n, 16);
    } else {
      RepunitMonotone(17, n);
    }
  }

  lemma {:induction false} RepunitMonotone(m: nat, n: nat)
    requires m <= n
    ensures Repunit(m) <= Repunit(n)
  {
    if m < n {
      RepunitMonotone(m, n - 1);
    }
  }

  lemma {:induction false} RepunitGrows(n: nat)
    requires n >= 2
    ensures Repunit(n) > n
  {
    if n > 2 {
      RepunitGrows(n - 1);
    }
  }

  /** A non-empty counter text reads as whatever `parseInt` makes of it. */
  lemma ReadText(t: string)
    requires t != ""
    ensures ReadCounter(Some(t)) == ParseInt(t)
  {
    assert Truthy(Some(t));
  }

  /** The intended increment: the counter reads one more than before (NaN stays NaN). */
  lemma NumericAddsOne(prev: Option<string>)
    ensures ReadCounter(prev).Int? ==> ReadCounter(Some(Incremented(prev))) == Int(ReadCounter(prev).i + 1)
    ensures ReadCounter(prev).NaN? ==> ReadCounter(Some(Incremented(prev))).NaN?
  {
    var b := Incremented(prev);
    match ReadCounter(prev)
    case Int(i) =>
      assert b == IntToString(i + 1);
      ParseIntToString(i + 1);
      ReadText(b);
    case NaN =>
      assert b == "NaN";
      ParseIntNaN();
      ReadText(b);
  }

  /** With the intended increment, `n` bumps of an absent counter hold the decimal text of `n`. */
  lemma {:induction false} NumericText(n: nat)
    requires n >= 1
    ensures Iterate(Incremented, n) == Some(IntToString(n))
  {
    var p := Iterate(Incremented, n - 1);
    if n > 1 {
      NumericText(n - 1);
      ParseIntToString(n - 1);
      ReadText(IntToString(n - 1));
      assert ReadCounter(p) == Int(n - 1);
    } else {
      assert ReadCounter(p) == Int(0);
    }
    assert Incremented(p) == IntToString(n);
  }

  /** ... so they read exactly `n`. */
  lemma NumericCounts(n: nat)
    ensures ReadCounter(Iterate(Incremented, n)) == Int(n)
  {
    if n > 0 {
      NumericText(n);
      ParseIntToString(n);
      ReadText(IntToString(n));
    }
  }
}
