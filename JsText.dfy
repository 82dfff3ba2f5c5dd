/**
 * The few JavaScript string primitives the billing code leans on, stated
 * for ASCII text: `parseInt(s, 10)`, `String.prototype.trim`,
 * `toLowerCase`, and the decimal rendering of a natural number (the
 * inverse that `parseInt` is proved against).
 */
module JsText {

  /** The outcome of `parseInt`: a number, or NaN when no digit is found. */
  datatype ParsedInt = NaN | Num(n: int)

  predicate IsDigit(c: char) { '0' <= c <= '9' }

  predicate IsSpace(c: char) { c == ' ' || c == '\t' || c == '\n' || c == '\r' }

  predicate AllDigits(s: string) { forall i :: 0 <= i < |s| ==> IsDigit(s[i]) }

  /** Number of leading decimal digits of `s`. */
  function DigitRun(s: string): (k: nat)
    ensures k <= |s|
    ensures AllDigits(s[..k])
    ensures k < |s| ==> !IsDigit(s[k])
  {
    if s == [] || !IsDigit(s[0]) then 0
    else
      var k := 1 + DigitRun(s[1..]);
      assert s[..k] == [s[0]] + s[1..][..k - 1];
      k
  }

  lemma {:induction false} DigitRunAll(s: string)
    requires AllDigits(s)
    ensures DigitRun(s) == |s|
  {
    if s != [] {
      DigitRunAll(s[1..]);
    }
  }

  /** The value of a string of decimal digits, read left to right. */
  function DigitsValue(d: string): nat
    requires AllDigits(d)
  {
    if d == [] then 0
    else DigitsValue(d[..|d| - 1]) * 10 + (d[|d| - 1] as int - '0' as int)
  }

  /** Leading white space removed. */
  function TrimStart(s: string): string
  {
    if s != [] && IsSpace(s[0]) then TrimStart(s[1..]) else s
  }

  /** Trailing white space removed. */
  function TrimEnd(s: string): string
  {
    if s != [] && IsSpace(s[|s| - 1]) then TrimEnd(s[..|s| - 1]) else s
  }

  /** `String.prototype.trim` restricted to the white space `IsSpace` knows. */
  function Trim(s: string): string
  {
    TrimEnd(TrimStart(s))
  }

  lemma TrimKeepsInner(s: string)
    requires s != [] && !IsSpace(s[0]) && !IsSpace(s[|s| - 1])
    ensures Trim(s) == s
  {
  }

  /** `parseInt(s, 10)`: skip leading white space, take an optional sign,
      then the longest run of digits; no digit at all gives NaN. Anything
      after the digits (a decimal point, a second sign) is ignored. */
  function ParseInt(s: string): ParsedInt
  {
    var t := TrimStart(s);
    var negative := t != [] && t[0] == '-';
    var body := if t != [] && (t[0] == '-' || t[0] == '+') then t[1..] else t;
    var k := DigitRun(body);
    if k == 0 then NaN
    else
      var v: int := DigitsValue(body[..k]);
      if negative then Num(-v) else Num(v)
  }

  /** Decimal rendering of a natural number, most significant digit first. */
  function Decimal(n: nat): (d: string)
    ensures d != [] && AllDigits(d)
    decreases n
  {
    var digit := ('0' as int + n % 10) as char;
    if n < 10 then [digit] else Decimal(n / 10) + [digit]
  }

  lemma {:induction false} DecimalValue(n: nat)
    ensures DigitsValue(Decimal(n)) == n
    decreases n
  {
    var d := Decimal(n);
    assert d[..|d| - 1] == (if n < 10 then [] else Decimal(n / 10));
    if n >= 10 {
      DecimalValue(n / 10);
    }
  }

  /** parseInt reads back every decimal rendering, with or without a sign. */
  lemma ParseIntDecimal(n: nat)
    ensures ParseInt(Decimal(n)) == Num(n)
  {
    var d := Decimal(n);
    assert TrimStart(d) == d by { assert !IsSpace(d[0]); }
    assert d[0] != '-' && d[0] != '+' by { assert IsDigit(d[0]); }
    DigitRunAll(d);
    DecimalValue(n);
    assert d[..|d|] == d;
  }

  lemma ParseIntNegativeDecimal(n: nat)
    ensures ParseInt("-" + Decimal(n)) == Num(-(n as int))
  {
    var d := Decimal(n);
    var t := "-" + d;
    assert TrimStart(t) == t by { assert !IsSpace(t[0]); }
    assert t[0] == '-' && t[1..] == d;
    DigitRunAll(d);
    DecimalValue(n);
    assert d[..|d|] == d;
    assert DigitsValue(d[..DigitRun(d)]) == n;
  }

  function LowerChar(c: char): char
  {
    if 'A' <= c <= 'Z' then (c as int + 32) as char else c
  }

  /** `toLowerCase` on ASCII letters; other characters are kept. */
  function ToLower(s: string): (r: string)
    ensures |r| == |s|
    ensures forall i :: 0 <= i < |s| ==> r[i] == LowerChar(s[i])
  {
    seq(|s|, i requires 0 <= i < |s| => LowerChar(s[i]))
  }

  lemma ToLowerIdempotent(s: string)
    ensures ToLower(ToLower(s)) == ToLower(s)
  {
  }

  /** `String(n)` for a whole number. */
  function IntText(n: int): string
  {
    if n < 0 then "-" + Decimal(-n) else Decimal(n)
  }

  /** parseInt reads back the text of every whole number. */
  lemma ParseIntText(n: int)
    ensures ParseInt(IntText(n)) == Num(n)
  {
    if n < 0 {
      ParseIntTextNegative(n);
    } else {
      ParseIntTextNatural(n);
    }
  }

  lemma ParseIntTextNegative(n: int)
    requires n < 0
    ensures ParseInt(IntText(n)) == Num(n)
  {
    var m: nat := -n;
    assert IntText(n) == "-" + Decimal(m);
    ParseIntNegativeDecimal(m);
  }

  lemma ParseIntTextNatural(n: nat)
    ensures ParseInt(IntText(n)) == Num(n)
  {
    ParseIntDecimal(n);
  }
}
