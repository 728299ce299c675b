/**
 * The JavaScript values that settings and data attributes hold, and the
 * coercions the parallax code applies to them: truthiness (`x ? a : b`,
 * `x || y`), numeric conversion (arithmetic and comparisons) and
 * `parseFloat`.  Numbers are modelled as reals; NaN and the infinities are
 * not represented.
 */
module JsValues {

  datatype Option<+T> = None | Some(value: T)

  /** A JavaScript value as far as settings and data attributes go. */
  datatype Value = Null | Bool(b: bool) | Num(n: real) | Str(s: string)

  /** JavaScript truthiness. */
  predicate Truthy(v: Value) {
    match v
    case Null => false
    case Bool(b) => b
    case Num(n) => n != 0.0
    case Str(s) => s != ""
  }

  // ---------------------------------------------------------------------
  // Decimal numerals: the strings the model treats as finite numbers.
  // ---------------------------------------------------------------------

  predicate IsDigit(c: char) {
    '0' <= c <= '9'
  }

  predicate AllDigits(s: string) {
    forall i | 0 <= i < |s| :: IsDigit(s[i])
  }

  function DigitValue(c: char): nat
    requires IsDigit(c)
  {
    c as int - '0' as int
  }

  function DigitChar(d: nat): char
    requires d < 10
  {
    ('0' as int + d) as char
  }

  /** The natural number a string of decimal digits denotes. */
  function DigitsValue(s: string): nat
    requires AllDigits(s)
    decreases |s|
  {
    if s == [] then 0 else 10 * DigitsValue(s[..|s| - 1]) + DigitValue(s[|s| - 1])
  }

  /** The value of the digits after a decimal point: "25" is 0.25. */
  function FractionValue(s: string): (r: real)
    requires AllDigits(s)
    ensures 0.0 <= r <= 1.0
  {
    if s == [] then 0.0 else (DigitValue(s[0]) as real + FractionValue(s[1..])) / 10.0
  }

  /** `s` without a leading minus sign. */
  function Unsigned(s: string): string {
    if |s| > 0 && s[0] == '-' then s[1..] else s
  }

  /** Index of the first '.' in `s`, or `|s|` when there is none. */
  function DotIndex(s: string): (i: nat)
    ensures i <= |s|
    ensures i < |s| ==> s[i] == '.'
  {
    if s == [] then 0
    else if s[0] == '.' then 0
    else 1 + DotIndex(s[1..])
  }

  /** A string of digits has no '.', so its dot index is its length. */
  lemma {:induction false} DotIndexDigits(s: string)
    requires AllDigits(s)
    ensures DotIndex(s) == |s|
  {
    if s != [] {
      assert AllDigits(s[1..]) by {
        assert forall j | 0 <= j < |s[1..]| :: s[1..][j] == s[j + 1];
      }
      DotIndexDigits(s[1..]);
    }
  }

  function IntegerPart(s: string): string {
    var u := Unsigned(s);
    u[..DotIndex(u)]
  }

  function FractionPart(s: string): string {
    var u := Unsigned(s);
    var i := DotIndex(u);
    if i < |u| then u[i + 1..] else ""
  }

  /**
   * The numeric strings of the model: an optional '-', one or more digits,
   * and optionally a '.' followed by one or more digits.  It stands for the
   * source's "parseFloat is not NaN and isFinite" test.
   */
  predicate IsDecimal(s: string) {
    var u := Unsigned(s);
    var i := DotIndex(u);
    && i >= 1
    && AllDigits(u[..i])
    && (i < |u| ==> |u| > i + 1 && AllDigits(u[i + 1..]))
  }

  /** The number a decimal numeral denotes. */
  function DecimalValue(s: string): real
    requires IsDecimal(s)
  {
    var magnitude := DigitsValue(IntegerPart(s)) as real + FractionValue(FractionPart(s));
    if |s| > 0 && s[0] == '-' then -magnitude else magnitude
  }

  // ---------------------------------------------------------------------
  // Coercions
  // ---------------------------------------------------------------------

  /**
   * `parseFloat(v)`: a number for numbers and decimal strings, `None` (NaN)
   * for booleans, null and other strings.
   */
  function ParseFloat(v: Value): (r: Option<real>)
    ensures v.Num? ==> r == Some(v.n)
    ensures v.Null? || v.Bool? ==> r == None
    ensures v.Str? ==> (r.Some? <==> IsDecimal(v.s))
    ensures v.Str? && r.Some? ==> r.value == DecimalValue(v.s)
  {
    match v
    case Num(n) => Some(n)
    case Str(s) => if IsDecimal(s) then Some(DecimalValue(s)) else None
    case _ => None
  }

  /**
   * The number JavaScript arithmetic uses for `v`: null is 0, booleans are
   * 0 and 1.  A string that is not a decimal numeral would be NaN; the model
   * reads it as 0.
   */
  function ToNumber(v: Value): real {
    match v
    case Null => 0.0
    case Bool(b) => if b then 1.0 else 0.0
    case Num(n) => n
    case Str(s) => if IsDecimal(s) then DecimalValue(s) else 0.0
  }

  // ---------------------------------------------------------------------
  // Rendering integers, the inverse the numeric test is checked against.
  // ---------------------------------------------------------------------

  /** Decimal digits of a natural number, most significant first. */
  function NatString(n: nat): (s: string)
    ensures |s| >= 1 && AllDigits(s)
    decreases n
  {
    if n < 10 then [DigitChar(n)] else NatString(n / 10) + [DigitChar(n % 10)]
  }

  /**
   * How JavaScript prints an integer-valued number whose magnitude is below
   * 10^21; larger numbers print in exponent notation, which is not modelled.
   */
  function IntString(i: int): string {
    if i < 0 then "-" + NatString(-i) else NatString(i)
  }

  lemma {:induction false} NatStringValue(n: nat)
    ensures DigitsValue(NatString(n)) == n
    decreases n
  {
    var s := NatString(n);
    if n >= 10 {
      NatStringValue(n / 10);
      assert s[..|s| - 1] == NatString(n / 10);
    }
  }

  /** An integer rendered as text is a decimal numeral denoting that integer. */
  lemma IntStringIsDecimal(i: int)
    ensures IsDecimal(IntString(i))
    ensures DecimalValue(IntString(i)) == i as real
  {
    var s := IntString(i);
    var n: nat := if i < 0 then -i else i;
    var digits := NatString(n);
    assert Unsigned(s) == digits;
    DotIndexDigits(digits);
    assert digits[..|digits|] == digits;
    NatStringValue(n);
  }
}
