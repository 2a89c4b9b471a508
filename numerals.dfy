/**
 * Integers written as text: decimal and base-36 digits (`String(n)`,
 * `n.toString(36)`, `parseInt`), and JavaScript's `Number(s)` restricted to
 * integer literals.
 */
module Numerals {
  import opened Strings

  /** Digits 0-9 followed by the lower-case letters a-z, as JavaScript prints them. */
  function DigitChar(d: nat): (c: char)
    requires d < 36
  {
    if d < 10 then ('0' as int + d) as char else ('a' as int + (d - 10)) as char
  }

  predicate IsDigitIn(c: char, radix: nat) {
    ('0' <= c <= '9' && (c as int - '0' as int) < radix)
    || ('a' <= c <= 'z' && (c as int - 'a' as int) + 10 < radix)
  }

  function DigitValue(c: char, radix: nat): (d: nat)
    requires IsDigitIn(c, radix)
    ensures d < radix
  {
    if '0' <= c <= '9' then c as int - '0' as int else c as int - 'a' as int + 10
  }

  lemma DigitCharValue(d: nat, radix: nat)
    requires d < radix <= 36
    ensures IsDigitIn(DigitChar(d), radix) && DigitValue(DigitChar(d), radix) == d
  {
  }

  /** A decimal digit 0-9 (`\d` in a JavaScript regular expression without the `u` flag). */
  predicate IsDecimalDigit(c: char) {
    '0' <= c <= '9'
  }

  lemma DecimalDigitIsDigitIn10(c: char)
    ensures IsDecimalDigit(c) <==> IsDigitIn(c, 10)
  {
  }

  predicate AllDigits(s: string, radix: nat) {
    forall i :: 0 <= i < |s| ==> IsDigitIn(s[i], radix)
  }

  lemma DivMod(n: nat, radix: nat)
    requires 2 <= radix <= 36
    ensures n == (n / radix) * radix + n % radix && n % radix < radix
    ensures n >= radix ==> n / radix < n
  {
  }

  /** `n` written in base `radix` without leading zeros (`n.toString(radix)`). */
  function ToRadix(n: nat, radix: nat): (r: string)
    requires 2 <= radix <= 36
    ensures |r| >= 1 && AllDigits(r, radix)
    decreases n
  {
    DivMod(n, radix);
    DigitCharValue(n % radix, radix);
    if n < radix then [DigitChar(n)]
    else ToRadix(n / radix, radix) + [DigitChar(n % radix)]
  }

  /** The number a string of digits denotes in base `radix` (`parseInt`). */
  function RadixValue(s: string, radix: nat): nat
    requires AllDigits(s, radix)
  {
    if s == [] then 0
    else RadixValue(s[..|s| - 1], radix) * radix + DigitValue(s[|s| - 1], radix)
  }

  /** Reading back what `ToRadix` wrote gives the number. */
  lemma {:induction false} RadixRoundTrip(n: nat, radix: nat)
    requires 2 <= radix <= 36
    ensures RadixValue(ToRadix(n, radix), radix) == n
    decreases n
  {
    var r := ToRadix(n, radix);
    DivMod(n, radix);
    if n < radix {
      DigitCharValue(n, radix);
      assert r[..0] == [];
    } else {
      var q := n / radix;
      RadixRoundTrip(q, radix);
      DigitCharValue(n % radix, radix);
      assert r[..|r| - 1] == ToRadix(q, radix);
      assert RadixValue(r, radix) == RadixValue(ToRadix(q, radix), radix) * radix + n % radix;
    }
  }

  /** What `Number(s)` yields: a finite value or NaN. */
  datatype JsNumber = Finite(value: int) | NaN

  predicate IsDecimalNumeral(s: string) {
    |s| >= 1 && AllDigits(s, 10)
  }

  /** Decimal text of a natural number (`String(n)`). */
  function NatToString(n: nat): (r: string)
    ensures IsDecimalNumeral(r)
  {
    ToRadix(n, 10)
  }

  /** Value of a non-empty run of decimal digits (`parseInt(s, 10)`). */
  function DecimalValue(s: string): nat
    requires AllDigits(s, 10)
  {
    RadixValue(s, 10)
  }

  lemma DecimalRoundTrip(n: nat)
    ensures DecimalValue(NatToString(n)) == n
  {
    RadixRoundTrip(n, 10);
  }

  /**
   * `Number(s)` for integer literals: surrounding whitespace is ignored, blank
   * text is 0, an optional sign may precede the digits; anything else is NaN.
   */
  function ToNumber(s: string): (r: JsNumber)
    ensures IsBlank(s) ==> r == Finite(0)
    ensures IsDecimalNumeral(s) ==> r == Finite(DecimalValue(s))
  {
    TrimIsBlankIffBlank(s);
    var t := Trim(s);
    TrimOfTrimmed(s);
    if t == "" then Finite(0)
    else if IsDecimalNumeral(t) then Finite(DecimalValue(t))
    else if t[0] == '+' && IsDecimalNumeral(t[1..]) then Finite(DecimalValue(t[1..]))
    else if t[0] == '-' && IsDecimalNumeral(t[1..]) then Finite(-(DecimalValue(t[1..]) as int))
    else NaN
  }

  /** `Number(String(n))` is `n` again. */
  lemma NumberOfNatToString(n: nat)
    ensures ToNumber(NatToString(n)) == Finite(n)
  {
    DecimalRoundTrip(n);
  }
}
