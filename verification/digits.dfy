/** ASCII digits and the digit filter `replace(/\D/g, '')` (equivalently
    `replace(/[^0-9]/g, '')`) shared by the CPF and phone validators. */
module Digits {

  predicate IsDigit(c: char) {
    '0' <= c <= '9'
  }

  predicate AllDigits(s: string) {
    forall i :: 0 <= i < |s| ==> IsDigit(s[i])
  }

  /** `Number.parseInt` of a one-digit string. */
  function Value(c: char): (v: nat)
    requires IsDigit(c)
    ensures v <= 9
  {
    (c as int) - ('0' as int)
  }

  /** The ASCII digits of `s`, in order; every other character is dropped. */
  function DigitsOf(s: string): (r: string)
    ensures |r| <= |s|
    ensures AllDigits(r)
  {
    if s == [] then []
    else (if IsDigit(s[0]) then [s[0]] else []) + DigitsOf(s[1..])
  }

  /** Filtering distributes over concatenation. */
  lemma {:induction false} DigitsOfConcat(a: string, b: string)
    ensures DigitsOf(a + b) == DigitsOf(a) + DigitsOf(b)
  {
    if a == [] {
      assert a + b == b;
    } else {
      var head := if IsDigit(a[0]) then [a[0]] else [];
      assert (a + b)[0] == a[0];
      assert (a + b)[1..] == a[1..] + b;
      assert DigitsOf(a + b) == head + DigitsOf(a[1..] + b);
      DigitsOfConcat(a[1..], b);
      assert DigitsOf(a) == head + DigitsOf(a[1..]);
    }
  }

  /** A string made only of digits passes through the filter unchanged. */
  lemma {:induction false} DigitsOfAllDigits(s: string)
    requires AllDigits(s)
    ensures DigitsOf(s) == s
  {
    if s != [] {
      DigitsOfAllDigits(s[1..]);
    }
  }

  /** Filtering twice is filtering once. */
  lemma DigitsOfIdempotent(s: string)
    ensures DigitsOf(DigitsOf(s)) == DigitsOf(s)
  {
    DigitsOfAllDigits(DigitsOf(s));
  }

  /** Inserting a non-digit anywhere does not change the digits. */
  lemma DigitsOfIgnoresNonDigit(a: string, c: char, b: string)
    requires !IsDigit(c)
    ensures DigitsOf(a + [c] + b) == DigitsOf(a + b)
  {
    DigitsOfConcat(a + [c], b);
    DigitsOfConcat(a, [c]);
    DigitsOfConcat(a, b);
    assert DigitsOf([c]) == [];
  }

  /** The digit character of a value 0..9. */
  function DigitChar(d: nat): (c: char)
    requires d <= 9
    ensures IsDigit(c) && Value(c) == d
  {
    ('0' as int + d) as char
  }

  /** The value of a decimal numeral, most significant digit first. */
  function NumeralValue(s: string): nat
    requires AllDigits(s)
  {
    if s == [] then 0 else NumeralValue(s[..|s| - 1]) * 10 + Value(s[|s| - 1])
  }

  /** JavaScript's `${n}` for a non-negative integer: the shortest decimal
      numeral, with no leading zero. */
  function Decimal(n: nat): (r: string)
    ensures r != [] && AllDigits(r)
    ensures |r| > 1 ==> r[0] != '0'
  {
    if n < 10 then [DigitChar(n)] else Decimal(n / 10) + [DigitChar(n % 10)]
  }

  /** The numeral reads back as the number it was written from. */
  lemma {:induction false} DecimalRoundTrip(n: nat)
    ensures NumeralValue(Decimal(n)) == n
  {
    if n >= 10 {
      var r := Decimal(n);
      assert r[..|r| - 1] == Decimal(n / 10);
      DecimalRoundTrip(n / 10);
    }
  }
}
