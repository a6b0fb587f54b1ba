/** The CPF (Brazilian taxpayer number) validator of `src/utils/validateCPF.ts`:
    digit stripping, length and repeated-digit rejection, and the two
    modulo-11 check digits. */
module Cpf {
  import opened Digits

  /** Sum of `Value(d[j]) * (top - j)` for `j < n`, accumulated left to right
      exactly as the source's `for (i = 1; i <= n; i++)` loops do. */
  function WeightedSum(d: string, n: nat, top: nat): nat
    requires n <= |d| && n <= top && AllDigits(d)
  {
    if n == 0 then 0 else WeightedSum(d, n - 1, top) + Value(d[n - 1]) * (top - (n - 1))
  }

  /** The check digit as the source computes it: `(sum * 10) % 11`, with the
      remainders 10 and 11 replaced by 0. The result is always one digit. */
  function CheckDigit(sum: nat): (r: nat)
    ensures r <= 9
  {
    var remainder := (sum * 10) % 11;
    if remainder == 10 || remainder == 11 then 0 else remainder
  }

  /** `/^(\d)\1+$/`: two or more digits, all the same. */
  predicate RepeatedDigit(d: string) {
    |d| >= 2 && AllDigits(d) && forall i :: 0 <= i < |d| ==> d[i] == d[0]
  }

  /** `validateCPF`, branch for branch. */
  function ValidateCpf(cpf: string): (ok: bool)
    ensures ok ==> |DigitsOf(cpf)| == 11
    ensures ok ==> !RepeatedDigit(DigitsOf(cpf))
  {
    var d := DigitsOf(cpf);
    if |d| != 11 then false
    else if RepeatedDigit(d) then false
    else if CheckDigit(WeightedSum(d, 9, 10)) != Value(d[9]) then false
    else if CheckDigit(WeightedSum(d, 10, 11)) != Value(d[10]) then false
    else true
  }

  // ---------------------------------------------------------------------
  // An independent statement of the rule, in the form the Receita Federal
  // publishes it: weights 10..2 and 11..2, and the check digit is 11 minus
  // the remainder of the sum by 11, or 0 when that remainder is below 2.
  // ---------------------------------------------------------------------

  const FirstWeights: seq<nat> := [10, 9, 8, 7, 6, 5, 4, 3, 2]
  const SecondWeights: seq<nat> := [11, 10, 9, 8, 7, 6, 5, 4, 3, 2]

  function Values(d: string): (vs: seq<nat>)
    requires AllDigits(d)
    ensures |vs| == |d|
    ensures forall i :: 0 <= i < |d| ==> vs[i] == Value(d[i])
  {
    if d == [] then [] else [Value(d[0])] + Values(d[1..])
  }

  function Dot(xs: seq<nat>, ws: seq<nat>): nat
    requires |xs| == |ws|
  {
    if xs == [] then 0 else xs[0] * ws[0] + Dot(xs[1..], ws[1..])
  }

  function ReceitaDigit(sum: nat): nat {
    var m := sum % 11;
    if m < 2 then 0 else 11 - m
  }

  /** A CPF in the Receita Federal's sense: eleven digits once punctuation is
      dropped, not all the same, each check digit matching its weighted sum. */
  predicate IsReceitaCpf(cpf: string) {
    var d := DigitsOf(cpf);
    && |d| == 11
    && (exists i :: 0 <= i < 11 && d[i] != d[0])
    && Value(d[9]) == ReceitaDigit(Dot(Values(d[..9]), FirstWeights))
    && Value(d[10]) == ReceitaDigit(Dot(Values(d[..10]), SecondWeights))
  }

  lemma {:induction false} DotSnoc(xs: seq<nat>, ws: seq<nat>, x: nat, w: nat)
    requires |xs| == |ws|
    ensures Dot(xs + [x], ws + [w]) == Dot(xs, ws) + x * w
  {
    if xs == [] {
      assert xs + [x] == [x] && ws + [w] == [w];
    } else {
      assert (xs + [x])[1..] == xs[1..] + [x];
      assert (ws + [w])[1..] == ws[1..] + [w];
      DotSnoc(xs[1..], ws[1..], x, w);
    }
  }

  /** The descending weights `top, top - 1, ..., top - n + 1`. */
  function Weights(top: nat, n: nat): (ws: seq<nat>)
    requires n <= top
    ensures |ws| == n
  {
    if n == 0 then [] else Weights(top, n - 1) + [top - (n - 1)]
  }

  /** The source's loop sum is the dot product of the digits with the
      descending weights. */
  lemma {:induction false} WeightedSumIsDot(d: string, n: nat, top: nat)
    requires n <= |d| && n <= top && AllDigits(d)
    ensures WeightedSum(d, n, top) == Dot(Values(d[..n]), Weights(top, n))
  {
    if n > 0 {
      WeightedSumIsDot(d, n - 1, top);
      assert d[..n] == d[..n - 1] + [d[n - 1]];
      assert Values(d[..n]) == Values(d[..n - 1]) + [Value(d[n - 1])];
      DotSnoc(Values(d[..n - 1]), Weights(top, n - 1), Value(d[n - 1]), top - (n - 1));
    }
  }

  lemma ModShift(q: int, m: int)
    ensures (11 * q + m) % 11 == m % 11
  {
  }

  /** `(sum * 10) % 11` with 10 read as 0 is the published rule. In particular
      the remainder never reaches 11, so that branch of the source is dead. */
  lemma CheckDigitIsReceitaDigit(sum: nat)
    ensures (sum * 10) % 11 <= 10
    ensures CheckDigit(sum) == ReceitaDigit(sum)
  {
    var q, m := sum / 11, sum % 11;
    assert sum * 10 == 11 * (10 * q) + 10 * m;
    ModShift(10 * q, 10 * m);
    assert (sum * 10) % 11 == (10 * m) % 11;
    assert 0 <= m < 11;
    if m == 0 { } else if m == 1 { } else if m == 2 { } else if m == 3 { }
    else if m == 4 { } else if m == 5 { } else if m == 6 { } else if m == 7 { }
    else if m == 8 { } else if m == 9 { } else { assert m == 10; }
  }

  /** `validateCPF` accepts exactly the Receita Federal's valid CPFs. */
  lemma ValidateCpfIsReceitaCpf(cpf: string)
    ensures ValidateCpf(cpf) <==> IsReceitaCpf(cpf)
  {
    var d := DigitsOf(cpf);
    if |d| == 11 {
      assert RepeatedDigit(d) <==> !(exists i :: 0 <= i < 11 && d[i] != d[0]);
      WeightedSumIsDot(d, 9, 10);
      WeightedSumIsDot(d, 10, 11);
      assert Weights(10, 9) == FirstWeights;
      assert Weights(11, 10) == SecondWeights;
      CheckDigitIsReceitaDigit(WeightedSum(d, 9, 10));
      CheckDigitIsReceitaDigit(WeightedSum(d, 10, 11));
    }
  }

  /** Only the digits matter: any two inputs with the same digits get the
      same answer, whatever punctuation surrounds them. */
  lemma ValidateCpfDigitsOnly(a: string, b: string)
    requires DigitsOf(a) == DigitsOf(b)
    ensures ValidateCpf(a) == ValidateCpf(b)
  {
  }

  lemma ValidateCpfIgnoresPunctuation(cpf: string)
    ensures ValidateCpf(cpf) == ValidateCpf(DigitsOf(cpf))
  {
    DigitsOfIdempotent(cpf);
  }

  lemma {:induction false} WeightedSumOfRepeat(d: string, n: nat, top: nat, v: nat)
    requires n <= |d| && n <= top && AllDigits(d)
    requires forall i :: 0 <= i < |d| ==> Value(d[i]) == v
    ensures 2 * WeightedSum(d, n, top) == v * n * (2 * top - n + 1)
  {
    if n > 0 {
      WeightedSumOfRepeat(d, n - 1, top, v);
    }
  }

  /** Eleven copies of one digit are rejected although both check digits
      match: the weighted sums are 54 and 65 times the digit, and both
      `540 % 11` and `650 % 11` are 1, so each check digit is the digit itself. */
  lemma RepeatedDigitsMatchButAreRejected(c: char)
    requires IsDigit(c)
    ensures CheckDigit(WeightedSum(seq(11, _ => c), 9, 10)) == Value(c)
    ensures CheckDigit(WeightedSum(seq(11, _ => c), 10, 11)) == Value(c)
    ensures !ValidateCpf(seq(11, _ => c))
  {
    var d: string := seq(11, _ => c);
    var v := Value(c);
    assert AllDigits(d);
    WeightedSumOfRepeat(d, 9, 10, v);
    WeightedSumOfRepeat(d, 10, 11, v);
    assert WeightedSum(d, 9, 10) == 54 * v;
    assert WeightedSum(d, 10, 11) == 65 * v;
    DigitsOfAllDigits(d);
    assert RepeatedDigit(d);
    if v == 0 { } else if v == 1 { } else if v == 2 { } else if v == 3 { }
    else if v == 4 { } else if v == 5 { } else if v == 6 { } else if v == 7 { }
    else if v == 8 { } else { assert v == 9; }
  }

  /** The well-known test number `111.444.777-35`, without punctuation (by
      `ValidateCpfDigitsOnly` the punctuation does not matter). */
  const KnownCpf: string := "11144477735"

  /** The test number is accepted: its digits have weighted sums 162 and
      204, hence check digits 3 and 5. */
  lemma AcceptsKnownCpf()
    ensures ValidateCpf(KnownCpf)
  {
    KnownCpfParts();
    KnownCheckDigits();
    ValidateCpfFromParts(KnownCpf);
  }

  lemma KnownCheckDigits()
    ensures CheckDigit(162) == 3 && CheckDigit(204) == 5
  {
  }

  lemma KnownCpfParts()
    ensures AllDigits(KnownCpf) && |KnownCpf| == 11
    ensures !RepeatedDigit(KnownCpf)
    ensures WeightedSum(KnownCpf, 9, 10) == 162
    ensures WeightedSum(KnownCpf, 10, 11) == 204
    ensures Value(KnownCpf[9]) == 3 && Value(KnownCpf[10]) == 5
  {
    var d := KnownCpf;
    assert AllDigits(d);
    assert d[3] == '4';
    assert WeightedSum(d, 3, 10) == 27;
    assert WeightedSum(d, 6, 10) == 99;
    assert WeightedSum(d, 3, 11) == 30;
    assert WeightedSum(d, 6, 11) == 114;
    assert WeightedSum(d, 9, 11) == 198;
  }

  lemma ValidateCpfFromParts(d: string)
    requires AllDigits(d) && |d| == 11 && !RepeatedDigit(d)
    requires CheckDigit(WeightedSum(d, 9, 10)) == Value(d[9])
    requires CheckDigit(WeightedSum(d, 10, 11)) == Value(d[10])
    ensures ValidateCpf(d)
  {
    DigitsOfAllDigits(d);
  }

  /** Inputs that do not reduce to eleven digits are rejected. */
  lemma RejectsShortAndRepeated()
    ensures !ValidateCpf("123456789")
    ensures !ValidateCpf("11111111111")
  {
    RepeatedDigitsMatchButAreRejected('1');
    assert seq(11, _ => '1') == "11111111111";
    DigitsOfAllDigits("123456789");
  }
}
