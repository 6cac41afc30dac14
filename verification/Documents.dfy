/** The check digits of Brazilian taxpayer numbers (CPF and CNPJ). */
module Documents {

  predicate IsDigit(c: char) {
    '0' <= c <= '9'
  }

  predicate AllDigits(s: string) {
    forall i :: 0 <= i < |s| ==> IsDigit(s[i])
  }

  function Value(c: char): int
    requires IsDigit(c)
  {
    c as int - '0' as int
  }

  /** Keeps the digits of a text, in order. */
  function Normalize(s: string): (r: string)
    ensures AllDigits(r)
  {
    if s == "" then "" else if IsDigit(s[0]) then [s[0]] + Normalize(s[1..]) else Normalize(s[1..])
  }

  /** The first `n` digits, each times its weight. */
  function WeightedSum(digits: string, weights: seq<int>, n: nat): int
    requires AllDigits(digits) && n <= |digits| && n <= |weights|
  {
    if n == 0 then 0 else WeightedSum(digits, weights, n - 1) + Value(digits[n - 1]) * weights[n - 1]
  }

  /** The digit rule of the CPF file. */
  function CpfDigit(total: int): int {
    var digit := total * 10 % 11;
    if digit == 10 then 0 else digit
  }

  /** The digit rule of the CNPJ file. */
  function CnpjDigit(total: int): int {
    var remainder := total % 11;
    if remainder < 2 then 0 else 11 - remainder
  }

  /** One weight more than the digits it reads: `10 - i` and `11 - i`. */
  const CPF_WEIGHTS_1: seq<int> := [10, 9, 8, 7, 6, 5, 4, 3, 2]
  const CPF_WEIGHTS_2: seq<int> := [11, 10, 9, 8, 7, 6, 5, 4, 3, 2]
  const CNPJ_WEIGHTS_1: seq<int> := [5, 4, 3, 2, 9, 8, 7, 6, 5, 4, 3, 2]
  const CNPJ_WEIGHTS_2: seq<int> := [6, 5, 4, 3, 2, 9, 8, 7, 6, 5, 4, 3, 2]

  predicate Repeated(s: string)
    requires s != ""
  {
    forall i :: 0 <= i < |s| ==> s[i] == s[0]
  }

  predicate ValidCpf(s: string)
    requires AllDigits(s)
  {
    && |s| == 11
    && !Repeated(s)
    && CpfDigit(WeightedSum(s, CPF_WEIGHTS_1, 9)) == Value(s[9])
    && CpfDigit(WeightedSum(s, CPF_WEIGHTS_2, 10)) == Value(s[10])
  }

  predicate ValidCnpj(s: string)
    requires AllDigits(s)
  {
    && |s| == 14
    && !Repeated(s)
    && CnpjDigit(WeightedSum(s, CNPJ_WEIGHTS_1, 12)) == Value(s[12])
    && CnpjDigit(WeightedSum(s, CNPJ_WEIGHTS_2, 13)) == Value(s[13])
  }

  datatype Parsed = Accepted(value: string) | Invalid

  function ParseCpf(text: string): Parsed {
    var normalized := Normalize(text);
    if ValidCpf(normalized) then Accepted(normalized) else Invalid
  }

  function ParseCnpj(text: string): Parsed {
    var normalized := Normalize(text);
    if ValidCnpj(normalized) then Accepted(normalized) else Invalid
  }

  function FormatCpf(v: string): string
    requires |v| == 11
  {
    v[..3] + "." + v[3..6] + "." + v[6..9] + "-" + v[9..]
  }

  function FormatCnpj(v: string): string
    requires |v| == 14
  {
    v[..2] + "." + v[2..5] + "." + v[5..8] + "/" + v[8..12] + "-" + v[12..]
  }

  // ---------------------------------------------------------------- round trip

  lemma {:induction false} NormalizeDistributes(a: string, b: string)
    ensures Normalize(a + b) == Normalize(a) + Normalize(b)
  {
    if a == "" {
      assert a + b == b;
    } else {
      assert (a + b)[1..] == a[1..] + b;
      NormalizeDistributes(a[1..], b);
    }
  }

  lemma {:induction false} NormalizeKeepsDigits(s: string)
    requires AllDigits(s)
    ensures Normalize(s) == s
  {
    if s != "" { NormalizeKeepsDigits(s[1..]); }
  }

  /** One separator between a text and a run of digits disappears. */
  lemma DropSeparator(a: string, separator: char, digits: string)
    requires !IsDigit(separator) && AllDigits(digits)
    ensures Normalize(a + [separator] + digits) == Normalize(a) + digits
  {
    NormalizeDistributes(a + [separator], digits);
    NormalizeDistributes(a, [separator]);
    NormalizeKeepsDigits(digits);
    assert Normalize([separator]) == [];
  }

  /** A formatted CPF reads back as the number it was made from. */
  lemma CpfRoundTrip(v: string)
    requires AllDigits(v) && |v| == 11
    ensures Normalize(FormatCpf(v)) == v
    ensures ValidCpf(v) ==> ParseCpf(FormatCpf(v)) == Accepted(v)
  {
    NormalizeKeepsDigits(v[..3]);
    DropSeparator(v[..3], '.', v[3..6]);
    DropSeparator(v[..3] + "." + v[3..6], '.', v[6..9]);
    DropSeparator(v[..3] + "." + v[3..6] + "." + v[6..9], '-', v[9..]);
    assert v[..3] + v[3..6] + v[6..9] + v[9..] == v;
  }

  /** A formatted CNPJ reads back as the number it was made from. */
  lemma CnpjRoundTrip(v: string)
    requires AllDigits(v) && |v| == 14
    ensures Normalize(FormatCnpj(v)) == v
    ensures ValidCnpj(v) ==> ParseCnpj(FormatCnpj(v)) == Accepted(v)
  {
    NormalizeKeepsDigits(v[..2]);
    DropSeparator(v[..2], '.', v[2..5]);
    DropSeparator(v[..2] + "." + v[2..5], '.', v[5..8]);
    DropSeparator(v[..2] + "." + v[2..5] + "." + v[5..8], '/', v[8..12]);
    DropSeparator(v[..2] + "." + v[2..5] + "." + v[5..8] + "/" + v[8..12], '-', v[12..]);
    assert v[..2] + v[2..5] + v[5..8] + v[8..12] + v[12..] == v;
  }

  /** Every character of a text is read by itself: a digit is kept, all else dropped. */
  lemma NormalizeReadsEach(text: string, k: nat)
    requires k < |text|
    ensures Normalize(text)
            == Normalize(text[..k]) + (if '0' <= text[k] <= '9' then [text[k]] else "") + Normalize(text[k + 1..])
  {
    hide Normalize;
    assert text == text[..k] + [text[k]] + text[k + 1..];
    NormalizeDistributes(text[..k] + [text[k]], text[k + 1..]);
    NormalizeDistributes(text[..k], [text[k]]);
    NormalizeOne(text[k]);
  }

  lemma NormalizeOne(c: char)
    ensures Normalize([c]) == if '0' <= c <= '9' then [c] else ""
  {
    assert [c][1..] == "";
  }

  /** Where the separators of a formatted number stand. */
  lemma SeparatorsStand(cpf: string, cnpj: string)
    requires |cpf| == 11 && |cnpj| == 14
    ensures var f := FormatCpf(cpf); |f| == 14 && f[3] == f[7] == '.' && f[11] == '-'
    ensures var f := FormatCnpj(cnpj); |f| == 18 && f[2] == f[6] == '.' && f[10] == '/' && f[15] == '-'
  {
  }

  // ---------------------------------------------------------------- what is accepted

  /** A check digit completes its weighted total to a multiple of 11; where that
      takes 10 or 11, it is 0. */
  predicate Checks(total: int, digit: int) {
    if total % 11 in {0, 1} then digit == 0 else (total + digit) % 11 == 0
  }

  lemma DigitChecks(total: int, digit: int)
    requires 0 <= digit <= 9
    ensures CnpjDigit(total) == digit <==> Checks(total, digit)
    ensures CpfDigit(total) == digit <==> Checks(total, digit)
  {
    DigitRulesAgree(total);
    var q, r := total / 11, total % 11;
    assert total + digit == 11 * q + (r + digit);
    assert (total + digit) % 11 == (r + digit) % 11;
  }

  /** A CPF's first nine digits under the weights from 10 down to 2, and its first ten
      under those from 11 down. */
  function CpfTotal(v: string, first: int, n: nat): int
    requires AllDigits(v) && n <= |v|
  {
    if n == 0 then 0 else CpfTotal(v, first, n - 1) + Value(v[n - 1]) * (first + 1 - n)
  }

  lemma {:induction false} CpfTotalIs(v: string, n: nat)
    requires AllDigits(v) && n <= |v|
    ensures n <= 9 ==> WeightedSum(v, CPF_WEIGHTS_1, n) == CpfTotal(v, 10, n)
    ensures n <= 10 ==> WeightedSum(v, CPF_WEIGHTS_2, n) == CpfTotal(v, 11, n)
  {
    if n > 0 {
      CpfTotalIs(v, n - 1);
      assert n <= 9 ==> CPF_WEIGHTS_1[n - 1] == 11 - n;
      assert n <= 10 ==> CPF_WEIGHTS_2[n - 1] == 12 - n;
    }
  }

  /** A text is accepted as a CPF exactly when its digits are eleven, two of them
      differ, and the last two check those before them. */
  lemma CpfAccepted(text: string)
    ensures var v := Normalize(text);
            && ParseCpf(text) in {Accepted(v), Invalid}
            && (ParseCpf(text) == Accepted(v) <==>
                  && |v| == 11 && (exists i, j :: 0 <= i < j < 11 && v[i] != v[j])
                  && Checks(CpfTotal(v, 10, 9), Value(v[9])) && Checks(CpfTotal(v, 11, 10), Value(v[10])))
  {
    hide Normalize, CpfDigit, Checks;
    var v := Normalize(text);
    if |v| == 11 {
      CpfTotalIs(v, 9);
      CpfTotalIs(v, 10);
      DigitChecks(CpfTotal(v, 10, 9), Value(v[9]));
      DigitChecks(CpfTotal(v, 11, 10), Value(v[10]));
      assert !Repeated(v) ==> exists j :: 0 < j < 11 && v[0] != v[j];
    }
  }

  /** A CNPJ's totals: the weight of a digit is 2 at the digit before the check digit
      and grows by one to the left, beginning again at 2 after 9. */
  function CnpjTotal(v: string, last: int, n: nat): int
    requires AllDigits(v) && n <= |v|
  {
    if n == 0 then 0 else CnpjTotal(v, last, n - 1) + Value(v[n - 1]) * (2 + (last - n) % 8)
  }

  lemma {:induction false} CnpjTotalIs(v: string, n: nat)
    requires AllDigits(v) && n <= |v|
    ensures n <= 12 ==> WeightedSum(v, CNPJ_WEIGHTS_1, n) == CnpjTotal(v, 12, n)
    ensures n <= 13 ==> WeightedSum(v, CNPJ_WEIGHTS_2, n) == CnpjTotal(v, 13, n)
  {
    if n > 0 {
      CnpjTotalIs(v, n - 1);
      assert n <= 12 ==> CNPJ_WEIGHTS_1[n - 1] == 2 + (12 - n) % 8;
      assert n <= 13 ==> CNPJ_WEIGHTS_2[n - 1] == 2 + (13 - n) % 8;
    }
  }

  /** A text is accepted as a CNPJ exactly when its digits are fourteen, two of them
      differ, and the last two check those before them. */
  lemma CnpjAccepted(text: string)
    ensures var v := Normalize(text);
            && ParseCnpj(text) in {Accepted(v), Invalid}
            && (ParseCnpj(text) == Accepted(v) <==>
                  && |v| == 14 && (exists i, j :: 0 <= i < j < 14 && v[i] != v[j])
                  && Checks(CnpjTotal(v, 12, 12), Value(v[12])) && Checks(CnpjTotal(v, 13, 13), Value(v[13])))
  {
    hide Normalize, CnpjDigit, Checks;
    var v := Normalize(text);
    if |v| == 14 {
      CnpjTotalIs(v, 12);
      CnpjTotalIs(v, 13);
      DigitChecks(CnpjTotal(v, 12, 12), Value(v[12]));
      DigitChecks(CnpjTotal(v, 13, 13), Value(v[13]));
      assert !Repeated(v) ==> exists j :: 0 < j < 14 && v[0] != v[j];
    }
  }

  /** Two different digit rules, one function. */
  lemma DigitRulesAgree(total: int)
    ensures CpfDigit(total) == CnpjDigit(total)
  {
    var q, r := total / 11, total % 11;
    assert total * 10 == 11 * (10 * q) + 10 * r;
    assert total * 10 % 11 == 10 * r % 11;
  }

  // ---------------------------------------------------------------- single-digit errors

  predicate DifferOnlyAt(a: string, b: string, k: int) {
    |a| == |b| && 0 <= k < |a| && a[k] != b[k] && forall i :: 0 <= i < |a| && i != k ==> a[i] == b[i]
  }

  lemma {:induction false} SumDifference(a: string, b: string, weights: seq<int>, n: nat, k: int)
    requires AllDigits(a) && AllDigits(b) && n <= |a| && n <= |weights| && DifferOnlyAt(a, b, k)
    ensures WeightedSum(b, weights, n) - WeightedSum(a, weights, n)
            == if k < n then (Value(b[k]) - Value(a[k])) * weights[k] else 0
  {
    if n > 0 { SumDifference(a, b, weights, n - 1, k); }
  }

  /** Two totals have the same digit exactly when they agree modulo 11, or one
      leaves remainder 0 and the other 1. */
  lemma SameDigit(t: int, u: int)
    ensures CnpjDigit(t) == CnpjDigit(u) <==> t % 11 == u % 11 || (t % 11 < 2 && u % 11 < 2)
  {
  }

  /** How far apart two totals with the same digit can be. */
  lemma SameDigitShift(t: int, shift: int)
    requires CnpjDigit(t) == CnpjDigit(t + shift)
    ensures Missable(shift)
  {
    SameDigit(t, t + shift);
  }

  /** A shift of a total that its digit can miss. */
  predicate Missable(shift: int) {
    shift % 11 in {0, 1, 10}
  }

  lemma SmallWeights(delta: int)
    requires -9 <= delta <= 9 && delta != 0
    ensures !(Missable(2 * delta) && Missable(3 * delta))
    ensures !(Missable(3 * delta) && Missable(4 * delta))
    ensures !(Missable(4 * delta) && Missable(5 * delta))
    ensures Missable(5 * delta) && Missable(6 * delta) ==> delta in {-9, -2, 2, 9}
  {
  }

  lemma LargeWeights(delta: int)
    requires -9 <= delta <= 9 && delta != 0
    ensures !(Missable(6 * delta) && Missable(7 * delta))
    ensures !(Missable(7 * delta) && Missable(8 * delta))
    ensures !(Missable(8 * delta) && Missable(9 * delta))
    ensures !(Missable(9 * delta) && Missable(10 * delta))
  {
  }

  lemma EndWeights(delta: int)
    requires -9 <= delta <= 9 && delta != 0
    ensures Missable(10 * delta) ==> delta in {-1, 1}
    ensures Missable(9 * delta) && Missable(2 * delta) ==> delta in {-6, -5, 5, 6}
  {
  }

  /** The errors both digits miss, from the two weights of the wrong digit. */
  lemma WeightsOfMissedErrors(delta: int, w1: int, w2: int)
    requires -9 <= delta <= 9 && delta != 0
    requires Missable(delta * w1) && Missable(delta * w2)
    ensures 2 <= w1 <= 9 && w2 == w1 + 1 ==> w1 == 5 && delta in {-9, -2, 2, 9}
    ensures w1 == 10 ==> delta in {-1, 1}
    ensures w1 == 9 && w2 == 2 ==> delta in {-6, -5, 5, 6}
  {
    hide Missable;
    SmallWeights(delta);
    LargeWeights(delta);
    EndWeights(delta);
  }

  /** A single wrong digit escapes a CPF's check digits only at index 0, off by
      one, or at index 5, off by two or nine. */
  lemma CpfMissedErrors(a: string, b: string, k: int)
    requires AllDigits(a) && AllDigits(b) && ValidCpf(a) && ValidCpf(b) && DifferOnlyAt(a, b, k)
    ensures var delta := Value(b[k]) - Value(a[k]);
            (k == 0 && delta in {-1, 1}) || (k == 5 && delta in {-9, -2, 2, 9})
  {
    hide Normalize, Repeated, CpfDigit, CnpjDigit, WeightedSum, Missable;
    SumDifference(a, b, CPF_WEIGHTS_1, 9, k);
    SumDifference(a, b, CPF_WEIGHTS_2, 10, k);
    var t1, t2 := WeightedSum(a, CPF_WEIGHTS_1, 9), WeightedSum(a, CPF_WEIGHTS_2, 10);
    DigitRulesAgree(t1);
    DigitRulesAgree(t2);
    DigitRulesAgree(WeightedSum(b, CPF_WEIGHTS_1, 9));
    DigitRulesAgree(WeightedSum(b, CPF_WEIGHTS_2, 10));
    if k < 9 {
      var delta := Value(b[k]) - Value(a[k]);
      SameDigitShift(t1, delta * CPF_WEIGHTS_1[k]);
      SameDigitShift(t2, delta * CPF_WEIGHTS_2[k]);
      WeightsOfMissedErrors(delta, CPF_WEIGHTS_1[k], CPF_WEIGHTS_2[k]);
    }
  }

  /** A single wrong digit escapes a CNPJ's check digits only at index 0 or 8,
      off by two or nine, or at index 4, off by five or six. */
  lemma CnpjMissedErrors(a: string, b: string, k: int)
    requires AllDigits(a) && AllDigits(b) && ValidCnpj(a) && ValidCnpj(b) && DifferOnlyAt(a, b, k)
    ensures var delta := Value(b[k]) - Value(a[k]);
            (k in {0, 8} && delta in {-9, -2, 2, 9}) || (k == 4 && delta in {-6, -5, 5, 6})
  {
    hide Normalize, Repeated, CnpjDigit, WeightedSum, Missable;
    SumDifference(a, b, CNPJ_WEIGHTS_1, 12, k);
    SumDifference(a, b, CNPJ_WEIGHTS_2, 13, k);
    if k < 12 {
      var delta := Value(b[k]) - Value(a[k]);
      SameDigitShift(WeightedSum(a, CNPJ_WEIGHTS_1, 12), delta * CNPJ_WEIGHTS_1[k]);
      SameDigitShift(WeightedSum(a, CNPJ_WEIGHTS_2, 13), delta * CNPJ_WEIGHTS_2[k]);
      WeightsOfMissedErrors(delta, CNPJ_WEIGHTS_1[k], CNPJ_WEIGHTS_2[k]);
    }
  }

  // ---------------------------------------------------------------- the exceptions are real

  lemma LeadingZeros(s: string, weights: seq<int>, n: nat)
    requires AllDigits(s) && n <= |s| && n <= |weights| && forall i :: 0 <= i < n ==> s[i] == '0'
    ensures WeightedSum(s, weights, n) == 0
  {
  }

  lemma SumFromZeros(s: string, weights: seq<int>, z: nat, n: nat)
    requires AllDigits(s) && z <= n <= z + 4 && n <= |s| && n <= |weights| && forall i :: 0 <= i < z ==> s[i] == '0'
    ensures WeightedSum(s, weights, n) ==
              (if z < n then Value(s[z]) * weights[z] else 0)
              + (if z + 1 < n then Value(s[z + 1]) * weights[z + 1] else 0)
              + (if z + 2 < n then Value(s[z + 2]) * weights[z + 2] else 0)
              + (if z + 3 < n then Value(s[z + 3]) * weights[z + 3] else 0)
  {
    LeadingZeros(s, weights, z);
    if z + 2 <= n { assert WeightedSum(s, weights, z + 2) == WeightedSum(s, weights, z + 1) + Value(s[z + 1]) * weights[z + 1]; }
  }

  lemma OneFlip(a: string, b: string, k: int)
    requires AllDigits(a) && AllDigits(b) && |a| == 11 && DifferOnlyAt(a, b, k) && k < 9
    requires forall i :: 0 <= i < 6 ==> a[i] == '0'
    requires a[6] != '0' || a[7] != '0' || a[8] != '0'
    requires !Repeated(b)
    requires var t1, t2 := 4 * Value(a[6]) + 3 * Value(a[7]) + 2 * Value(a[8]),
                           5 * Value(a[6]) + 4 * Value(a[7]) + 3 * Value(a[8]) + 2 * Value(a[9]);
             var delta := Value(b[k]) - Value(a[k]);
             && CpfDigit(t1) == Value(a[9]) == CpfDigit(t1 + delta * CPF_WEIGHTS_1[k])
             && CpfDigit(t2) == Value(a[10]) == CpfDigit(t2 + delta * CPF_WEIGHTS_2[k])
    ensures ValidCpf(a) && ValidCpf(b)
  {
    SumFromZeros(a, CPF_WEIGHTS_1, 6, 9);
    SumFromZeros(a, CPF_WEIGHTS_2, 6, 10);
    SumDifference(a, b, CPF_WEIGHTS_1, 9, k);
    SumDifference(a, b, CPF_WEIGHTS_2, 10, k);
  }

  /** The exceptions of `CpfMissedErrors` do escape: accepted numbers one digit apart, at index 0 by one, */
  lemma CpfMissedAtIndex0()
    ensures AllDigits("00000000604") && AllDigits("10000000604")
    ensures DifferOnlyAt("00000000604", "10000000604", 0) && ValidCpf("00000000604") && ValidCpf("10000000604")
  {
    hide ValidCpf, WeightedSum, Normalize;
    var a, b := "00000000604", "10000000604";
    assert b[0] != b[8] && !Repeated(b);
    OneFlip(a, b, 0);
  }

  /** at index 5 by two, */
  lemma CpfMissedAtIndex5By2()
    ensures AllDigits("00000003700") && AllDigits("00000203700")
    ensures DifferOnlyAt("00000003700", "00000203700", 5) && ValidCpf("00000003700") && ValidCpf("00000203700")
  {
    hide ValidCpf, WeightedSum, Normalize;
    var a, b := "00000003700", "00000203700";
    assert b[0] != b[8] && !Repeated(b);
    OneFlip(a, b, 5);
  }

  /** and at index 5 by nine. */
  lemma CpfMissedAtIndex5By9()
    ensures AllDigits("00000009300") && AllDigits("00000909300")
    ensures DifferOnlyAt("00000009300", "00000909300", 5) && ValidCpf("00000009300") && ValidCpf("00000909300")
  {
    hide ValidCpf, WeightedSum, Normalize;
    var a, b := "00000009300", "00000909300";
    assert b[0] != b[5] && !Repeated(b);
    OneFlip(a, b, 5);
  }

  lemma OneCnpjFlip(a: string, b: string, k: int)
    requires AllDigits(a) && AllDigits(b) && |a| == 14 && DifferOnlyAt(a, b, k) && k < 12
    requires forall i :: 0 <= i < 10 ==> a[i] == '0'
    requires (a[10] != '0' || a[11] != '0') && !Repeated(b)
    requires var t1, t2 := 3 * Value(a[10]) + 2 * Value(a[11]), 4 * Value(a[10]) + 3 * Value(a[11]) + 2 * Value(a[12]);
             var delta := Value(b[k]) - Value(a[k]);
             && CnpjDigit(t1) == Value(a[12]) == CnpjDigit(t1 + delta * CNPJ_WEIGHTS_1[k])
             && CnpjDigit(t2) == Value(a[13]) == CnpjDigit(t2 + delta * CNPJ_WEIGHTS_2[k])
    ensures ValidCnpj(a) && ValidCnpj(b)
  {
    SumFromZeros(a, CNPJ_WEIGHTS_1, 10, 12);
    SumFromZeros(a, CNPJ_WEIGHTS_2, 10, 13);
    SumDifference(a, b, CNPJ_WEIGHTS_1, 12, k);
    SumDifference(a, b, CNPJ_WEIGHTS_2, 13, k);
  }

  /** So do the exceptions of `CnpjMissedErrors`. */
  lemma CnpjMissedAtIndex0By2()
    ensures AllDigits("00000000003700") && AllDigits("20000000003700")
    ensures DifferOnlyAt("00000000003700", "20000000003700", 0) && ValidCnpj("00000000003700") && ValidCnpj("20000000003700")
  {
    hide ValidCnpj, WeightedSum, Normalize;
    var a, b := "00000000003700", "20000000003700";
    assert b[0] != b[1] && !Repeated(b);
    OneCnpjFlip(a, b, 0);
  }

  lemma CnpjMissedAtIndex0By9()
    ensures AllDigits("00000000009300") && AllDigits("90000000009300")
    ensures DifferOnlyAt("00000000009300", "90000000009300", 0) && ValidCnpj("00000000009300") && ValidCnpj("90000000009300")
  {
    hide ValidCnpj, WeightedSum, Normalize;
    var a, b := "00000000009300", "90000000009300";
    assert b[0] != b[1] && !Repeated(b);
    OneCnpjFlip(a, b, 0);
  }

  lemma CnpjMissedAtIndex8By2()
    ensures AllDigits("00000000003700") && AllDigits("00000000203700")
    ensures DifferOnlyAt("00000000003700", "00000000203700", 8) && ValidCnpj("00000000003700") && ValidCnpj("00000000203700")
  {
    hide ValidCnpj, WeightedSum, Normalize;
    var a, b := "00000000003700", "00000000203700";
    assert b[8] != b[1] && !Repeated(b);
    OneCnpjFlip(a, b, 8);
  }

  lemma CnpjMissedAtIndex8By9()
    ensures AllDigits("00000000009300") && AllDigits("00000000909300")
    ensures DifferOnlyAt("00000000009300", "00000000909300", 8) && ValidCnpj("00000000009300") && ValidCnpj("00000000909300")
  {
    hide ValidCnpj, WeightedSum, Normalize;
    var a, b := "00000000009300", "00000000909300";
    assert b[8] != b[1] && !Repeated(b);
    OneCnpjFlip(a, b, 8);
  }

  lemma CnpjMissedAtIndex4By5()
    ensures AllDigits("00000000009300") && AllDigits("00005000009300")
    ensures DifferOnlyAt("00000000009300", "00005000009300", 4) && ValidCnpj("00000000009300") && ValidCnpj("00005000009300")
  {
    hide ValidCnpj, WeightedSum, Normalize;
    var a, b := "00000000009300", "00005000009300";
    assert b[4] != b[1] && !Repeated(b);
    OneCnpjFlip(a, b, 4);
  }

  lemma CnpjMissedAtIndex4By6()
    ensures AllDigits("00000000003700") && AllDigits("00006000003700")
    ensures DifferOnlyAt("00000000003700", "00006000003700", 4) && ValidCnpj("00000000003700") && ValidCnpj("00006000003700")
  {
    hide ValidCnpj, WeightedSum, Normalize;
    var a, b := "00000000003700", "00006000003700";
    assert b[4] != b[1] && !Repeated(b);
    OneCnpjFlip(a, b, 4);
  }
}
