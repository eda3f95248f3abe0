/** The Receita Federal modulo-11 check-digit engines, `compute_cpf_validation`
    and `compute_cnpj_validation`. Each is a loop accumulating two weighted
    sums; the functions below state what those loops compute. */
module CheckDigits {
  import opened Digits

  /** The outcome of an engine: its two check digits, or the `ValueError` it raises. */
  datatype Result<T> = Ok(value: T) | ValueError(message: string)

  const CpfTooShort := "The CPF must have at least 9 digits."
  const CnpjTooShort := "The CNPJ must have at least 12 digits."

  /** The four weight tables of the two engines: one per check digit. */
  datatype Weights = CpfFirst | CpfSecond | CnpjFirst | CnpjSecond

  /** Weight of base digit `i` in each table: 10, 9, ..., 2 and 11, 10, ..., 3
      for the CPF; the cyclic 9 - ((i + 4) % 8) and 9 - ((i + 3) % 8) for the
      CNPJ. */
  function Weight(w: Weights, i: nat): (weight: int) {
    match w
    case CpfFirst => 10 - i
    case CpfSecond => 11 - i
    case CnpjFirst => 9 - ((i + 4) % 8)
    case CnpjSecond => 9 - ((i + 3) % 8)
  }

  /** The CNPJ weights spelled out position by position. */
  lemma CnpjWeightTables()
    ensures seq(12, i requires 0 <= i => Weight(CnpjFirst, i)) == [5, 4, 3, 2, 9, 8, 7, 6, 5, 4, 3, 2]
    ensures seq(12, i requires 0 <= i => Weight(CnpjSecond, i)) == [6, 5, 4, 3, 2, 9, 8, 7, 6, 5, 4, 3]
  {
  }

  /** Sum of `DigitValue(s[i]) * Weight(w, i)` over the first `n` digits of `s`. */
  function WeightedSum(s: string, n: nat, w: Weights): (total: int)
    requires HasDigitPrefix(s, n)
  {
    if n == 0 then 0
    else WeightedSum(s, n - 1, w) + DigitValue(s[n - 1]) * Weight(w, n - 1)
  }

  /** One check digit from its weighted sum: `11 - sum % 11`, clamped to 0
      when that exceeds 9. The digit is 0 exactly when the remainder is 0 or 1;
      otherwise it is the digit that brings the sum to a multiple of 11. */
  function CheckDigit(sum: int): (d: nat)
    ensures d <= 9
    ensures d == 0 <==> sum % 11 < 2
    ensures sum % 11 >= 2 ==> (sum + d) % 11 == 0
  {
    var d := 11 - sum % 11;
    if d > 9 then 0 else d
  }

  /** The two CPF check digits of the base `s[0:9]`; the first check digit
      enters the second sum with weight 2. */
  function CpfCheckDigits(s: string): (r: string)
    requires HasDigitPrefix(s, 9)
    ensures |r| == 2 && AllDigits(r)
  {
    var d1 := CheckDigit(WeightedSum(s, 9, CpfFirst));
    var d2 := CheckDigit(WeightedSum(s, 9, CpfSecond) + d1 * 2);
    [DigitChar(d1), DigitChar(d2)]
  }

  /** The two CNPJ check digits of the base `s[0:12]`; the first check digit
      enters the second sum with weight 2. */
  function CnpjCheckDigits(s: string): (r: string)
    requires HasDigitPrefix(s, 12)
    ensures |r| == 2 && AllDigits(r)
  {
    var d1 := CheckDigit(WeightedSum(s, 12, CnpjFirst));
    var d2 := CheckDigit(WeightedSum(s, 12, CnpjSecond) + d1 * 2);
    [DigitChar(d1), DigitChar(d2)]
  }

  /** A weighted sum reads only the first `n` characters. */
  lemma {:induction false} WeightedSumOfPrefix(s: string, t: string, n: nat, w: Weights)
    requires HasDigitPrefix(s, n) && n <= |t| && s[..n] == t[..n]
    ensures HasDigitPrefix(t, n)
    ensures WeightedSum(s, n, w) == WeightedSum(t, n, w)
  {
    forall i | 0 <= i < n
      ensures t[i] == s[i]
    {
      assert t[..n][i] == s[..n][i];
    }
    if n > 0 {
      assert s[..n - 1] == s[..n][..n - 1];
      assert t[..n - 1] == t[..n][..n - 1];
      WeightedSumOfPrefix(s, t, n - 1, w);
    }
  }

  /** The CPF check digits depend only on `s[0:9]`. */
  lemma CpfCheckDigitsOfBase(s: string, t: string)
    requires HasDigitPrefix(s, 9) && 9 <= |t| && s[..9] == t[..9]
    ensures HasDigitPrefix(t, 9) && CpfCheckDigits(s) == CpfCheckDigits(t)
  {
    WeightedSumOfPrefix(s, t, 9, CpfFirst);
    WeightedSumOfPrefix(s, t, 9, CpfSecond);
  }

  /** The CNPJ check digits depend only on `s[0:12]`. */
  lemma CnpjCheckDigitsOfBase(s: string, t: string)
    requires HasDigitPrefix(s, 12) && 12 <= |t| && s[..12] == t[..12]
    ensures HasDigitPrefix(t, 12) && CnpjCheckDigits(s) == CnpjCheckDigits(t)
  {
    WeightedSumOfPrefix(s, t, 12, CnpjFirst);
    WeightedSumOfPrefix(s, t, 12, CnpjSecond);
  }

  /** The example CPF 111.444.777-35. */
  lemma CpfCheckDigitsExample()
    ensures CpfCheckDigits("111444777") == "35"
  {
    var s := "111444777";
    assert WeightedSum(s, 9, CpfFirst) == 162 by {
      assert WeightedSum(s, 3, CpfFirst) == 27;
      assert WeightedSum(s, 6, CpfFirst) == 99;
    }
    assert WeightedSum(s, 9, CpfSecond) == 198 by {
      assert WeightedSum(s, 3, CpfSecond) == 30;
      assert WeightedSum(s, 6, CpfSecond) == 114;
    }
  }

  lemma CnpjExampleSums()
    ensures WeightedSum("112223330001", 12, CnpjFirst) == 102
    ensures WeightedSum("112223330001", 12, CnpjSecond) == 104
  {
    var s := "112223330001";
    assert WeightedSum(s, 4, CnpjFirst) == 19;
    assert WeightedSum(s, 8, CnpjFirst) == 100;
    assert WeightedSum(s, 4, CnpjSecond) == 25;
    assert WeightedSum(s, 8, CnpjSecond) == 101;
  }

  /** The example CNPJ 11.222.333/0001-81. */
  lemma CnpjCheckDigitsExample()
    ensures CnpjCheckDigits("112223330001") == "81"
  {
    CnpjExampleSums();
  }

  /** `compute_cpf_validation`: raises `ValueError` unless the first 9
      characters are digits, and otherwise returns the two check digits of
      that base as a two-character string. */
  method ComputeCpfValidation(cpf: string) returns (r: Result<string>)
    ensures r.ValueError? <==> !HasDigitPrefix(cpf, 9)
    ensures r.ValueError? ==> r.message == CpfTooShort
    ensures r.Ok? ==> r.value == CpfCheckDigits(cpf)
  {
    if !HasDigitPrefix(cpf, 9) {
      return ValueError(CpfTooShort);
    }
    var v1, v2 := 0, 0;
    for i := 0 to 9
      invariant v1 == WeightedSum(cpf, i, CpfFirst)
      invariant v2 == WeightedSum(cpf, i, CpfSecond)
    {
      var c := DigitValue(cpf[i]);
      v1 := v1 + c * (10 - i);
      v2 := v2 + c * (11 - i);
    }
    v1 := 11 - (v1 % 11);
    if v1 > 9 {
      v1 := 0;
    }
    v2 := 11 - ((v2 + v1 * 2) % 11);
    if v2 > 9 {
      v2 := 0;
    }
    r := Ok([DigitChar(v1), DigitChar(v2)]);
  }

  /** `compute_cnpj_validation`: raises `ValueError` unless the first 12
      characters are digits, and otherwise returns the two check digits of
      that base, computed with the cyclic weights 9 - ((i + 4) % 8) and
      9 - ((i + 3) % 8). */
  method ComputeCnpjValidation(cnpj: string) returns (r: Result<string>)
    ensures r.ValueError? <==> !HasDigitPrefix(cnpj, 12)
    ensures r.ValueError? ==> r.message == CnpjTooShort
    ensures r.Ok? ==> r.value == CnpjCheckDigits(cnpj)
  {
    if !HasDigitPrefix(cnpj, 12) {
      return ValueError(CnpjTooShort);
    }
    var v1, v2 := 0, 0;
    for i := 0 to 12
      invariant v1 == WeightedSum(cnpj, i, CnpjFirst)
      invariant v2 == WeightedSum(cnpj, i, CnpjSecond)
    {
      var c := DigitValue(cnpj[i]);
      var m1 := 9 - ((i + 4) % 8);
      var m2 := 9 - ((i + 3) % 8);
      v1 := v1 + c * m1;
      v2 := v2 + c * m2;
    }
    v1 := 11 - (v1 % 11);
    if v1 > 9 {
      v1 := 0;
    }
    v2 := 11 - ((v2 + v1 * 2) % 11);
    if v2 > 9 {
      v2 := 0;
    }
    r := Ok([DigitChar(v1), DigitChar(v2)]);
  }
}
