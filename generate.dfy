/** `gen_random_cpf` and `gen_random_cnpj`: a random base followed by the
    check digits the engine computes for it. */
module Generate {
  import opened Digits
  import opened CheckDigits
  import opened Format
  import opened Validate

  /** Python's optional argument: `None` or a value. */
  datatype Option<T> = None | Some(value: T)

  /** `gen_random_cpf`: nine random digits followed by their check digits.
      Whatever the draws, the result is a correct CPF that the validator
      accepts bare and formatted. */
  method GenRandomCpf() returns (cpf: string)
    ensures IsCpfNumber(cpf)
    ensures IsCpfValid(cpf) && IsCpfValid(FormatCpf(cpf))
  {
    var base := GenRandomString(9);
    var check := ComputeCpfValidation(base);
    cpf := base + check.value;
    assert cpf[..9] == base && cpf[9..] == check.value;
    CpfCheckDigitsOfBase(base, cpf);
    CpfValidOnDigits(cpf);
  }

  /** `gen_random_cnpj`: twelve random digits, or eight random digits and the
      unit number modulo 1000 zero-padded to four, followed by their check
      digits. The result is a correct CNPJ that the validator accepts bare
      and formatted; with a unit, positions 8 to 11 spell `unit % 1000`,
      which always leaves a '0' in position 8. */
  method GenRandomCnpj(unit: Option<int>) returns (cnpj: string)
    ensures IsCnpjNumber(cnpj)
    ensures IsCnpjValid(cnpj) && IsCnpjValid(FormatCnpj(cnpj))
    ensures unit.Some? ==> cnpj[8..12] == ZeroPad(unit.value % 1000, 4)
    ensures unit.Some? ==> cnpj[8] == '0' && DecimalValue(cnpj[8..12]) == unit.value % 1000
  {
    var base: string;
    if unit == None {
      base := GenRandomString(12);
    } else {
      var branch := GenRandomString(8);
      var n := unit.value % 1000;
      assert n < Pow10(3) < Pow10(4) by { assert Pow10(3) == 1000; }
      base := branch + ZeroPad(n, 4);
      assert base[8..12] == ZeroPad(n, 4);
      ZeroPadLeadingZero(n, 4);
      ZeroPadValue(n, 4);
    }
    var check := ComputeCnpjValidation(base);
    cnpj := base + check.value;
    assert cnpj[..12] == base && cnpj[12..] == check.value;
    assert cnpj[8..12] == base[8..12];
    CnpjCheckDigitsOfBase(base, cnpj);
    CnpjValidOnDigits(cnpj);
  }
}
