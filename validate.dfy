/** `is_cpf_valid` and `is_cnpj_valid`: a shape test with anchored regular
    expressions, then a comparison of the trailing two digits with the check
    digits recomputed from the base. */
module Validate {
  import opened Digits
  import opened CheckDigits
  import opened Format

  /** `re.match('^P$', s)` for the pattern of `shape`. The match starts at the
      front of `s`, and `$` matches at the end of the string or just before a
      newline that ends it, so one trailing "\n" is let through. */
  predicate MatchesAnchored(shape: Shape, s: string) {
    || HasShape(shape, s)
    || (0 < |s| && s[|s| - 1] == '\n' && HasShape(shape, s[..|s| - 1]))
  }

  /** The spellings of a number that its validator matches: bare, formatted,
      and either one followed by a single newline. */
  function CpfSpellings(d: string): (spellings: set<string>) {
    {d, FormatCpf(d), d + "\n", FormatCpf(d) + "\n"}
  }

  function CnpjSpellings(d: string): (spellings: set<string>) {
    {d, FormatCnpj(d), d + "\n", FormatCnpj(d) + "\n"}
  }

  /** An eleven-digit CPF whose last two digits are the check digits of its first nine. */
  predicate IsCpfNumber(d: string) {
    HasShape(CpfBare, d) && d[9..] == CpfCheckDigits(d)
  }

  /** A fourteen-digit CNPJ whose last two digits are the check digits of its first twelve. */
  predicate IsCnpjNumber(d: string) {
    HasShape(CnpjBare, d) && d[12..] == CnpjCheckDigits(d)
  }

  /** A string that passes the CPF shape test strips to eleven digits, and is
      one of the spellings of those digits. */
  lemma CpfShapeDigits(s: string)
    requires MatchesAnchored(CpfPunctuated, s) || MatchesAnchored(CpfBare, s)
    ensures HasShape(CpfBare, RemoveNonDigits(s))
    ensures s in CpfSpellings(RemoveNonDigits(s))
  {
    var body := if HasShape(CpfPunctuated, s) || HasShape(CpfBare, s) then s else s[..|s| - 1];
    if HasShape(CpfPunctuated, body) {
      ParseCpf(body);
    } else {
      RemoveNonDigitsFixedPoint(body);
    }
    var d := RemoveNonDigits(body);
    assert body == d || body == FormatCpf(d);
    if body != s {
      assert s == body + "\n";
      RemoveNonDigitsAppend(body, "\n");
      assert RemoveNonDigits("\n") == [];
      assert RemoveNonDigits(s) == d;
    }
  }

  /** A string that passes the CNPJ shape test strips to fourteen digits, and
      is one of the spellings of those digits. */
  lemma CnpjShapeDigits(s: string)
    requires MatchesAnchored(CnpjPunctuated, s) || MatchesAnchored(CnpjBare, s)
    ensures HasShape(CnpjBare, RemoveNonDigits(s))
    ensures s in CnpjSpellings(RemoveNonDigits(s))
  {
    var body := if HasShape(CnpjPunctuated, s) || HasShape(CnpjBare, s) then s else s[..|s| - 1];
    if HasShape(CnpjPunctuated, body) {
      ParseCnpj(body);
    } else {
      RemoveNonDigitsFixedPoint(body);
    }
    var d := RemoveNonDigits(body);
    assert body == d || body == FormatCnpj(d);
    if body != s {
      assert s == body + "\n";
      RemoveNonDigitsAppend(body, "\n");
      assert RemoveNonDigits("\n") == [];
      assert RemoveNonDigits(s) == d;
    }
  }

  /** `is_cpf_valid`: false unless `cpf` matches `^ddd.ddd.ddd-dd$` or
      `^d{11}$`; otherwise strip it and compare `[9:12]` with the check digits
      of the first nine digits. Never raises: the shape test guarantees the
      nine digits that `compute_cpf_validation` needs. */
  function IsCpfValid(cpf: string): (valid: bool)
    ensures valid <==>
      && (MatchesAnchored(CpfPunctuated, cpf) || MatchesAnchored(CpfBare, cpf))
      && IsCpfNumber(RemoveNonDigits(cpf))
  {
    if !MatchesAnchored(CpfPunctuated, cpf) && !MatchesAnchored(CpfBare, cpf) then false
    else
      var digits := RemoveNonDigits(cpf);
      CpfShapeDigits(cpf);
      PySlice(digits, 9, 12) == CpfCheckDigits(digits)
  }

  /** `is_cnpj_valid`: false unless `cnpj` matches `^dd.ddd.ddd/dddd-dd$` or
      `^d{14}$`; otherwise strip it and compare `[12:14]` with the check
      digits of the first twelve digits. */
  function IsCnpjValid(cnpj: string): (valid: bool)
    ensures valid <==>
      && (MatchesAnchored(CnpjPunctuated, cnpj) || MatchesAnchored(CnpjBare, cnpj))
      && IsCnpjNumber(RemoveNonDigits(cnpj))
  {
    if !MatchesAnchored(CnpjPunctuated, cnpj) && !MatchesAnchored(CnpjBare, cnpj) then false
    else
      var digits := RemoveNonDigits(cnpj);
      CnpjShapeDigits(cnpj);
      PySlice(digits, 12, 14) == CnpjCheckDigits(digits)
  }

  /** Every spelling of an eleven-digit string passes the CPF shape test and
      strips back to that string. */
  lemma CpfSpellingsMatch(d: string, s: string)
    requires HasShape(CpfBare, d) && s in CpfSpellings(d)
    ensures MatchesAnchored(CpfBare, s) || MatchesAnchored(CpfPunctuated, s)
    ensures RemoveNonDigits(s) == d
  {
    FormatCpfShape(d);
    FormatCpfRoundTrip(d);
    RemoveNonDigitsFixedPoint(d);
    var body := if s == d || s == FormatCpf(d) then s else s[..|s| - 1];
    if body != s {
      assert s == body + "\n";
      RemoveNonDigitsAppend(body, "\n");
      assert RemoveNonDigits("\n") == [];
    }
  }

  /** Every spelling of a fourteen-digit string passes the CNPJ shape test
      and strips back to that string. */
  lemma CnpjSpellingsMatch(d: string, s: string)
    requires HasShape(CnpjBare, d) && s in CnpjSpellings(d)
    ensures MatchesAnchored(CnpjBare, s) || MatchesAnchored(CnpjPunctuated, s)
    ensures RemoveNonDigits(s) == d
  {
    FormatCnpjShape(d);
    FormatCnpjRoundTrip(d);
    RemoveNonDigitsFixedPoint(d);
    var body := if s == d || s == FormatCnpj(d) then s else s[..|s| - 1];
    if body != s {
      assert s == body + "\n";
      RemoveNonDigitsAppend(body, "\n");
      assert RemoveNonDigits("\n") == [];
    }
  }

  /** The CPF validator accepts exactly the spellings of correct CPF numbers. */
  lemma CpfValidIffSpelling(s: string)
    ensures IsCpfValid(s) <==> exists d :: IsCpfNumber(d) && s in CpfSpellings(d)
  {
    if IsCpfValid(s) {
      CpfShapeDigits(s);
      assert IsCpfNumber(RemoveNonDigits(s));
    }
    if exists d :: IsCpfNumber(d) && s in CpfSpellings(d) {
      var d :| IsCpfNumber(d) && s in CpfSpellings(d);
      CpfSpellingsMatch(d, s);
    }
  }

  /** The CNPJ validator accepts exactly the spellings of correct CNPJ numbers. */
  lemma CnpjValidIffSpelling(s: string)
    ensures IsCnpjValid(s) <==> exists d :: IsCnpjNumber(d) && s in CnpjSpellings(d)
  {
    if IsCnpjValid(s) {
      CnpjShapeDigits(s);
      assert IsCnpjNumber(RemoveNonDigits(s));
    }
    if exists d :: IsCnpjNumber(d) && s in CnpjSpellings(d) {
      var d :| IsCnpjNumber(d) && s in CnpjSpellings(d);
      CnpjSpellingsMatch(d, s);
    }
  }

  /** On eleven digits, bare or formatted, the validator's verdict is whether
      the last two digits are the check digits. */
  lemma CpfValidOnDigits(d: string)
    requires HasShape(CpfBare, d)
    ensures IsCpfValid(d) <==> IsCpfNumber(d)
    ensures IsCpfValid(FormatCpf(d)) <==> IsCpfNumber(d)
  {
    CpfSpellingsMatch(d, d);
    CpfSpellingsMatch(d, FormatCpf(d));
  }

  /** On fourteen digits, bare or formatted, the validator's verdict is
      whether the last two digits are the check digits. */
  lemma CnpjValidOnDigits(d: string)
    requires HasShape(CnpjBare, d)
    ensures IsCnpjValid(d) <==> IsCnpjNumber(d)
    ensures IsCnpjValid(FormatCnpj(d)) <==> IsCnpjNumber(d)
  {
    CnpjSpellingsMatch(d, d);
    CnpjSpellingsMatch(d, FormatCnpj(d));
  }

  /** The mutation of the test suite: the base digits kept, and the two check
      digits `x` replaced by `'{0:02d}'.format((int(x) + 1) % 100)`. */
  function BumpCheckDigits(d: string, base: nat): (m: string)
    requires |d| == base + 2 && AllDigits(d)
  {
    assert Pow10(2) == 100;
    d[..base] + ZeroPad((DecimalValue(d[base..]) + 1) % 100, 2)
  }

  /** The bump keeps the base digits and always changes the check digits. */
  lemma BumpChangesCheckDigits(d: string, base: nat)
    requires |d| == base + 2 && AllDigits(d)
    ensures var m := BumpCheckDigits(d, base);
      |m| == |d| && AllDigits(m) && m[..base] == d[..base] && m[base..] != d[base..]
  {
    var x := DecimalValue(d[base..]);
    assert x < 100 by { assert Pow10(2) == 100; }
    var y := (x + 1) % 100;
    assert y != x;
    assert y < Pow10(2) by { assert Pow10(2) == 100; }
    var bumped := ZeroPad(y, 2);
    assert DecimalValue(bumped) == y by { ZeroPadValue(y, 2); }
    var m := BumpCheckDigits(d, base);
    assert m == d[..base] + bumped;
    assert m[base..] == bumped && m[..base] == d[..base];
  }

  /** A correct CPF with its check digits bumped is rejected, bare and formatted. */
  lemma CpfBumpRejected(d: string)
    requires IsCpfNumber(d)
    ensures !IsCpfValid(BumpCheckDigits(d, 9))
    ensures !IsCpfValid(FormatCpf(BumpCheckDigits(d, 9)))
  {
    var m := BumpCheckDigits(d, 9);
    BumpChangesCheckDigits(d, 9);
    CpfCheckDigitsOfBase(d, m);
    CpfValidOnDigits(m);
  }

  /** A correct CNPJ with its check digits bumped is rejected, bare and formatted. */
  lemma CnpjBumpRejected(d: string)
    requires IsCnpjNumber(d)
    ensures !IsCnpjValid(BumpCheckDigits(d, 12))
    ensures !IsCnpjValid(FormatCnpj(BumpCheckDigits(d, 12)))
  {
    var m := BumpCheckDigits(d, 12);
    BumpChangesCheckDigits(d, 12);
    CnpjCheckDigitsOfBase(d, m);
    CnpjValidOnDigits(m);
  }

  /** The malformed CPF inputs of the test suite fail both shape tests. */
  lemma MalformedCpfShapes()
    ensures !MatchesAnchored(CpfPunctuated, "37.7984.551-24") && !MatchesAnchored(CpfBare, "37.7984.551-24")
    ensures !MatchesAnchored(CpfPunctuated, "377984.551-24") && !MatchesAnchored(CpfBare, "377984.551-24")
    ensures !MatchesAnchored(CpfPunctuated, "377.A84.551-24") && !MatchesAnchored(CpfBare, "377.A84.551-24")
    ensures !MatchesAnchored(CpfPunctuated, "3779845512") && !MatchesAnchored(CpfBare, "3779845512")
    ensures !MatchesAnchored(CpfPunctuated, "377984551A4") && !MatchesAnchored(CpfBare, "377984551A4")
    ensures !MatchesAnchored(CpfPunctuated, "377984551241") && !MatchesAnchored(CpfBare, "377984551241")
  {
    assert "377.A84.551-24"[4..7][0] == 'A';
    assert "377984551A4"[9] == 'A';
  }

  /** The malformed CNPJ inputs of the test suite fail both shape tests. */
  lemma MalformedCnpjShapes()
    ensures !MatchesAnchored(CnpjPunctuated, "431.35.870/0001-80") && !MatchesAnchored(CnpjBare, "431.35.870/0001-80")
    ensures !MatchesAnchored(CnpjPunctuated, "43.135.8700001-80") && !MatchesAnchored(CnpjBare, "43.135.8700001-80")
    ensures !MatchesAnchored(CnpjPunctuated, "43.135.870/000180") && !MatchesAnchored(CnpjBare, "43.135.870/000180")
    ensures !MatchesAnchored(CnpjPunctuated, "43.135.A70/0001-80") && !MatchesAnchored(CnpjBare, "43.135.A70/0001-80")
    ensures !MatchesAnchored(CnpjPunctuated, "4313587000018") && !MatchesAnchored(CnpjBare, "4313587000018")
    ensures !MatchesAnchored(CnpjPunctuated, "431358700001a0") && !MatchesAnchored(CnpjBare, "431358700001a0")
    ensures !MatchesAnchored(CnpjPunctuated, "431358700001801") && !MatchesAnchored(CnpjBare, "431358700001801")
  {
    assert "43.135.A70/0001-80"[7..10][0] == 'A';
    assert "431358700001a0"[12] == 'a';
  }

  /** The malformed CPF inputs of the test suite are rejected. */
  lemma MalformedCpfRejected()
    ensures !IsCpfValid("37.7984.551-24") && !IsCpfValid("377984.551-24")
    ensures !IsCpfValid("377.A84.551-24") && !IsCpfValid("3779845512")
    ensures !IsCpfValid("377984551A4") && !IsCpfValid("377984551241")
  {
    MalformedCpfShapes();
  }

  /** The malformed CNPJ inputs of the test suite are rejected. */
  lemma MalformedCnpjRejected()
    ensures !IsCnpjValid("431.35.870/0001-80") && !IsCnpjValid("43.135.8700001-80")
    ensures !IsCnpjValid("43.135.870/000180") && !IsCnpjValid("43.135.A70/0001-80")
    ensures !IsCnpjValid("4313587000018") && !IsCnpjValid("431358700001a0")
    ensures !IsCnpjValid("431358700001801")
  {
    MalformedCnpjShapes();
  }
}
