/** `format_cpf` and `format_cnpj`, and the four string shapes the
    validators recognise: punctuated and bare, for CPF and for CNPJ. */
module Format {
  import opened Digits

  /** The four shapes, one per anchored pattern of the validators. */
  datatype Shape = CpfPunctuated | CpfBare | CnpjPunctuated | CnpjBare

  /** `s` has the shape in full: `ddd.ddd.ddd-dd`, eleven digits,
      `dd.ddd.ddd/dddd-dd` or fourteen digits, each `d` a `[0-9]`. */
  predicate HasShape(shape: Shape, s: string) {
    match shape
    case CpfPunctuated =>
      && |s| == 14
      && AllDigits(s[..3]) && s[3] == '.'
      && AllDigits(s[4..7]) && s[7] == '.'
      && AllDigits(s[8..11]) && s[11] == '-'
      && AllDigits(s[12..])
    case CpfBare => |s| == 11 && AllDigits(s)
    case CnpjPunctuated =>
      && |s| == 18
      && AllDigits(s[..2]) && s[2] == '.'
      && AllDigits(s[3..6]) && s[6] == '.'
      && AllDigits(s[7..10]) && s[10] == '/'
      && AllDigits(s[11..15]) && s[15] == '-'
      && AllDigits(s[16..])
    case CnpjBare => |s| == 14 && AllDigits(s)
  }

  /** `format_cpf`: the slices `[0:3]`, `[3:6]`, `[6:9]`, `[9:12]` joined by
      '.', '.', '-'. Slicing is Python's, so a short or long input is cut
      rather than rejected. */
  function FormatCpf(cpf: string): (r: string)
    ensures |cpf| == 11 ==> |r| == 14 && r[3] == '.' && r[7] == '.' && r[11] == '-'
  {
    PySlice(cpf, 0, 3) + "." + PySlice(cpf, 3, 6) + "." + PySlice(cpf, 6, 9) + "-" + PySlice(cpf, 9, 12)
  }

  /** `format_cnpj`: the slices `[0:2]`, `[2:5]`, `[5:8]`, `[8:12]`, `[12:14]`
      joined by '.', '.', '/', '-'. */
  function FormatCnpj(cnpj: string): (r: string)
    ensures |cnpj| == 14 ==> |r| == 18 && r[2] == '.' && r[6] == '.' && r[10] == '/' && r[15] == '-'
  {
    PySlice(cnpj, 0, 2) + "." + PySlice(cnpj, 2, 5) + "." + PySlice(cnpj, 5, 8) + "/"
      + PySlice(cnpj, 8, 12) + "-" + PySlice(cnpj, 12, 14)
  }

  /** Stripping a digit block followed by a separator keeps the block. */
  lemma RemoveNonDigitsBlock(block: string, sep: char, rest: string)
    requires AllDigits(block) && !IsDigit(sep)
    ensures RemoveNonDigits(block + [sep] + rest) == block + RemoveNonDigits(rest)
  {
    var tail := [sep] + rest;
    assert tail[0] == sep && tail[1..] == rest;
    assert RemoveNonDigits(tail) == RemoveNonDigits(rest);
    assert block + [sep] + rest == block + tail;
    RemoveNonDigitsAppend(block, tail);
    RemoveNonDigitsFixedPoint(block);
  }

  /** `format_cpf` of eleven characters is their four blocks joined by the separators. */
  lemma FormatCpfBlocks(d: string)
    requires |d| == 11
    ensures FormatCpf(d) == d[..3] + ['.'] + (d[3..6] + ['.'] + (d[6..9] + ['-'] + d[9..]))
  {
    assert PySlice(d, 0, 3) == d[..3] && PySlice(d, 3, 6) == d[3..6];
    assert PySlice(d, 6, 9) == d[6..9] && PySlice(d, 9, 12) == d[9..];
  }

  /** `format_cnpj` of fourteen characters is their five blocks joined by the separators. */
  lemma FormatCnpjBlocks(d: string)
    requires |d| == 14
    ensures FormatCnpj(d)
      == d[..2] + ['.'] + (d[2..5] + ['.'] + (d[5..8] + ['/'] + (d[8..12] + ['-'] + d[12..])))
  {
    assert PySlice(d, 0, 2) == d[..2] && PySlice(d, 2, 5) == d[2..5] && PySlice(d, 5, 8) == d[5..8];
    assert PySlice(d, 8, 12) == d[8..12] && PySlice(d, 12, 14) == d[12..];
  }

  /** Stripping four digit blocks joined by the CPF separators gives the blocks run together. */
  lemma StripCpfBlocks(a: string, b: string, c: string, e: string)
    requires AllDigits(a) && AllDigits(b) && AllDigits(c) && AllDigits(e)
    ensures RemoveNonDigits(a + ['.'] + (b + ['.'] + (c + ['-'] + e))) == a + (b + (c + e))
  {
    RemoveNonDigitsFixedPoint(e);
    RemoveNonDigitsBlock(c, '-', e);
    RemoveNonDigitsBlock(b, '.', c + ['-'] + e);
    RemoveNonDigitsBlock(a, '.', b + ['.'] + (c + ['-'] + e));
  }

  /** Stripping five digit blocks joined by the CNPJ separators gives the blocks run together. */
  lemma StripCnpjBlocks(a: string, b: string, c: string, e: string, f: string)
    requires AllDigits(a) && AllDigits(b) && AllDigits(c) && AllDigits(e) && AllDigits(f)
    ensures RemoveNonDigits(a + ['.'] + (b + ['.'] + (c + ['/'] + (e + ['-'] + f)))) == a + (b + (c + (e + f)))
  {
    RemoveNonDigitsFixedPoint(f);
    RemoveNonDigitsBlock(e, '-', f);
    RemoveNonDigitsBlock(c, '/', e + ['-'] + f);
    RemoveNonDigitsBlock(b, '.', c + ['/'] + (e + ['-'] + f));
    RemoveNonDigitsBlock(a, '.', b + ['.'] + (c + ['/'] + (e + ['-'] + f)));
  }

  /** Formatting eleven digits gives the punctuated CPF shape. */
  lemma FormatCpfShape(d: string)
    requires HasShape(CpfBare, d)
    ensures HasShape(CpfPunctuated, FormatCpf(d))
  {
    var r := FormatCpf(d);
    FormatCpfBlocks(d);
    assert r[..3] == d[..3] && r[4..7] == d[3..6];
    assert r[8..11] == d[6..9] && r[12..] == d[9..];
  }

  /** Stripping the formatting of eleven digits gives back the digits. */
  lemma FormatCpfRoundTrip(d: string)
    requires HasShape(CpfBare, d)
    ensures RemoveNonDigits(FormatCpf(d)) == d
  {
    FormatCpfBlocks(d);
    StripCpfBlocks(d[..3], d[3..6], d[6..9], d[9..]);
    assert d[..3] + (d[3..6] + (d[6..9] + d[9..])) == d;
  }

  /** Formatting fourteen digits gives the punctuated CNPJ shape. */
  lemma FormatCnpjShape(d: string)
    requires HasShape(CnpjBare, d)
    ensures HasShape(CnpjPunctuated, FormatCnpj(d))
  {
    var r := FormatCnpj(d);
    FormatCnpjBlocks(d);
    assert r[..2] == d[..2] && r[3..6] == d[2..5] && r[7..10] == d[5..8];
    assert r[11..15] == d[8..12] && r[16..] == d[12..];
  }

  /** Stripping the formatting of fourteen digits gives back the digits. */
  lemma FormatCnpjRoundTrip(d: string)
    requires HasShape(CnpjBare, d)
    ensures RemoveNonDigits(FormatCnpj(d)) == d
  {
    FormatCnpjBlocks(d);
    StripCnpjBlocks(d[..2], d[2..5], d[5..8], d[8..12], d[12..]);
    assert d[..2] + (d[2..5] + (d[5..8] + (d[8..12] + d[12..]))) == d;
  }

  /** Every punctuated CPF is the formatting of its own digits, so stripping
      and formatting are mutually inverse between the two CPF shapes. */
  lemma ParseCpf(s: string)
    requires HasShape(CpfPunctuated, s)
    ensures HasShape(CpfBare, RemoveNonDigits(s))
    ensures FormatCpf(RemoveNonDigits(s)) == s
  {
    var a, b, c, e := s[..3], s[4..7], s[8..11], s[12..];
    var d := a + b + c + e;
    assert HasShape(CpfBare, d) by {
      forall i | 0 <= i < 11
        ensures IsDigit(d[i])
      {
        if i < 3 { assert d[i] == a[i]; }
        else if i < 6 { assert d[i] == b[i - 3]; }
        else if i < 9 { assert d[i] == c[i - 6]; }
        else { assert d[i] == e[i - 9]; }
      }
    }
    assert d[..3] == a && d[3..6] == b && d[6..9] == c && d[9..] == e;
    FormatCpfBlocks(d);
    assert s == a + [s[3]] + b + [s[7]] + c + [s[11]] + e;
    FormatCpfRoundTrip(d);
  }

  /** Every punctuated CNPJ is the formatting of its own digits. */
  lemma ParseCnpj(s: string)
    requires HasShape(CnpjPunctuated, s)
    ensures HasShape(CnpjBare, RemoveNonDigits(s))
    ensures FormatCnpj(RemoveNonDigits(s)) == s
  {
    var a, b, c, e, f := s[..2], s[3..6], s[7..10], s[11..15], s[16..];
    var d := a + b + c + e + f;
    assert HasShape(CnpjBare, d) by {
      forall i | 0 <= i < 14
        ensures IsDigit(d[i])
      {
        if i < 2 { assert d[i] == a[i]; }
        else if i < 5 { assert d[i] == b[i - 2]; }
        else if i < 8 { assert d[i] == c[i - 5]; }
        else if i < 12 { assert d[i] == e[i - 8]; }
        else { assert d[i] == f[i - 12]; }
      }
    }
    assert d[..2] == a && d[2..5] == b && d[5..8] == c && d[8..12] == e && d[12..] == f;
    FormatCnpjBlocks(d);
    assert s == a + [s[2]] + b + [s[6]] + c + [s[10]] + e + [s[15]] + f;
    FormatCnpjRoundTrip(d);
  }
}
