/** Character and digit-string helpers of the CPF/CNPJ library: the `[0-9]`
    character class, decimal values and zero padding, Python slicing,
    `remove_non_digits` and `gen_random_string`. */
module Digits {

  /** The regular-expression class `[0-9]`: ASCII decimal digits only. */
  predicate IsDigit(c: char) {
    '0' <= c <= '9'
  }

  predicate AllDigits(s: string) {
    forall i :: 0 <= i < |s| ==> IsDigit(s[i])
  }

  /** The first `n` characters of `s` exist and are digits. This is what the
      start-anchored `re.match('[0-9]{n,m}', s)` tests: the match needs `n`
      digits at the front and ignores whatever follows them. */
  predicate HasDigitPrefix(s: string, n: nat) {
    n <= |s| && forall i :: 0 <= i < n ==> IsDigit(s[i])
  }

  /** `int(c)` for a one-character digit string. */
  function DigitValue(c: char): (v: nat)
    requires IsDigit(c)
    ensures v <= 9
  {
    c as int - '0' as int
  }

  /** `str(v)` for a single decimal digit `v`. */
  function DigitChar(v: nat): (c: char)
    requires v <= 9
    ensures IsDigit(c) && DigitValue(c) == v
  {
    ('0' as int + v) as char
  }

  function Pow10(n: nat): (p: nat)
    ensures p >= 1
  {
    if n == 0 then 1 else 10 * Pow10(n - 1)
  }

  /** `int(s)` for a non-empty string of digits; the empty string has value 0. */
  function DecimalValue(s: string): (v: nat)
    requires AllDigits(s)
    ensures v < Pow10(|s|)
  {
    if s == [] then 0
    else
      var high := DecimalValue(s[..|s| - 1]);
      assert high * 10 <= (Pow10(|s| - 1) - 1) * 10;
      high * 10 + DigitValue(s[|s| - 1])
  }

  /** `'{0:0<width>d}'.format(n)` for `0 <= n < 10^width`: `n` in decimal,
      left-padded with '0' to exactly `width` characters. */
  function ZeroPad(n: nat, width: nat): (r: string)
    requires n < Pow10(width)
    ensures |r| == width && AllDigits(r)
  {
    if width == 0 then []
    else ZeroPad(n / 10, width - 1) + [DigitChar(n % 10)]
  }

  /** Reading a zero-padded number back gives the number: `int('{0:04d}'.format(n)) == n`. */
  lemma {:induction false} ZeroPadValue(n: nat, width: nat)
    requires n < Pow10(width)
    ensures DecimalValue(ZeroPad(n, width)) == n
  {
    if width > 0 {
      var r := ZeroPad(n, width);
      ZeroPadValue(n / 10, width - 1);
      assert r[..width - 1] == ZeroPad(n / 10, width - 1);
      assert r[width - 1] == DigitChar(n % 10);
    }
  }

  /** A number below `10^(width-1)` padded to `width` characters starts with '0'. */
  lemma {:induction false} ZeroPadLeadingZero(n: nat, width: nat)
    requires 0 < width && n < Pow10(width - 1)
    ensures ZeroPad(n, width)[0] == '0'
  {
    if width > 1 {
      ZeroPadLeadingZero(n / 10, width - 1);
    }
  }

  /** Python's `s[i:j]` for `0 <= i <= j`: the bounds are cut down to `|s|`,
      so a slice past the end is shorter or empty rather than an error. */
  function PySlice(s: string, i: nat, j: nat): (r: string)
    requires i <= j
    ensures j <= |s| ==> r == s[i..j]
    ensures i <= |s| < j ==> r == s[i..]
    ensures |s| < i ==> r == []
  {
    if |s| <= i then [] else if |s| <= j then s[i..] else s[i..j]
  }

  /** `remove_non_digits`: `re.sub('[^0-9]', '', v)` keeps the digits of `v`
      in their original order and drops every other character. Only digits
      survive, and nothing is added. */
  function RemoveNonDigits(v: string): (r: string)
    ensures AllDigits(r) && |r| <= |v|
  {
    if v == [] then []
    else (if IsDigit(v[0]) then [v[0]] else []) + RemoveNonDigits(v[1..])
  }

  /** Stripping works piecewise: it distributes over concatenation, so the
      digits keep their relative order. */
  lemma {:induction false} RemoveNonDigitsAppend(a: string, b: string)
    ensures RemoveNonDigits(a + b) == RemoveNonDigits(a) + RemoveNonDigits(b)
  {
    if a == [] {
      assert a + b == b;
    } else {
      assert (a + b)[1..] == a[1..] + b;
      RemoveNonDigitsAppend(a[1..], b);
    }
  }

  /** A string is left unchanged by stripping exactly when it is all digits. */
  lemma {:induction false} RemoveNonDigitsFixedPoint(v: string)
    ensures RemoveNonDigits(v) == v <==> AllDigits(v)
  {
    if v != [] && AllDigits(v) {
      RemoveNonDigitsFixedPoint(v[1..]);
      assert v == [v[0]] + v[1..];
    }
  }

  /** Every digit character occurs in the result as often as in the input;
      no other character occurs at all. */
  lemma {:induction false} RemoveNonDigitsCount(v: string, c: char)
    ensures multiset(RemoveNonDigits(v))[c] == if IsDigit(c) then multiset(v)[c] else 0
  {
    if v != [] {
      RemoveNonDigitsCount(v[1..], c);
      assert v == [v[0]] + v[1..];
      assert multiset(v) == multiset([v[0]]) + multiset(v[1..]);
    }
  }

  /** `gen_random_string`: appends `length` digits, each the `str` of a draw
      of `random.randrange(0, 10)`. The draw is an arbitrary choice here, so
      the contract holds for every possible sequence of draws. */
  method GenRandomString(length: nat) returns (s: string)
    ensures |s| == length && AllDigits(s)
  {
    s := "";
    for i := 0 to length
      invariant |s| == i && AllDigits(s)
    {
      var draw: nat :| draw < 10;
      s := s + [DigitChar(draw)];
    }
  }
}
