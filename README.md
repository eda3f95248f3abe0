# CPF and CNPJ check digits, formatting and validation

A Dafny model of `cpfcnpj/cpfcnpj.py`, a small library for the two Brazilian
taxpayer numbers:
- the CPF, an eleven-digit number for individuals;
- the CNPJ, a fourteen-digit number for legal entities.

In both, the last two digits are modulo-11 check digits computed from the
digits before them.

The model has five modules:

- `Digits` holds the character class `[0-9]`, decimal values, zero padding
  and Python's forgiving slicing. It also holds `remove_non_digits`, as the
  function `RemoveNonDigits`, and `gen_random_string`, as the loop
  `GenRandomString`.
- `CheckDigits` holds the two check-digit engines `compute_cpf_validation`
  and `compute_cnpj_validation`. Each is a method whose loop accumulates two
  weighted sums. Each is proved against a specification function:
  `CpfCheckDigits` or `CnpjCheckDigits`, built from `WeightedSum` and
  `CheckDigit`. The `ValueError` the engines raise is the `ValueError` case
  of a `Result`.
- `Format` holds `format_cpf` and `format_cnpj`, and the four string shapes
  the validators accept: punctuated and bare, for each number. Each formatter
  comes with its round trip through digit stripping, in both directions.
- `Validate` holds `is_cpf_valid` and `is_cnpj_valid`, as the functions
  `IsCpfValid` and `IsCnpjValid`, with a characterisation of exactly which
  strings each accepts. It also covers the mutation and the malformed
  inputs of the test suite.
- `Generate` holds `gen_random_cpf` and `gen_random_cnpj`. Both are proved to
  produce numbers that the validators accept.

Where the code and its documentation differ, the model follows the code:

- **The engine's input check is a prefix test.** `re.match('[0-9]{9,11}', cpf)`
  is anchored only at the start. So the engine accepts any string whose first
  9 characters are digits, whatever follows them, and rejects everything
  else. The CNPJ engine works the same way with 12. `HasDigitPrefix` states
  this, and the engines' contracts say an error is raised exactly when it
  fails.
- **A trailing newline is accepted.** The validators' patterns end in `$`.
  Python's `$` also matches just before a single trailing newline, so
  `"11144477735\n"` passes the shape test. The newline is then stripped with
  the other non-digits. `MatchesAnchored` models this. `CpfSpellings` and
  `CnpjSpellings` list the four accepted spellings of a number.
- **The formatters never fail.** They slice the way Python does: slice bounds
  past the end of the string are cut back. A formatter given a string of the
  wrong length returns a shorter or truncated result instead of failing.
  `PySlice` models this, so the formatters have no precondition.

## Model

| member | source | states |
|---|---|---|
| Digits.DigitChar | cpfcnpj/cpfcnpj.py:51 | `str` of a draw in 0..9 is a digit character whose value is the draw |
| Digits.ZeroPad | cpfcnpj/cpfcnpj.py:121 | `'{0:04d}'.format(n)` for `n < 10^width` is exactly `width` digit characters |
| Digits.ZeroPadValue | cpfcnpj/cpfcnpj.py:121 | reading a zero-padded number back gives the number |
| Digits.ZeroPadLeadingZero | cpfcnpj/cpfcnpj.py:121 | a number below `10^(width-1)` padded to `width` starts with '0' |
| Digits.PySlice | cpfcnpj/cpfcnpj.py:131 | Python slicing: the exact slice when in range, the tail when the end overruns, empty past the end |
| Digits.HasDigitPrefix | cpfcnpj/cpfcnpj.py:61 | the start-anchored test `re.match('[0-9]{9,11}', s)` (and `[0-9]{12,14}` at line 84): at least `n` characters, the first `n` digits; no contract of its own, its meaning for the engines is stated by `ComputeCpfValidation` and `ComputeCnpjValidation` |
| Digits.RemoveNonDigits | cpfcnpj/cpfcnpj.py:33-40 | the result of `remove_non_digits` has only digits and is no longer than the input; order, counts and fixed points are stated by the three lemmas below |
| Digits.RemoveNonDigitsAppend | cpfcnpj/cpfcnpj.py:40 | stripping distributes over concatenation, so digits keep their order |
| Digits.RemoveNonDigitsFixedPoint | cpfcnpj/cpfcnpj-test.py:49-52 | a string is unchanged by stripping if and only if it is all digits (the empty string included) |
| Digits.RemoveNonDigitsCount | cpfcnpj/cpfcnpj.py:40 | each digit occurs in the result as often as in the input, and no other character occurs |
| Digits.GenRandomString | cpfcnpj/cpfcnpj.py:42-52 | for every sequence of draws, the result has exactly `length` characters, all digits |
| CheckDigits.CnpjWeightTables | cpfcnpj/cpfcnpj.py:90-91 | the cyclic CNPJ weights are 5,4,3,2,9,8,7,6,5,4,3,2 and 6,5,4,3,2,9,8,7,6,5,4,3 |
| CheckDigits.CheckDigit | cpfcnpj/cpfcnpj.py:69-74 | the clamped digit is in 0..9; it is 0 exactly when the sum mod 11 is below 2; otherwise it makes the sum a multiple of 11 |
| CheckDigits.CpfCheckDigits | cpfcnpj/cpfcnpj.py:63-75 | the CPF check digits form a two-character digit string |
| CheckDigits.CnpjCheckDigits | cpfcnpj/cpfcnpj.py:86-100 | the CNPJ check digits form a two-character digit string |
| CheckDigits.WeightedSumOfPrefix | cpfcnpj/cpfcnpj.py:65-68 | a weighted sum over `n` positions reads only the first `n` characters |
| CheckDigits.CpfCheckDigitsOfBase | cpfcnpj/cpfcnpj.py:54-75 | the CPF check digits depend only on `s[0:9]` |
| CheckDigits.CnpjCheckDigitsOfBase | cpfcnpj/cpfcnpj.py:77-100 | the CNPJ check digits depend only on `s[0:12]` |
| CheckDigits.CpfCheckDigitsExample | cpfcnpj/cpfcnpj.py:63-75 | the base 111444777 gets the check digits 35 |
| CheckDigits.CnpjExampleSums | cpfcnpj/cpfcnpj.py:86-93 | the two weighted sums of the base 112223330001 are 102 and 104 |
| CheckDigits.CnpjCheckDigitsExample | cpfcnpj/cpfcnpj.py:86-100 | the base 112223330001 gets the check digits 81 |
| CheckDigits.ComputeCpfValidation | cpfcnpj/cpfcnpj.py:54-75 | raises the "at least 9 digits" error exactly when the first 9 characters are not all digits; otherwise the loop returns the CPF check digits of the input |
| CheckDigits.ComputeCnpjValidation | cpfcnpj/cpfcnpj.py:77-100 | raises the "at least 12 digits" error exactly when the first 12 characters are not all digits; otherwise the loop returns the CNPJ check digits of the input |
| Format.HasShape | cpfcnpj/cpfcnpj.py:149-150 | the four fully anchored patterns (lines 149-150 and 162-163) as per-position predicates; no contract of its own, described by `FormatCpfShape`, `FormatCnpjShape`, `ParseCpf` and `ParseCnpj` |
| Format.FormatCpf | cpfcnpj/cpfcnpj.py:124-131 | eleven characters format to fourteen, with '.' at 3 and 7 and '-' at 11 |
| Format.FormatCnpj | cpfcnpj/cpfcnpj.py:133-140 | fourteen characters format to eighteen, with '.' at 2 and 6, '/' at 10 and '-' at 15 |
| Format.FormatCpfShape | cpfcnpj/cpfcnpj.py:131 | formatting eleven digits gives the punctuated CPF shape `ddd.ddd.ddd-dd` |
| Format.FormatCpfRoundTrip | cpfcnpj/cpfcnpj-test.py:92-95 | stripping the formatting of eleven digits gives back the digits |
| Format.FormatCnpjShape | cpfcnpj/cpfcnpj.py:140 | formatting fourteen digits gives the punctuated CNPJ shape `dd.ddd.ddd/dddd-dd` |
| Format.FormatCnpjRoundTrip | cpfcnpj/cpfcnpj-test.py:97-100 | stripping the formatting of fourteen digits gives back the digits |
| Format.ParseCpf | cpfcnpj/cpfcnpj-test.py:92-95 | every punctuated CPF strips to eleven digits whose formatting is that CPF |
| Format.ParseCnpj | cpfcnpj/cpfcnpj-test.py:97-100 | every punctuated CNPJ strips to fourteen digits whose formatting is that CNPJ |
| Validate.MatchesAnchored | cpfcnpj/cpfcnpj.py:149-150 | `re.match('^P$', s)`: the shape in full, or the shape followed by one trailing newline, which Python's `$` allows; no contract of its own, described by `CpfShapeDigits` and `CpfSpellingsMatch` (and their CNPJ counterparts) |
| Validate.IsCpfValid | cpfcnpj/cpfcnpj.py:142-153 | `is_cpf_valid` is true exactly when the input passes one of the two CPF shape tests and its digits form a correct CPF (eleven digits whose last two are the check digits of the first nine); it never raises |
| Validate.IsCnpjValid | cpfcnpj/cpfcnpj.py:155-166 | `is_cnpj_valid` is true exactly when the input passes one of the two CNPJ shape tests and its digits form a correct CNPJ (fourteen digits whose last two are the check digits of the first twelve); it never raises |
| Validate.CpfShapeDigits | cpfcnpj/cpfcnpj.py:149-152 | a string passing the CPF shape test strips to eleven digits and is one of their four spellings |
| Validate.CnpjShapeDigits | cpfcnpj/cpfcnpj.py:162-165 | a string passing the CNPJ shape test strips to fourteen digits and is one of their four spellings |
| Validate.CpfSpellingsMatch | cpfcnpj/cpfcnpj.py:149-152 | every spelling of eleven digits passes the CPF shape test and strips back to them |
| Validate.CnpjSpellingsMatch | cpfcnpj/cpfcnpj.py:162-165 | every spelling of fourteen digits passes the CNPJ shape test and strips back to them |
| Validate.CpfValidIffSpelling | cpfcnpj/cpfcnpj.py:142-153 | `is_cpf_valid` accepts a string if and only if it is a spelling of a correct CPF |
| Validate.CnpjValidIffSpelling | cpfcnpj/cpfcnpj.py:155-166 | `is_cnpj_valid` accepts a string if and only if it is a spelling of a correct CNPJ |
| Validate.CpfValidOnDigits | cpfcnpj/cpfcnpj.py:152-153 | on eleven digits, bare or formatted, the verdict is whether the last two are the check digits of the first nine |
| Validate.CnpjValidOnDigits | cpfcnpj/cpfcnpj.py:165-166 | on fourteen digits, bare or formatted, the verdict is whether the last two are the check digits of the first twelve |
| Validate.BumpCheckDigits | cpfcnpj/cpfcnpj-test.py:108 | the test's mutation `c[0:9] + '{0:02d}'.format((int(c[9:11]) + 1) % 100)` (line 125 for the CNPJ); no contract of its own, described by `BumpChangesCheckDigits` |
| Validate.BumpChangesCheckDigits | cpfcnpj/cpfcnpj-test.py:108 | replacing the check digits `x` by `(x + 1) % 100`, zero-padded, keeps the base and always changes the check digits |
| Validate.CpfBumpRejected | cpfcnpj/cpfcnpj-test.py:102-110 | a correct CPF with bumped check digits is rejected, bare and formatted |
| Validate.CnpjBumpRejected | cpfcnpj/cpfcnpj-test.py:119-127 | a correct CNPJ with bumped check digits is rejected, bare and formatted |
| Validate.MalformedCpfShapes | cpfcnpj/cpfcnpj-test.py:112-117 | the six malformed CPF strings fail both CPF shape tests |
| Validate.MalformedCnpjShapes | cpfcnpj/cpfcnpj-test.py:129-135 | the seven malformed CNPJ strings fail both CNPJ shape tests |
| Validate.MalformedCpfRejected | cpfcnpj/cpfcnpj-test.py:112-117 | the six malformed CPF strings are rejected |
| Validate.MalformedCnpjRejected | cpfcnpj/cpfcnpj-test.py:129-135 | the seven malformed CNPJ strings are rejected |
| Generate.GenRandomCpf | cpfcnpj/cpfcnpj.py:102-108 | for every draw, the result is a correct eleven-digit CPF that the validator accepts bare and formatted |
| Generate.GenRandomCnpj | cpfcnpj/cpfcnpj.py:110-122 | for every draw, the result is a correct fourteen-digit CNPJ that the validator accepts bare and formatted; with a unit, positions 8 to 11 are `unit % 1000` zero-padded to four, so position 8 is '0' |

## Left out

- The randomness of `random.randrange(0, 10)`: each draw is an arbitrary digit, chosen nondeterministically. The contracts hold for every sequence of draws. Nothing is said about the distribution.
- The regular-expression engine: only the seven patterns the library uses are modelled. Six of them are per-position predicates: the two start-anchored prefix tests and the four fully anchored shapes. The seventh is the substitution `re.sub('[^0-9]', '', v)` of `remove_non_digits`, modelled as the recursive filter `RemoveNonDigits`.
- Exceptions: the engines' `ValueError` is a `Result` value rather than a raised exception. The validators never reach it, because their shape test guarantees the digits the engine needs.
- `gen_random_cnpj` with a `unit` that is not an integer: `unit` is an optional `int`. Python's `%` with the positive divisor 1000 agrees with Dafny's, including for negative units.
- Digit stripping on the mixed test string of the test suite (`'1a2d3 f4 g5 h6t7r 8y9h0'`) is not evaluated as a concrete example. The general lemmas about `RemoveNonDigits` cover it.
- The test suite's sample files and the code that reads them: they are file input, and the samples are not part of this model. The properties those tests check are stated for all numbers instead.
