/** CPF, the individual taxpayer number: 11 digits whose last two are
    modulo-11 check digits (nodes/BrDataUtils/validators/cpf.ts). */
module Cpf {
  import opened Wrappers
  import opened Sanitizer
  import opened Results

  /** The punctuation `sanitizeCpf` accepts and removes. */
  const CpfPunctuation: set<char> := {'.', '-'}

  const InvalidCharactersMessage := "CPF contém caracteres inválidos"
  const WrongLengthMessage := "CPF deve ter 11 dígitos"
  const RepeatedDigitsMessage := "CPF não pode ter todos os dígitos iguais"
  const FirstCheckDigitMessage := "CPF inválido - primeiro dígito verificador"
  const SecondCheckDigitMessage := "CPF inválido - segundo dígito verificador"

  /** `sanitizeCpf`: `Some(cleaned)` exactly when the trimmed input is made of
      digits, `.` and `-` and holds at least one digit. */
  function SanitizeCpf(value: string): (r: Option<string>)
    ensures r.Some? <==> OnlyAllowed(Trim(value), CpfPunctuation) && HasDigit(Trim(value))
    ensures r.Some? ==> AllDigits(r.value) && r.value == Strip(Trim(value), CpfPunctuation)
  {
    SanitizeAccepts(value, CpfPunctuation);
    Sanitize(value, CpfPunctuation)
  }

  /** The sum of `digit(b[i]) * (top - i)` over every position of `b`. */
  function WeightedSum(b: string, top: int): (s: int)
    requires DigitsOnly(b)
    ensures top >= |b| ==> s >= 0
  {
    if b == [] then 0
    else
      var weight := top - (|b| - 1);
      var digit := DigitValue(b[|b| - 1]);
      assert top >= |b| ==> digit * weight >= 0;
      WeightedSum(b[..|b| - 1], top) + digit * weight
  }

  /** The check digit that must follow `b`: weights |b|+1 down to 2,
      remainder of ten times the sum by 11, with 10 read as 0. */
  function CheckDigit(b: string): (v: int)
    requires DigitsOnly(b)
    ensures 0 <= v <= 9
  {
    var remainder := (WeightedSum(b, |b| + 1) * 10) % 11;
    if remainder == 10 then 0 else remainder
  }

  /** A well-formed CPF digit string. */
  predicate IsCpf(d: string) {
    |d| == 11 && DigitsOnly(d) && !AllSameDigit(d)
    && CheckDigit(d[..9]) == DigitValue(d[9])
    && CheckDigit(d[..10]) == DigitValue(d[10])
  }

  /** The mask `XXX.XXX.XXX-XX`. */
  function Mask(d: string): (m: string)
    requires |d| == 11
    ensures |m| == 14 && m[3] == '.' && m[7] == '.' && m[11] == '-'
  {
    d[..3] + "." + d[3..6] + "." + d[6..9] + "-" + d[9..]
  }

  /** `formatCpf`: the mask of the cleaned digits, or the input itself when
      sanitation fails or the cleaned length is not 11. Formatting never
      changes what the input sanitizes to. */
  function FormatCpf(cpf: string): (r: string)
    ensures SanitizeCpf(r) == SanitizeCpf(cpf)
    ensures r != cpf ==> SanitizeCpf(cpf).Some? && |SanitizeCpf(cpf).value| == 11
    ensures SanitizeCpf(cpf).Some? && |SanitizeCpf(cpf).value| == 11 ==> r == Mask(SanitizeCpf(cpf).value)
  {
    match SanitizeCpf(cpf)
    case None => cpf
    case Some(clean) =>
      if |clean| != 11 then cpf
      else
        MaskRoundTrip(clean);
        Mask(clean)
  }

  /** The result `validateCpf` returns, the checks in the source's order:
      characters, length, repetition, first and second check digit. */
  function Validation(cpf: string): (r: ValidationResult)
    ensures WellFormed(r)
    ensures r.isValid <==> SanitizeCpf(cpf).Some? && IsCpf(SanitizeCpf(cpf).value)
    ensures r.isValid ==> r == Valid(SanitizeCpf(cpf).value, Mask(SanitizeCpf(cpf).value))
    ensures r.error == Some(InvalidCharactersMessage) <==> SanitizeCpf(cpf).None?
    ensures r.error == Some(WrongLengthMessage) <==>
      SanitizeCpf(cpf).Some? && |SanitizeCpf(cpf).value| != 11
    ensures r.error == Some(RepeatedDigitsMessage) <==>
      SanitizeCpf(cpf).Some? && |SanitizeCpf(cpf).value| == 11 && AllSameDigit(SanitizeCpf(cpf).value)
  {
    match SanitizeCpf(cpf)
    case None => Invalid(InvalidCharactersMessage)
    case Some(clean) =>
      if |clean| != 11 then Invalid(WrongLengthMessage)
      else if AllSameDigit(clean) then Invalid(RepeatedDigitsMessage)
      else if CheckDigit(clean[..9]) != DigitValue(clean[9]) then Invalid(FirstCheckDigitMessage)
      else if CheckDigit(clean[..10]) != DigitValue(clean[10]) then Invalid(SecondCheckDigitMessage)
      else
        SanitizeDigits(clean, CpfPunctuation);
        Valid(clean, FormatCpf(clean))
  }

  /** One check-digit loop of `validateCpf`: the weighted sum of `b` with
      weights |b|+1 down to 2, times ten, by eleven. */
  method CheckDigitOf(b: string) returns (v: int)
    requires DigitsOnly(b)
    ensures v == CheckDigit(b)
  {
    var sum := 0;
    for i := 0 to |b|
      invariant sum == WeightedSum(b[..i], |b| + 1)
    {
      assert b[..i + 1][..i] == b[..i];
      sum := sum + DigitValue(b[i]) * (|b| + 1 - i);
    }
    assert b[..|b|] == b;
    var remainder := (sum * 10) % 11;
    if remainder == 10 {
      remainder := 0;
    }
    return remainder;
  }

  /** `validateCpf`: the checks in order, each check digit computed by a
      loop over the digits before it. */
  method ValidateCpf(cpf: string) returns (r: ValidationResult)
    ensures r == Validation(cpf)
  {
    var sanitized := SanitizeCpf(cpf);
    if sanitized.None? {
      return Invalid(InvalidCharactersMessage);
    }
    var clean := sanitized.value;
    if |clean| != 11 {
      return Invalid(WrongLengthMessage);
    }
    if AllSameDigit(clean) {
      return Invalid(RepeatedDigitsMessage);
    }

    var first := CheckDigitOf(clean[..9]);
    if first != DigitValue(clean[9]) {
      return Invalid(FirstCheckDigitMessage);
    }
    var second := CheckDigitOf(clean[..10]);
    if second != DigitValue(clean[10]) {
      return Invalid(SecondCheckDigitMessage);
    }

    return Valid(clean, FormatCpf(clean));
  }

  /** Sanitizing the mask gives back the 11 digits. */
  lemma MaskRoundTrip(d: string)
    requires |d| == 11 && DigitsOnly(d)
    ensures SanitizeCpf(Mask(d)) == Some(d)
  {
    var p := CpfPunctuation;
    var a := d[..3];
    var b := a + "." + d[3..6];
    var c := b + "." + d[6..9];
    var m := c + "-" + d[9..];
    StripNone(a, p);
    JoinSeparated(a, ".", d[3..6], p);
    JoinSeparated(b, ".", d[6..9], p);
    JoinSeparated(c, "-", d[9..], p);
    assert a + d[3..6] + d[6..9] + d[9..] == d;
    assert m == Mask(d);
    assert m[0] == d[0] && m[|m| - 1] == d[10];
    DigitNotWhitespace(d[0]);
    DigitNotWhitespace(d[10]);
    SanitizeFormatted(m, p);
  }

  /** `formatCpf` is idempotent on every input. */
  lemma FormatCpfIdempotent(cpf: string)
    ensures FormatCpf(FormatCpf(cpf)) == FormatCpf(cpf)
  {
  }

  /** The CPF rule (ten times the sum, remainder by 11, 10 read as 0) is
      the rule "0 below remainder 2, else 11 minus the remainder" that the
      CNPJ validator applies to its own sums. */
  lemma CheckDigitIsElevenMinusRemainder(b: string)
    requires DigitsOnly(b)
    ensures var m := WeightedSum(b, |b| + 1) % 11; CheckDigit(b) == if m < 2 then 0 else 11 - m
  {
    var sum := WeightedSum(b, |b| + 1);
    var q, m := sum / 11, sum % 11;
    assert sum == 11 * q + m;
    if m == 0 {
      RemainderByEleven(sum * 10, 10 * q, 0);
    } else {
      RemainderByEleven(sum * 10, 10 * q + m - 1, 11 - m);
    }
  }

  /** The remainder by 11 of `11 * k + r` is `r` when `0 <= r < 11`. */
  lemma RemainderByEleven(a: int, k: int, r: int)
    requires a == 11 * k + r && 0 <= r < 11
    ensures a % 11 == r
  {
  }

  /** The check-digit errors, in the source's order: the first-digit message
      exactly when the earlier checks pass and the tenth digit is wrong, the
      second-digit message exactly when the tenth is right and the eleventh
      is wrong. */
  lemma CheckDigitErrors(cpf: string)
    ensures var c := SanitizeCpf(cpf);
      Validation(cpf).error == Some(FirstCheckDigitMessage) <==>
        c.Some? && |c.value| == 11 && !AllSameDigit(c.value)
        && CheckDigit(c.value[..9]) != DigitValue(c.value[9])
    ensures var c := SanitizeCpf(cpf);
      Validation(cpf).error == Some(SecondCheckDigitMessage) <==>
        c.Some? && |c.value| == 11 && !AllSameDigit(c.value)
        && CheckDigit(c.value[..9]) == DigitValue(c.value[9])
        && CheckDigit(c.value[..10]) != DigitValue(c.value[10])
  {
  }

  /** The two check digits are determined by the first nine digits: two
      valid CPFs that share them are equal. */
  lemma CheckDigitsDetermined(d: string, e: string)
    requires IsCpf(d) && IsCpf(e) && d[..9] == e[..9]
    ensures d == e
  {
    assert d[9] == e[9] by {
      DigitValueInjective(d[9], e[9]);
    }
    assert d[..10] == d[..9] + [d[9]] && e[..10] == e[..9] + [e[9]];
    assert d[10] == e[10] by {
      DigitValueInjective(d[10], e[10]);
    }
    assert d == d[..10] + [d[10]] && e == e[..10] + [e[10]];
  }

  /** Nine digits followed by the two check digits computed from them. */
  function WithCheckDigits(base: string): (d: string)
    requires |base| == 9 && DigitsOnly(base)
    ensures |d| == 11 && DigitsOnly(d) && d[..9] == base
  {
    var first := base + [DigitChar(CheckDigit(base))];
    first + [DigitChar(CheckDigit(first))]
  }

  /** Every nine-digit base that is not one repeated digit completes, by its
      two computed check digits, to a CPF the validator accepts. */
  lemma Complete(base: string)
    requires |base| == 9 && DigitsOnly(base) && !AllSameDigit(base)
    ensures IsCpf(WithCheckDigits(base))
    ensures Validation(WithCheckDigits(base)) == Valid(WithCheckDigits(base), Mask(WithCheckDigits(base)))
  {
    var d := WithCheckDigits(base);
    var first := base + [DigitChar(CheckDigit(base))];
    assert d == first + [DigitChar(CheckDigit(first))];
    assert d[..10] == first;
    var j :| 0 <= j < 9 && base[j] != base[0];
    assert d[j] != d[0];
    SanitizeDigits(d, CpfPunctuation);
  }

  /** A blank input (empty, or whitespace only) is rejected as having invalid characters. */
  lemma BlankRejected(cpf: string)
    requires WhitespaceOnly(cpf)
    ensures Validation(cpf) == Invalid(InvalidCharactersMessage)
  {
    TrimWhitespaceOnly(cpf);
  }

  /** On a valid value the validator's mask is what the formatter makes of
      the raw value. */
  lemma FormatMatchesMask(cpf: string)
    requires Validation(cpf).isValid
    ensures Validation(cpf).masked == Some(FormatCpf(cpf))
  {
    var clean := SanitizeCpf(cpf).value;
    assert Validation(cpf) == Valid(clean, Mask(clean));
    assert FormatCpf(cpf) == Mask(clean);
  }

  // Concrete cases from tests/validators/cpf.test.ts. Each fact about a
  // literal is kept in a lemma of its own so that the solver never has to
  // keep several literals apart at once.

  lemma ExampleSanitized()
    ensures Mask("12345678909") == "123.456.789-09"
    ensures SanitizeCpf("123.456.789-09") == Some("12345678909")
  {
    var d := "12345678909";
    assert d[..3] == "123" && d[3..6] == "456" && d[6..9] == "789" && d[9..] == "09";
    assert Mask(d) == "123.456.789-09";
    MaskRoundTrip(d);
  }

  lemma ExampleSanitizedRepeated()
    ensures Mask("11111111111") == "111.111.111-11"
    ensures SanitizeCpf("111.111.111-11") == Some("11111111111")
  {
    var d := "11111111111";
    assert d[..3] == "111" && d[3..6] == "111" && d[6..9] == "111" && d[9..] == "11";
    assert Mask(d) == "111.111.111-11";
    MaskRoundTrip(d);
  }

  lemma ExampleSanitizedWrong()
    ensures Mask("12345678999") == "123.456.789-99"
    ensures SanitizeCpf("123.456.789-99") == Some("12345678999")
  {
    var d := "12345678999";
    assert d[..3] == "123" && d[3..6] == "456" && d[6..9] == "789" && d[9..] == "99";
    assert Mask(d) == "123.456.789-99";
    MaskRoundTrip(d);
  }

  /** The weighted sums of the first five digits of the example, for the
      first and the second check digit. */
  lemma ExamplePrefixSums()
    ensures WeightedSum("12345", 10) == 110
    ensures WeightedSum("12345", 11) == 125
  {
    assert "12345"[..4] == "1234";
    assert "1234"[..3] == "123";
    assert "123"[..2] == "12";
    assert "12"[..1] == "1";
    assert "1"[..0] == "";
  }

  lemma ExampleFirstCheckDigit()
    ensures CheckDigit("123456789") == 0
  {
    ExamplePrefixSums();
    assert "123456789"[..8] == "12345678";
    assert "12345678"[..7] == "1234567";
    assert "1234567"[..6] == "123456";
    assert "123456"[..5] == "12345";
    assert WeightedSum("123456", 10) == 140;
    assert WeightedSum("1234567", 10) == 168;
    assert WeightedSum("12345678", 10) == 192;
    assert WeightedSum("123456789", 10) == 210;
  }

  lemma ExampleSecondCheckDigit()
    ensures CheckDigit("1234567890") == 9
  {
    ExamplePrefixSums();
    assert "1234567890"[..9] == "123456789";
    assert "123456789"[..8] == "12345678";
    assert "12345678"[..7] == "1234567";
    assert "1234567"[..6] == "123456";
    assert "123456"[..5] == "12345";
    assert WeightedSum("123456", 11) == 161;
    assert WeightedSum("1234567", 11) == 196;
    assert WeightedSum("12345678", 11) == 228;
    assert WeightedSum("123456789", 11) == 255;
    assert WeightedSum("1234567890", 11) == 255;
  }

  lemma ExampleTrimmed()
    ensures SanitizeCpf("  123.456.789-09  ") == Some("12345678909")
  {
    assert "  123.456.789-09  " == "  " + "123.456.789-09" + "  ";
    SanitizePadded("  ", "123.456.789-09", "  ", CpfPunctuation);
    ExampleSanitized();
  }

  lemma ExampleShape()
    ensures "12345678909"[..9] == "123456789" && "12345678909"[..10] == "1234567890"
    ensures "12345678999"[..9] == "123456789"
    ensures !AllSameDigit("12345678909") && !AllSameDigit("12345678999")
    ensures AllSameDigit("11111111111")
  {
    assert "12345678909"[1] != "12345678909"[0];
    assert "12345678999"[1] != "12345678999"[0];
  }

  /** tests/validators/cpf.test.ts:25-30: surrounding spaces are trimmed,
      and both check digits of 12345678909 hold. */
  lemma ExampleAccepted()
    ensures Validation("  123.456.789-09  ") == Valid("12345678909", "123.456.789-09")
  {
    var d := "12345678909";
    ExampleTrimmed();
    ExampleFirstCheckDigit();
    ExampleSecondCheckDigit();
    ExampleShape();
    ExampleFormatted();
  }

  /** tests/validators/cpf.test.ts:121-125: formatting the digits and
      formatting an already formatted value give the same mask. */
  lemma ExampleFormatted()
    ensures FormatCpf("12345678909") == "123.456.789-09"
  {
    ExampleSanitized();
    ExampleClean();
  }

  lemma ExampleClean()
    ensures SanitizeCpf("12345678909") == Some("12345678909")
  {
    assert AllDigits("12345678909");
    SanitizeDigits("12345678909", CpfPunctuation);
  }

  lemma ExampleFormattedAgain()
    ensures FormatCpf("123.456.789-09") == "123.456.789-09"
  {
    ExampleFormatted();
    FormatCpfIdempotent("12345678909");
  }

  /** tests/validators/cpf.test.ts:74: a letter is an invalid character. */
  lemma ExampleInvalidCharacters()
    ensures Validation("123.456.78b-09") == Invalid(InvalidCharactersMessage)
  {
    TrimNoop("123.456.78b-09");
    assert "123.456.78b-09"[10] == 'b';
    assert !OnlyAllowed("123.456.78b-09", CpfPunctuation);
  }

  /** tests/validators/cpf.test.ts:46-54: repeated digits are rejected. */
  lemma ExampleRepeated()
    ensures Validation("111.111.111-11") == Invalid(RepeatedDigitsMessage)
  {
    ExampleSanitizedRepeated();
    ExampleShape();
  }

  /** tests/validators/cpf.test.ts:40-44: a wrong first check digit. */
  lemma ExampleWrongCheckDigit()
    ensures Validation("123.456.789-99") == Invalid(FirstCheckDigitMessage)
  {
    ExampleSanitizedWrong();
    ExampleFirstCheckDigit();
    ExampleShape();
  }
}
