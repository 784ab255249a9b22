/** CNPJ, the legal-entity taxpayer number: 14 digits whose last two are
    modulo-11 check digits over fixed weight tables
    (nodes/BrDataUtils/validators/cnpj.ts). */
module Cnpj {
  import opened Wrappers
  import opened Sanitizer
  import opened Results

  /** The punctuation `sanitizeCnpj` accepts and removes. */
  const CnpjPunctuation: set<char> := {'.', '/', '-'}

  const InvalidCharactersMessage := "CNPJ contém caracteres inválidos"
  const WrongLengthMessage := "CNPJ deve ter 14 dígitos"
  const RepeatedDigitsMessage := "CNPJ não pode ter todos os dígitos iguais"
  const FirstCheckDigitMessage := "CNPJ inválido - primeiro dígito verificador"
  const SecondCheckDigitMessage := "CNPJ inválido - segundo dígito verificador"

  /** `weights1`, for the twelve digits before the first check digit. */
  const Weights1: seq<nat> := [5, 4, 3, 2, 9, 8, 7, 6, 5, 4, 3, 2]
  /** `weights2`, for the thirteen digits before the second check digit. */
  const Weights2: seq<nat> := [6, 5, 4, 3, 2, 9, 8, 7, 6, 5, 4, 3, 2]

  /** `sanitizeCnpj`: `Some(cleaned)` exactly when the trimmed input is made of
      digits, `.`, `/` and `-` and holds at least one digit. */
  function SanitizeCnpj(value: string): (r: Option<string>)
    ensures r.Some? <==> OnlyAllowed(Trim(value), CnpjPunctuation) && HasDigit(Trim(value))
    ensures r.Some? ==> AllDigits(r.value) && r.value == Strip(Trim(value), CnpjPunctuation)
  {
    SanitizeAccepts(value, CnpjPunctuation);
    Sanitize(value, CnpjPunctuation)
  }

  /** The sum of `digit(b[i]) * w[i]` over every position of `b`. */
  function WeightedSum(b: string, w: seq<nat>): (s: int)
    requires DigitsOnly(b) && |b| <= |w|
    ensures s >= 0
  {
    if b == [] then 0
    else WeightedSum(b[..|b| - 1], w) + DigitValue(b[|b| - 1]) * w[|b| - 1]
  }

  /** The check digit for a weighted sum: 0 when the remainder by 11 is below 2,
      otherwise 11 minus the remainder. */
  function DigitFromSum(sum: int): (v: int)
    ensures 0 <= v <= 9
  {
    var remainder := sum % 11;
    if remainder < 2 then 0 else 11 - remainder
  }

  /** A well-formed CNPJ digit string. */
  predicate IsCnpj(d: string) {
    |d| == 14 && DigitsOnly(d) && !AllSameDigit(d)
    && DigitFromSum(WeightedSum(d[..12], Weights1)) == DigitValue(d[12])
    && DigitFromSum(WeightedSum(d[..13], Weights2)) == DigitValue(d[13])
  }

  /** The mask `XX.XXX.XXX/XXXX-XX`. */
  function Mask(d: string): (m: string)
    requires |d| == 14
    ensures |m| == 18 && m[2] == '.' && m[6] == '.' && m[10] == '/' && m[15] == '-'
  {
    d[..2] + "." + d[2..5] + "." + d[5..8] + "/" + d[8..12] + "-" + d[12..]
  }

  /** `formatCnpj`: the mask of the cleaned digits, or the input itself when
      sanitation fails or the cleaned length is not 14. Formatting never
      changes what the input sanitizes to. */
  function FormatCnpj(cnpj: string): (r: string)
    ensures SanitizeCnpj(r) == SanitizeCnpj(cnpj)
    ensures r != cnpj ==> SanitizeCnpj(cnpj).Some? && |SanitizeCnpj(cnpj).value| == 14
    ensures SanitizeCnpj(cnpj).Some? && |SanitizeCnpj(cnpj).value| == 14 ==> r == Mask(SanitizeCnpj(cnpj).value)
  {
    match SanitizeCnpj(cnpj)
    case None => cnpj
    case Some(clean) =>
      if |clean| != 14 then cnpj
      else
        MaskRoundTrip(clean);
        Mask(clean)
  }

  /** The result `validateCnpj` returns, the checks in the source's order:
      characters, length, repetition, first and second check digit. */
  function Validation(cnpj: string): (r: ValidationResult)
    ensures WellFormed(r)
    ensures r.isValid <==> SanitizeCnpj(cnpj).Some? && IsCnpj(SanitizeCnpj(cnpj).value)
    ensures r.isValid ==> r == Valid(SanitizeCnpj(cnpj).value, Mask(SanitizeCnpj(cnpj).value))
    ensures r.error == Some(InvalidCharactersMessage) <==> SanitizeCnpj(cnpj).None?
    ensures r.error == Some(WrongLengthMessage) <==>
      SanitizeCnpj(cnpj).Some? && |SanitizeCnpj(cnpj).value| != 14
    ensures r.error == Some(RepeatedDigitsMessage) <==>
      SanitizeCnpj(cnpj).Some? && |SanitizeCnpj(cnpj).value| == 14 && AllSameDigit(SanitizeCnpj(cnpj).value)
  {
    match SanitizeCnpj(cnpj)
    case None => Invalid(InvalidCharactersMessage)
    case Some(clean) =>
      if |clean| != 14 then Invalid(WrongLengthMessage)
      else if AllSameDigit(clean) then Invalid(RepeatedDigitsMessage)
      else if DigitFromSum(WeightedSum(clean[..12], Weights1)) != DigitValue(clean[12]) then
        Invalid(FirstCheckDigitMessage)
      else if DigitFromSum(WeightedSum(clean[..13], Weights2)) != DigitValue(clean[13]) then
        Invalid(SecondCheckDigitMessage)
      else
        SanitizeDigits(clean, CnpjPunctuation);
        Valid(clean, FormatCnpj(clean))
  }

  /** One check-digit loop of `validateCnpj`: the sum of each digit of `b`
      times its weight, reduced by eleven. */
  method CheckDigitOf(b: string, weights: seq<nat>) returns (v: int)
    requires DigitsOnly(b) && |b| <= |weights|
    ensures v == DigitFromSum(WeightedSum(b, weights))
  {
    var sum := 0;
    for i := 0 to |b|
      invariant sum == WeightedSum(b[..i], weights)
    {
      assert b[..i + 1][..i] == b[..i];
      sum := sum + DigitValue(b[i]) * weights[i];
    }
    assert b[..|b|] == b;
    var remainder := sum % 11;
    v := if remainder < 2 then 0 else 11 - remainder;
  }

  /** `validateCnpj`: the checks in order, each check digit computed by a
      loop over its weight table. */
  method ValidateCnpj(cnpj: string) returns (r: ValidationResult)
    ensures r == Validation(cnpj)
  {
    var sanitized := SanitizeCnpj(cnpj);
    if sanitized.None? {
      return Invalid(InvalidCharactersMessage);
    }
    var clean := sanitized.value;
    if |clean| != 14 {
      return Invalid(WrongLengthMessage);
    }
    if AllSameDigit(clean) {
      return Invalid(RepeatedDigitsMessage);
    }

    var first := CheckDigitOf(clean[..12], Weights1);
    if first != DigitValue(clean[12]) {
      return Invalid(FirstCheckDigitMessage);
    }
    var second := CheckDigitOf(clean[..13], Weights2);
    if second != DigitValue(clean[13]) {
      return Invalid(SecondCheckDigitMessage);
    }

    return Valid(clean, FormatCnpj(clean));
  }

  /** Sanitizing the mask gives back the 14 digits. */
  lemma MaskRoundTrip(d: string)
    requires |d| == 14 && DigitsOnly(d)
    ensures SanitizeCnpj(Mask(d)) == Some(d)
  {
    var p := CnpjPunctuation;
    var a := d[..2];
    var b := a + "." + d[2..5];
    var c := b + "." + d[5..8];
    var e := c + "/" + d[8..12];
    var m := e + "-" + d[12..];
    StripNone(a, p);
    JoinSeparated(a, ".", d[2..5], p);
    JoinSeparated(b, ".", d[5..8], p);
    JoinSeparated(c, "/", d[8..12], p);
    JoinSeparated(e, "-", d[12..], p);
    assert a + d[2..5] + d[5..8] + d[8..12] + d[12..] == d;
    assert m == Mask(d);
    assert m[0] == d[0] && m[|m| - 1] == d[13];
    DigitNotWhitespace(d[0]);
    DigitNotWhitespace(d[13]);
    SanitizeFormatted(m, p);
  }

  /** `formatCnpj` is idempotent on every input. */
  lemma FormatCnpjIdempotent(cnpj: string)
    ensures FormatCnpj(FormatCnpj(cnpj)) == FormatCnpj(cnpj)
  {
  }

  /** The check-digit errors, in the source's order: the first-digit message
      exactly when the earlier checks pass and the thirteenth digit is wrong,
      the second-digit message exactly when the thirteenth is right and the
      fourteenth is wrong. */
  lemma CheckDigitErrors(cnpj: string)
    ensures var c := SanitizeCnpj(cnpj);
      Validation(cnpj).error == Some(FirstCheckDigitMessage) <==>
        c.Some? && |c.value| == 14 && !AllSameDigit(c.value)
        && DigitFromSum(WeightedSum(c.value[..12], Weights1)) != DigitValue(c.value[12])
    ensures var c := SanitizeCnpj(cnpj);
      Validation(cnpj).error == Some(SecondCheckDigitMessage) <==>
        c.Some? && |c.value| == 14 && !AllSameDigit(c.value)
        && DigitFromSum(WeightedSum(c.value[..12], Weights1)) == DigitValue(c.value[12])
        && DigitFromSum(WeightedSum(c.value[..13], Weights2)) != DigitValue(c.value[13])
  {
  }

  /** The two check digits are determined by the first twelve digits: two
      valid CNPJs that share them are equal. */
  lemma CheckDigitsDetermined(d: string, e: string)
    requires IsCnpj(d) && IsCnpj(e) && d[..12] == e[..12]
    ensures d == e
  {
    assert d[12] == e[12] by {
      DigitValueInjective(d[12], e[12]);
    }
    assert d[..13] == d[..12] + [d[12]] && e[..13] == e[..12] + [e[12]];
    assert d[13] == e[13] by {
      DigitValueInjective(d[13], e[13]);
    }
    assert d == d[..13] + [d[13]] && e == e[..13] + [e[13]];
  }

  /** Twelve digits followed by the two check digits computed from them. */
  function WithCheckDigits(base: string): (d: string)
    requires |base| == 12 && DigitsOnly(base)
    ensures |d| == 14 && DigitsOnly(d) && d[..12] == base
  {
    var first := base + [DigitChar(DigitFromSum(WeightedSum(base, Weights1)))];
    first + [DigitChar(DigitFromSum(WeightedSum(first, Weights2)))]
  }

  /** Every twelve-digit base completes, by its two computed check digits, to
      a CNPJ the validator accepts, unless the completed number is one
      repeated digit. A repeated base such as `111111111111` completes to
      `11111111111180` and is accepted too. */
  lemma Complete(base: string)
    requires |base| == 12 && DigitsOnly(base) && !AllSameDigit(WithCheckDigits(base))
    ensures IsCnpj(WithCheckDigits(base))
    ensures Validation(WithCheckDigits(base)) == Valid(WithCheckDigits(base), Mask(WithCheckDigits(base)))
  {
    var d := WithCheckDigits(base);
    var first := base + [DigitChar(DigitFromSum(WeightedSum(base, Weights1)))];
    assert d == first + [DigitChar(DigitFromSum(WeightedSum(first, Weights2)))];
    assert d[..13] == first;
    SanitizeDigits(d, CnpjPunctuation);
  }

  /** A blank input (empty, or whitespace only) is rejected as having invalid characters. */
  lemma BlankRejected(cnpj: string)
    requires WhitespaceOnly(cnpj)
    ensures Validation(cnpj) == Invalid(InvalidCharactersMessage)
  {
    TrimWhitespaceOnly(cnpj);
  }

  /** On a valid value the validator's mask is what the formatter makes of
      the raw value. */
  lemma FormatMatchesMask(cnpj: string)
    requires Validation(cnpj).isValid
    ensures Validation(cnpj).masked == Some(FormatCnpj(cnpj))
  {
    var clean := SanitizeCnpj(cnpj).value;
    assert Validation(cnpj) == Valid(clean, Mask(clean));
    assert FormatCnpj(cnpj) == Mask(clean);
  }

  // Concrete cases from tests/validators/cnpj.test.ts, one literal per lemma.

  lemma ExampleSanitized()
    ensures Mask("11222333000181") == "11.222.333/0001-81"
    ensures SanitizeCnpj("11.222.333/0001-81") == Some("11222333000181")
  {
    ExampleSanitizedMask();
    MaskRoundTrip("11222333000181");
  }

  lemma ExampleSanitizedMask()
    ensures Mask("11222333000181") == "11.222.333/0001-81"
  {
    var d := "11222333000181";
    assert d[..2] == "11" && d[2..5] == "222" && d[5..8] == "333";
    assert d[8..12] == "0001" && d[12..] == "81";
  }

  lemma ExampleSanitizedWrong()
    ensures Mask("11222333000199") == "11.222.333/0001-99"
    ensures SanitizeCnpj("11.222.333/0001-99") == Some("11222333000199")
  {
    ExampleSanitizedWrongMask();
    MaskRoundTrip("11222333000199");
  }

  lemma ExampleSanitizedWrongMask()
    ensures Mask("11222333000199") == "11.222.333/0001-99"
  {
    var d := "11222333000199";
    assert d[..2] == "11" && d[2..5] == "222" && d[5..8] == "333";
    assert d[8..12] == "0001" && d[12..] == "99";
  }

  /** The weighted sums of the first six digits of the example, for the
      first and the second check digit. */
  lemma ExamplePrefixSums()
    ensures WeightedSum("112223", Weights1) == 61
    ensures WeightedSum("112223", Weights2) == 56
  {
    assert "112223"[..5] == "11222";
    assert "11222"[..4] == "1122";
    assert "1122"[..3] == "112";
    assert "112"[..2] == "11";
    assert "11"[..1] == "1";
    assert "1"[..0] == "";
    assert Weights1[..6] == [5, 4, 3, 2, 9, 8];
    assert Weights2[..6] == [6, 5, 4, 3, 2, 9];
  }

  lemma ExampleFirstCheckDigit()
    ensures DigitFromSum(WeightedSum("112223330001", Weights1)) == 8
  {
    ExamplePrefixSums();
    assert "112223330001"[..11] == "11222333000";
    assert "11222333000"[..10] == "1122233300";
    assert "1122233300"[..9] == "112223330";
    assert "112223330"[..8] == "11222333";
    assert "11222333"[..7] == "1122233";
    assert "1122233"[..6] == "112223";
    assert Weights1[6..] == [7, 6, 5, 4, 3, 2];
    assert WeightedSum("1122233", Weights1) == 82;
    assert WeightedSum("11222333", Weights1) == 100;
    assert WeightedSum("112223330", Weights1) == 100;
    assert WeightedSum("1122233300", Weights1) == 100;
    assert WeightedSum("11222333000", Weights1) == 100;
    assert WeightedSum("112223330001", Weights1) == 102;
  }

  lemma ExampleSecondCheckDigit()
    ensures DigitFromSum(WeightedSum("1122233300018", Weights2)) == 1
  {
    ExamplePrefixSums();
    assert "1122233300018"[..12] == "112223330001";
    assert "112223330001"[..11] == "11222333000";
    assert "11222333000"[..10] == "1122233300";
    assert "1122233300"[..9] == "112223330";
    assert "112223330"[..8] == "11222333";
    assert "11222333"[..7] == "1122233";
    assert "1122233"[..6] == "112223";
    assert Weights2[6..] == [8, 7, 6, 5, 4, 3, 2];
    assert WeightedSum("1122233", Weights2) == 80;
    assert WeightedSum("11222333", Weights2) == 101;
    assert WeightedSum("112223330", Weights2) == 101;
    assert WeightedSum("1122233300", Weights2) == 101;
    assert WeightedSum("11222333000", Weights2) == 101;
    assert WeightedSum("112223330001", Weights2) == 104;
    assert WeightedSum("1122233300018", Weights2) == 120;
  }

  lemma ExampleShape()
    ensures "11222333000181"[..12] == "112223330001" && "11222333000181"[..13] == "1122233300018"
    ensures "11222333000199"[..12] == "112223330001"
    ensures !AllSameDigit("11222333000181") && !AllSameDigit("11222333000199")
  {
    assert "11222333000181"[2] != "11222333000181"[0];
    assert "11222333000199"[2] != "11222333000199"[0];
  }

  lemma ExampleClean()
    ensures SanitizeCnpj("11222333000181") == Some("11222333000181")
  {
    assert AllDigits("11222333000181");
    SanitizeDigits("11222333000181", CnpjPunctuation);
  }

  /** tests/validators/cnpj.test.ts:8-29: 11.222.333/0001-81 is accepted. */
  lemma ExampleAccepted()
    ensures Validation("11.222.333/0001-81") == Valid("11222333000181", "11.222.333/0001-81")
  {
    ExampleSanitized();
    ExampleFirstCheckDigit();
    ExampleSecondCheckDigit();
    ExampleShape();
    ExampleClean();
  }

  /** tests/validators/cnpj.test.ts:39-43: a wrong first check digit. */
  lemma ExampleWrongCheckDigit()
    ensures Validation("11.222.333/0001-99") == Invalid(FirstCheckDigitMessage)
  {
    ExampleSanitizedWrong();
    ExampleFirstCheckDigit();
    ExampleShape();
  }

  /** The two weighted sums of the repeated base `111111111111`. */
  lemma ExampleRepeatedBaseFirstSum()
    ensures WeightedSum("111111111111", Weights1) == 58
  {
    assert "111111111111"[..11] == "11111111111";
    assert "11111111111"[..10] == "1111111111";
    assert "1111111111"[..9] == "111111111";
    assert "111111111"[..8] == "11111111";
    assert "11111111"[..7] == "1111111";
    assert "1111111"[..6] == "111111";
    assert "111111"[..5] == "11111";
    assert "11111"[..4] == "1111";
    assert "1111"[..3] == "111";
    assert "111"[..2] == "11";
    assert "11"[..1] == "1";
    assert "1"[..0] == "";
    assert Weights1 == [5, 4, 3, 2, 9, 8, 7, 6, 5, 4, 3, 2];
    assert WeightedSum("1", Weights1) == 5;
    assert WeightedSum("11", Weights1) == 9;
    assert WeightedSum("111", Weights1) == 12;
    assert WeightedSum("1111", Weights1) == 14;
    assert WeightedSum("11111", Weights1) == 23;
    assert WeightedSum("111111", Weights1) == 31;
    assert WeightedSum("1111111", Weights1) == 38;
    assert WeightedSum("11111111", Weights1) == 44;
    assert WeightedSum("111111111", Weights1) == 49;
    assert WeightedSum("1111111111", Weights1) == 53;
    assert WeightedSum("11111111111", Weights1) == 56;
    assert WeightedSum("111111111111", Weights1) == 58;
  }

  lemma ExampleRepeatedBaseSecondSum()
    ensures WeightedSum("111111111111", Weights2) == 62
  {
    assert "111111111111"[..11] == "11111111111";
    assert "11111111111"[..10] == "1111111111";
    assert "1111111111"[..9] == "111111111";
    assert "111111111"[..8] == "11111111";
    assert "11111111"[..7] == "1111111";
    assert "1111111"[..6] == "111111";
    assert "111111"[..5] == "11111";
    assert "11111"[..4] == "1111";
    assert "1111"[..3] == "111";
    assert "111"[..2] == "11";
    assert "11"[..1] == "1";
    assert "1"[..0] == "";
    assert Weights2 == [6, 5, 4, 3, 2, 9, 8, 7, 6, 5, 4, 3, 2];
    assert WeightedSum("1", Weights2) == 6;
    assert WeightedSum("11", Weights2) == 11;
    assert WeightedSum("111", Weights2) == 15;
    assert WeightedSum("1111", Weights2) == 18;
    assert WeightedSum("11111", Weights2) == 20;
    assert WeightedSum("111111", Weights2) == 29;
    assert WeightedSum("1111111", Weights2) == 37;
    assert WeightedSum("11111111", Weights2) == 44;
    assert WeightedSum("111111111", Weights2) == 50;
    assert WeightedSum("1111111111", Weights2) == 55;
    assert WeightedSum("11111111111", Weights2) == 59;
    assert WeightedSum("111111111111", Weights2) == 62;
  }

  /** A repeated base still completes to an accepted CNPJ: the check digits
      of `111111111111` are 8 and 0. */
  lemma ExampleRepeatedBase()
    ensures WithCheckDigits("111111111111") == "11111111111180"
    ensures !AllSameDigit("11111111111180")
  {
    ExampleRepeatedBaseFirstSum();
    ExampleRepeatedBaseSecondSum();
    var first := "111111111111" + [DigitChar(DigitFromSum(WeightedSum("111111111111", Weights1)))];
    assert first == "1111111111118";
    assert first[..12] == "111111111111";
    assert WeightedSum(first, Weights2) == 62 + 8 * 2;
    assert "11111111111180"[12] != "11111111111180"[0];
  }

  lemma ExampleRepeatedBaseAccepted()
    ensures Validation("11111111111180").isValid
  {
    ExampleRepeatedBase();
    Complete("111111111111");
  }
}
