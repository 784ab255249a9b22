/** Landline (`telefone`) and mobile (`celular`) numbers: one sanitizer and
    purely structural rules on the digit count, an optional `55` country
    prefix, the area code (DDD) and the first subscriber digit
    (nodes/BrDataUtils/validators/telefone.ts). */
module Telefone {
  import opened Wrappers
  import opened Sanitizer
  import opened Results

  /** The punctuation `sanitizePhone` accepts and removes. */
  const PhonePunctuation: set<char> := {'(', ')', ' ', '+', '-'}

  const LandlineInvalidCharactersMessage := "Telefone contém caracteres inválidos"
  const LandlineAreaCodeMessage := "DDD inválido para telefone fixo"
  const LandlineFirstDigitMessage := "Primeiro dígito do telefone fixo deve ser entre 2-9"
  const LandlineLengthMessage := "Telefone fixo deve ter 10 dígitos (DDD + número)"

  const MobileInvalidCharactersMessage := "Celular contém caracteres inválidos"
  const MobileAreaCodeMessage := "DDD inválido para celular"
  const MobileNineMessage := "Celular deve começar com 9 após o DDD"
  const MobileLengthMessage := "Celular deve ter 11 dígitos (DDD + 9 + número)"

  /** `sanitizePhone`: `Some(cleaned)` exactly when the trimmed input is made
      of digits, `(`, `)`, space, `+` and `-` and holds at least one digit. */
  function SanitizePhone(value: string): (r: Option<string>)
    ensures r.Some? <==> OnlyAllowed(Trim(value), PhonePunctuation) && HasDigit(Trim(value))
    ensures r.Some? ==> AllDigits(r.value) && r.value == Strip(Trim(value), PhonePunctuation)
  {
    SanitizeAccepts(value, PhonePunctuation);
    Sanitize(value, PhonePunctuation)
  }

  /** `parseInt` of the two digits at `k` and `k + 1`. */
  function TwoDigitValue(d: string, k: nat): (v: int)
    requires k + 1 < |d| && IsDigit(d[k]) && IsDigit(d[k + 1])
    ensures 0 <= v <= 99
  {
    DigitValue(d[k]) * 10 + DigitValue(d[k + 1])
  }

  /** The digits after the optional country prefix: all of a 10- or 11-digit
      number, and what follows `55` otherwise. */
  function Local(d: string): (r: string)
    ensures |r| <= |d| && r == d[|d| - |r|..]
    ensures |d| >= 12 ==> |r| == |d| - 2
  {
    if |d| >= 12 then d[2..] else d
  }

  /** The digit counts a landline may have: 10, or 13 starting with `55`. */
  predicate LandlineLength(d: string) {
    |d| == 10 || (|d| == 13 && d[..2] == "55")
  }

  /** The digit counts a mobile may have: 11, or 14 starting with `55`. */
  predicate MobileLength(d: string) {
    |d| == 11 || (|d| == 14 && d[..2] == "55")
  }

  /** A digit string the landline rules accept: 10 digits, or 13 starting with
      `55`; area code at least 11; first subscriber digit 2 to 9. */
  predicate IsLandline(d: string) {
    DigitsOnly(d) && LandlineLength(d)
    && TwoDigitValue(Local(d), 0) >= 11 && DigitValue(Local(d)[2]) >= 2
  }

  /** A digit string the mobile rules accept: 11 digits, or 14 starting with
      `55`; area code at least 11; the digit after it exactly `9`. */
  predicate IsMobile(d: string) {
    DigitsOnly(d) && MobileLength(d)
    && TwoDigitValue(Local(d), 0) >= 11 && Local(d)[2] == '9'
  }

  /** `t.replace(/^(\d{2})(\d{4})(\d{4})$/, '($1) $2-$3')` on a digit string:
      only a string of exactly ten digits matches. */
  function LandlinePattern(t: string): (r: string)
    ensures |t| == 10 ==> |r| == 14 && r[0] == '(' && r[3] == ')' && r[4] == ' ' && r[9] == '-'
    ensures |t| != 10 ==> r == t
  {
    if |t| == 10 then "(" + t[..2] + ") " + t[2..6] + "-" + t[6..] else t
  }

  /** `t.replace(/^(\d{2})(\d{5})(\d{4})$/, '($1) $2-$3')` on a digit string:
      only a string of exactly eleven digits matches. */
  function MobilePattern(t: string): (r: string)
    ensures |t| == 11 ==> |r| == 15 && r[0] == '(' && r[3] == ')' && r[4] == ' ' && r[10] == '-'
    ensures |t| != 11 ==> r == t
  {
    if |t| == 11 then "(" + t[..2] + ") " + t[2..7] + "-" + t[7..] else t
  }

  /** `formatTelefone`: `(DD) NNNN-NNNN` for 10 digits, `+55 ` and the pattern
      applied to the rest for 13 digits starting with `55`, and the input
      itself otherwise. Formatting never changes what the input sanitizes to. */
  function FormatTelefone(telefone: string): (r: string)
    ensures SanitizePhone(r) == SanitizePhone(telefone)
    ensures r != telefone ==>
              SanitizePhone(telefone).Some?
              && (|SanitizePhone(telefone).value| == 10
                  || (|SanitizePhone(telefone).value| == 13 && SanitizePhone(telefone).value[..2] == "55"))
    ensures SanitizePhone(telefone).Some? && |SanitizePhone(telefone).value| == 10 ==>
              r == LandlinePattern(SanitizePhone(telefone).value)
    ensures SanitizePhone(telefone).Some? && |SanitizePhone(telefone).value| == 13
            && SanitizePhone(telefone).value[..2] == "55" ==>
              r == "+55 " + SanitizePhone(telefone).value[2..]
  {
    match SanitizePhone(telefone)
    case None => telefone
    case Some(clean) =>
      if |clean| == 10 then
        LandlinePatternRoundTrip(clean);
        LandlinePattern(clean)
      else if |clean| == 13 && clean[..2] == "55" then
        CountryPrefixRoundTrip(clean);
        "+55 " + LandlinePattern(clean[2..])
      else telefone
  }

  /** `formatCelular`: `(DD) NNNNN-NNNN` for 11 digits, `+55 ` and the pattern
      applied to the rest for 14 digits starting with `55`, and the input
      itself otherwise. Formatting never changes what the input sanitizes to. */
  function FormatCelular(celular: string): (r: string)
    ensures SanitizePhone(r) == SanitizePhone(celular)
    ensures r != celular ==>
              SanitizePhone(celular).Some?
              && (|SanitizePhone(celular).value| == 11
                  || (|SanitizePhone(celular).value| == 14 && SanitizePhone(celular).value[..2] == "55"))
    ensures SanitizePhone(celular).Some? && |SanitizePhone(celular).value| == 11 ==>
              r == MobilePattern(SanitizePhone(celular).value)
    ensures SanitizePhone(celular).Some? && |SanitizePhone(celular).value| == 14
            && SanitizePhone(celular).value[..2] == "55" ==>
              r == "+55 " + SanitizePhone(celular).value[2..]
  {
    match SanitizePhone(celular)
    case None => celular
    case Some(clean) =>
      if |clean| == 11 then
        MobilePatternRoundTrip(clean);
        MobilePattern(clean)
      else if |clean| == 14 && clean[..2] == "55" then
        CountryPrefixRoundTrip(clean);
        "+55 " + MobilePattern(clean[2..])
      else celular
  }

  /** `validateTelefone`: characters, then the length and prefix, then the
      area code, then the first subscriber digit. */
  function ValidateTelefone(telefone: string): (r: ValidationResult)
    ensures WellFormed(r)
    ensures r.isValid <==> SanitizePhone(telefone).Some? && IsLandline(SanitizePhone(telefone).value)
    ensures r.isValid ==>
      r == Valid(SanitizePhone(telefone).value, FormatTelefone(SanitizePhone(telefone).value))
    ensures r.error == Some(LandlineInvalidCharactersMessage) <==> SanitizePhone(telefone).None?
    ensures r.error == Some(LandlineLengthMessage) <==>
              SanitizePhone(telefone).Some? && !LandlineLength(SanitizePhone(telefone).value)
  {
    match SanitizePhone(telefone)
    case None => Invalid(LandlineInvalidCharactersMessage)
    case Some(clean) =>
      if |clean| == 10 then
        var ddd := TwoDigitValue(clean, 0);
        if ddd < 11 || ddd > 99 then Invalid(LandlineAreaCodeMessage)
        else if DigitValue(clean[2]) < 2 then Invalid(LandlineFirstDigitMessage)
        else Valid(clean, FormatTelefone(clean))
      else if |clean| == 13 && clean[..2] == "55" then
        var ddd := TwoDigitValue(clean, 2);
        if ddd < 11 || ddd > 99 then Invalid(LandlineAreaCodeMessage)
        else if DigitValue(clean[4]) < 2 then Invalid(LandlineFirstDigitMessage)
        else Valid(clean, FormatTelefone(clean))
      else Invalid(LandlineLengthMessage)
  }

  /** `validateCelular`: characters, then the length and prefix, then the
      area code, then the `9` after it. */
  function ValidateCelular(celular: string): (r: ValidationResult)
    ensures WellFormed(r)
    ensures r.isValid <==> SanitizePhone(celular).Some? && IsMobile(SanitizePhone(celular).value)
    ensures r.isValid ==>
      r == Valid(SanitizePhone(celular).value, FormatCelular(SanitizePhone(celular).value))
    ensures r.error == Some(MobileInvalidCharactersMessage) <==> SanitizePhone(celular).None?
    ensures r.error == Some(MobileLengthMessage) <==>
              SanitizePhone(celular).Some? && !MobileLength(SanitizePhone(celular).value)
  {
    match SanitizePhone(celular)
    case None => Invalid(MobileInvalidCharactersMessage)
    case Some(clean) =>
      if |clean| == 11 then
        var ddd := TwoDigitValue(clean, 0);
        if ddd < 11 || ddd > 99 then Invalid(MobileAreaCodeMessage)
        else if clean[2] != '9' then Invalid(MobileNineMessage)
        else Valid(clean, FormatCelular(clean))
      else if |clean| == 14 && clean[..2] == "55" then
        var ddd := TwoDigitValue(clean, 2);
        if ddd < 11 || ddd > 99 then Invalid(MobileAreaCodeMessage)
        else if clean[4] != '9' then Invalid(MobileNineMessage)
        else Valid(clean, FormatCelular(clean))
      else Invalid(MobileLengthMessage)
  }

  lemma LandlinePatternRoundTrip(t: string)
    requires |t| == 10 && DigitsOnly(t)
    ensures SanitizePhone(LandlinePattern(t)) == Some(t)
  {
    var p := PhonePunctuation;
    var a := "(" + t[..2];
    var b := a + ") " + t[2..6];
    var m := b + "-" + t[6..];
    LeadingSeparator("(", t[..2], p);
    JoinSeparated(a, ") ", t[2..6], p);
    JoinSeparated(b, "-", t[6..], p);
    assert t[..2] + t[2..6] + t[6..] == t;
    assert m == LandlinePattern(t);
    assert m[0] == '(' && m[|m| - 1] == t[9];
    DigitNotWhitespace(t[9]);
    SanitizeFormatted(m, p);
  }

  lemma MobilePatternRoundTrip(t: string)
    requires |t| == 11 && DigitsOnly(t)
    ensures SanitizePhone(MobilePattern(t)) == Some(t)
  {
    var p := PhonePunctuation;
    var a := "(" + t[..2];
    var b := a + ") " + t[2..7];
    var m := b + "-" + t[7..];
    LeadingSeparator("(", t[..2], p);
    JoinSeparated(a, ") ", t[2..7], p);
    JoinSeparated(b, "-", t[7..], p);
    assert t[..2] + t[2..7] + t[7..] == t;
    assert m == MobilePattern(t);
    assert m[0] == '(' && m[|m| - 1] == t[10];
    DigitNotWhitespace(t[10]);
    SanitizeFormatted(m, p);
  }

  /** `+55 ` followed by the digits after the prefix sanitizes to the whole number. */
  lemma CountryPrefixRoundTrip(d: string)
    requires |d| >= 12 && DigitsOnly(d) && d[..2] == "55"
    ensures SanitizePhone("+55 " + d[2..]) == Some(d)
  {
    var p := PhonePunctuation;
    var rest := d[2..];
    LeadingSeparator("+", "55", p);
    assert "+" + "55" == "+55";
    JoinSeparated("+55", " ", rest, p);
    assert "+55" + " " + rest == "+55 " + rest;
    assert d == "55" + rest;
    var m := "+55 " + rest;
    assert m[0] == '+' && m[|m| - 1] == d[|d| - 1];
    DigitNotWhitespace(d[|d| - 1]);
    SanitizeFormatted(m, p);
  }

  /** A valid result's mask sanitizes back to its unmasked digits. */
  lemma ValidTelefoneMaskRoundTrip(telefone: string)
    requires ValidateTelefone(telefone).isValid
    ensures SanitizePhone(ValidateTelefone(telefone).masked.value)
            == ValidateTelefone(telefone).unmasked
  {
    var clean := SanitizePhone(telefone).value;
    assert ValidateTelefone(telefone) == Valid(clean, FormatTelefone(clean));
    SanitizeDigits(clean, PhonePunctuation);
    assert SanitizePhone(FormatTelefone(clean)) == Some(clean);
  }

  lemma ValidCelularMaskRoundTrip(celular: string)
    requires ValidateCelular(celular).isValid
    ensures SanitizePhone(ValidateCelular(celular).masked.value)
            == ValidateCelular(celular).unmasked
  {
    var clean := SanitizePhone(celular).value;
    assert ValidateCelular(celular) == Valid(clean, FormatCelular(clean));
    SanitizeDigits(clean, PhonePunctuation);
    assert SanitizePhone(FormatCelular(clean)) == Some(clean);
  }

  /** Formatting an already formatted number changes nothing. */
  lemma FormatTelefoneIdempotent(telefone: string)
    ensures FormatTelefone(FormatTelefone(telefone)) == FormatTelefone(telefone)
  {
  }

  lemma FormatCelularIdempotent(celular: string)
    ensures FormatCelular(FormatCelular(celular)) == FormatCelular(celular)
  {
  }

  /** With the country prefix the ten- or eleven-digit pattern is applied to
      the eleven or twelve digits after `55`, does not match, and the digits
      are left unpunctuated after `+55 `. */
  lemma CountryPrefixUnpunctuated(d: string)
    requires DigitsOnly(d) && |d| >= 12 && d[..2] == "55"
    ensures |d| == 13 ==> FormatTelefone(d) == "+55 " + d[2..]
    ensures |d| == 14 ==> FormatCelular(d) == "+55 " + d[2..]
  {
    assert AllDigits(d);
    SanitizeDigits(d, PhonePunctuation);
  }

  /** No digit string is both a landline and a mobile number. */
  lemma LandlineMobileDisjoint(value: string)
    ensures !(ValidateTelefone(value).isValid && ValidateCelular(value).isValid)
  {
  }

  /** The area-code error is reported exactly for a number of an accepted
      length whose area code is below 11, and the first-digit errors exactly
      for one whose area code is accepted and whose next digit is wrong. */
  lemma LandlineErrors(value: string)
    ensures var c := SanitizePhone(value);
      ValidateTelefone(value).error == Some(LandlineAreaCodeMessage) <==>
        c.Some? && LandlineLength(c.value) && TwoDigitValue(Local(c.value), 0) < 11
    ensures var c := SanitizePhone(value);
      ValidateTelefone(value).error == Some(LandlineFirstDigitMessage) <==>
        c.Some? && LandlineLength(c.value) && TwoDigitValue(Local(c.value), 0) >= 11
        && DigitValue(Local(c.value)[2]) < 2
  {
  }

  lemma MobileErrors(value: string)
    ensures var c := SanitizePhone(value);
      ValidateCelular(value).error == Some(MobileAreaCodeMessage) <==>
        c.Some? && MobileLength(c.value) && TwoDigitValue(Local(c.value), 0) < 11
    ensures var c := SanitizePhone(value);
      ValidateCelular(value).error == Some(MobileNineMessage) <==>
        c.Some? && MobileLength(c.value) && TwoDigitValue(Local(c.value), 0) >= 11
        && Local(c.value)[2] != '9'
  {
  }

  /** An empty or blank input has no digit and is rejected as invalid characters. */
  lemma BlankRejected(value: string)
    requires WhitespaceOnly(value)
    ensures ValidateTelefone(value) == Invalid(LandlineInvalidCharactersMessage)
    ensures ValidateCelular(value) == Invalid(MobileInvalidCharactersMessage)
  {
    TrimWhitespaceOnly(value);
  }

  /** On a valid value the validator's mask is what the formatter makes of
      the raw value. */
  lemma FormatTelefoneMatchesMask(telefone: string)
    requires ValidateTelefone(telefone).isValid
    ensures ValidateTelefone(telefone).masked == Some(FormatTelefone(telefone))
  {
    var clean := SanitizePhone(telefone).value;
    assert ValidateTelefone(telefone) == Valid(clean, FormatTelefone(clean));
    FormatTelefoneByDigits(telefone);
  }

  /** For a number of an accepted length the formatter depends only on the
      cleaned digits. */
  lemma FormatTelefoneByDigits(telefone: string)
    requires SanitizePhone(telefone).Some? && LandlineLength(SanitizePhone(telefone).value)
    ensures FormatTelefone(telefone) == FormatTelefone(SanitizePhone(telefone).value)
  {
    SanitizeDigits(SanitizePhone(telefone).value, PhonePunctuation);
  }

  lemma FormatCelularMatchesMask(celular: string)
    requires ValidateCelular(celular).isValid
    ensures ValidateCelular(celular).masked == Some(FormatCelular(celular))
  {
    var clean := SanitizePhone(celular).value;
    assert ValidateCelular(celular) == Valid(clean, FormatCelular(clean));
    FormatCelularByDigits(celular);
  }

  /** For a number of an accepted length the formatter depends only on the
      cleaned digits. */
  lemma FormatCelularByDigits(celular: string)
    requires SanitizePhone(celular).Some? && MobileLength(SanitizePhone(celular).value)
    ensures FormatCelular(celular) == FormatCelular(SanitizePhone(celular).value)
  {
    SanitizeDigits(SanitizePhone(celular).value, PhonePunctuation);
  }

  // Concrete cases from tests/validators/telefone.test.ts, one literal fact
  // per lemma.

  lemma ExampleLandlinePatternText()
    ensures LandlinePattern("1134567890") == "(11) 3456-7890"
  {
    var d := "1134567890";
    assert d[..2] == "11" && d[2..6] == "3456" && d[6..] == "7890";
  }

  lemma ExampleLandlinePattern()
    ensures LandlinePattern("1134567890") == "(11) 3456-7890"
    ensures SanitizePhone("(11) 3456-7890") == Some("1134567890")
  {
    ExampleLandlinePatternText();
    assert AllDigits("1134567890");
    LandlinePatternRoundTrip("1134567890");
  }

  lemma ExampleLandlineClean()
    ensures SanitizePhone("1134567890") == Some("1134567890")
  {
    assert AllDigits("1134567890");
    SanitizeDigits("1134567890", PhonePunctuation);
  }

  lemma ExampleLandlineShape()
    ensures IsLandline("1134567890")
  {
    assert TwoDigitValue("1134567890", 0) == 11;
  }

  /** tests/validators/telefone.test.ts:158-163. */
  lemma ExampleFormatTelefone()
    ensures FormatTelefone("1134567890") == "(11) 3456-7890"
  {
    ExampleLandlinePattern();
    ExampleLandlineClean();
  }

  lemma ExampleLandlineTrimmed()
    ensures SanitizePhone("  (11) 3456-7890  ") == Some("1134567890")
  {
    assert "  (11) 3456-7890  " == "  " + "(11) 3456-7890" + "  ";
    SanitizePadded("  ", "(11) 3456-7890", "  ", PhonePunctuation);
    ExampleLandlinePattern();
  }

  /** tests/validators/telefone.test.ts:28-32. */
  lemma ExampleLandlineAccepted()
    ensures ValidateTelefone("  (11) 3456-7890  ") == Valid("1134567890", "(11) 3456-7890")
  {
    ExampleLandlineTrimmed();
    ExampleLandlineClean();
    ExampleLandlineShape();
    ExampleFormatTelefone();
  }

  lemma ExampleMobilePatternText()
    ensures MobilePattern("11998765432") == "(11) 99876-5432"
  {
    var d := "11998765432";
    assert d[..2] == "11" && d[2..7] == "99876" && d[7..] == "5432";
  }

  lemma ExampleMobilePattern()
    ensures MobilePattern("11998765432") == "(11) 99876-5432"
    ensures SanitizePhone("(11) 99876-5432") == Some("11998765432")
  {
    ExampleMobilePatternText();
    assert AllDigits("11998765432");
    MobilePatternRoundTrip("11998765432");
  }

  lemma ExampleMobileClean()
    ensures SanitizePhone("11998765432") == Some("11998765432")
  {
    assert AllDigits("11998765432");
    SanitizeDigits("11998765432", PhonePunctuation);
  }

  lemma ExampleMobileShape()
    ensures IsMobile("11998765432")
  {
    assert TwoDigitValue("11998765432", 0) == 11;
  }

  /** tests/validators/telefone.test.ts:172-177. */
  lemma ExampleFormatCelular()
    ensures FormatCelular("11998765432") == "(11) 99876-5432"
  {
    ExampleMobilePattern();
    ExampleMobileClean();
  }

  lemma ExampleMobileTrimmed()
    ensures SanitizePhone("  (11) 99876-5432  ") == Some("11998765432")
  {
    assert "  (11) 99876-5432  " == "  " + "(11) 99876-5432" + "  ";
    SanitizePadded("  ", "(11) 99876-5432", "  ", PhonePunctuation);
    ExampleMobilePattern();
  }

  /** tests/validators/telefone.test.ts:116-120. */
  lemma ExampleMobileAccepted()
    ensures ValidateCelular("  (11) 99876-5432  ") == Valid("11998765432", "(11) 99876-5432")
  {
    ExampleMobileTrimmed();
    ExampleMobileClean();
    ExampleMobileShape();
    ExampleFormatCelular();
  }

  lemma ExampleNotNine()
    ensures SanitizePhone("(11) 88876-5432") == Some("11888765432")
  {
    var d := "11888765432";
    assert d[..2] == "11" && d[2..7] == "88876" && d[7..] == "5432";
    assert MobilePattern(d) == "(11) 88876-5432";
    MobilePatternRoundTrip(d);
  }

  /** tests/validators/telefone.test.ts:124-135: an 8 after the area code. */
  lemma ExampleMobileNotNine()
    ensures ValidateCelular("(11) 88876-5432").error == Some(MobileNineMessage)
  {
    ExampleNotNine();
    ExampleNotNineShape();
    MobileErrors("(11) 88876-5432");
  }

  lemma ExampleNotNineShape()
    ensures MobileLength("11888765432") && Local("11888765432") == "11888765432"
    ensures TwoDigitValue("11888765432", 0) == 11 && "11888765432"[2] == '8'
  {
  }

  lemma ExampleLowAreaCode()
    ensures SanitizePhone("(10) 3456-7890") == Some("1034567890")
  {
    var d := "1034567890";
    assert d[..2] == "10" && d[2..6] == "3456" && d[6..] == "7890";
    assert LandlinePattern(d) == "(10) 3456-7890";
    LandlinePatternRoundTrip(d);
  }

  /** tests/validators/telefone.test.ts:45-57: area code 10 is rejected. */
  lemma ExampleLandlineLowAreaCode()
    ensures ValidateTelefone("(10) 3456-7890").error == Some(LandlineAreaCodeMessage)
  {
    ExampleLowAreaCode();
    ExampleLowAreaCodeShape();
    LandlineErrors("(10) 3456-7890");
  }

  lemma ExampleLowAreaCodeShape()
    ensures LandlineLength("1034567890") && Local("1034567890") == "1034567890"
    ensures TwoDigitValue("1034567890", 0) == 10
  {
  }

  lemma ExampleHighAreaCode()
    ensures SanitizePhone("(99) 3456-7890") == Some("9934567890")
  {
    var d := "9934567890";
    assert d[..2] == "99" && d[2..6] == "3456" && d[6..] == "7890";
    assert LandlinePattern(d) == "(99) 3456-7890";
    LandlinePatternRoundTrip(d);
  }

  /** Area code 99 lies inside the accepted range 11 to 99, so the code
      accepts `(99) 3456-7890`; tests/validators/telefone.test.ts:49 lists it
      among the rejected area codes. */
  lemma ExampleLandlineAreaCodeNinetyNine()
    ensures ValidateTelefone("(99) 3456-7890").isValid
  {
    ExampleHighAreaCode();
    ExampleHighAreaCodeShape();
  }

  lemma ExampleHighAreaCodeShape()
    ensures IsLandline("9934567890")
  {
    assert TwoDigitValue("9934567890", 0) == 99;
  }

  lemma ExampleFirstDigitZero()
    ensures SanitizePhone("(11) 0456-7890") == Some("1104567890")
  {
    var d := "1104567890";
    assert d[..2] == "11" && d[2..6] == "0456" && d[6..] == "7890";
    assert LandlinePattern(d) == "(11) 0456-7890";
    LandlinePatternRoundTrip(d);
  }

  /** tests/validators/telefone.test.ts:59-70: a subscriber number starting with 0. */
  lemma ExampleLandlineFirstDigit()
    ensures ValidateTelefone("(11) 0456-7890").error == Some(LandlineFirstDigitMessage)
  {
    ExampleFirstDigitZero();
    ExampleFirstDigitZeroShape();
    LandlineErrors("(11) 0456-7890");
  }

  lemma ExampleFirstDigitZeroShape()
    ensures LandlineLength("1104567890") && Local("1104567890") == "1104567890"
    ensures TwoDigitValue("1104567890", 0) == 11 && DigitValue("1104567890"[2]) == 0
  {
  }

  /** tests/validators/telefone.test.ts:87-95: a letter is an invalid character. */
  lemma ExampleLandlineInvalidCharacters()
    ensures ValidateTelefone("(11) 3456-789a") == Invalid(LandlineInvalidCharactersMessage)
  {
    TrimNoop("(11) 3456-789a");
    assert "(11) 3456-789a"[13] == 'a';
    assert !OnlyAllowed("(11) 3456-789a", PhonePunctuation);
  }

  // A mobile number written with the country prefix the usual way: `55`,
  // the area code and nine digits, thirteen digits in all.

  lemma ExamplePrefixedMobileClean()
    ensures SanitizePhone("5511998765432") == Some("5511998765432")
  {
    assert AllDigits("5511998765432");
    SanitizeDigits("5511998765432", PhonePunctuation);
  }

  lemma ExamplePrefixedMobileShape()
    ensures IsLandline("5511998765432") && !MobileLength("5511998765432")
  {
    var d := "5511998765432";
    assert d[..2] == "55";
    assert Local(d) == "11998765432";
    assert TwoDigitValue(Local(d), 0) == 11;
  }

  /** Thirteen digits starting with `55` is the only prefixed length the
      landline rules accept, so a prefixed mobile passes as a landline. */
  lemma ExamplePrefixedMobileAsLandline()
    ensures ValidateTelefone("5511998765432").isValid
  {
    ExamplePrefixedMobileClean();
    ExamplePrefixedMobileShape();
  }

  /** The mobile rules want fourteen digits with `55`, so the same number
      fails with the length message. */
  lemma ExamplePrefixedMobileRejected()
    ensures ValidateCelular("5511998765432").error == Some(MobileLengthMessage)
  {
    ExamplePrefixedMobileClean();
    ExamplePrefixedMobileShape();
  }
}
