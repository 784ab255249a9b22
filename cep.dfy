/** CEP, the postal code: eight digits, any of them except all zeros
    (nodes/BrDataUtils/validators/cep.ts). */
module Cep {
  import opened Wrappers
  import opened Sanitizer
  import opened Results

  /** The punctuation `sanitizeCep` accepts and removes. */
  const CepPunctuation: set<char> := {'-'}

  const InvalidCharactersMessage := "CEP contém caracteres inválidos"
  const WrongLengthMessage := "CEP deve ter 8 dígitos"
  const ZeroMessage := "CEP não pode ser 00000-000"

  /** The one eight-digit code the validator refuses. */
  const Zero := "00000000"

  /** `sanitizeCep`: `Some(cleaned)` exactly when the trimmed input is made of
      digits and `-` and holds at least one digit. */
  function SanitizeCep(value: string): (r: Option<string>)
    ensures r.Some? <==> OnlyAllowed(Trim(value), CepPunctuation) && HasDigit(Trim(value))
    ensures r.Some? ==> AllDigits(r.value) && r.value == Strip(Trim(value), CepPunctuation)
  {
    SanitizeAccepts(value, CepPunctuation);
    Sanitize(value, CepPunctuation)
  }

  /** A digit string the validator accepts. */
  predicate IsCep(d: string) {
    |d| == 8 && DigitsOnly(d) && d != Zero
  }

  /** The mask `XXXXX-XXX`. */
  function Mask(d: string): (m: string)
    requires |d| == 8
    ensures |m| == 9 && m[5] == '-'
  {
    d[..5] + "-" + d[5..]
  }

  /** `formatCep`: the mask when the input sanitizes to eight digits (zeros
      included), and the input itself otherwise. Formatting never changes
      what the input sanitizes to. */
  function FormatCep(cep: string): (r: string)
    ensures SanitizeCep(r) == SanitizeCep(cep)
    ensures r != cep ==> SanitizeCep(cep).Some? && |SanitizeCep(cep).value| == 8
    ensures SanitizeCep(cep).Some? && |SanitizeCep(cep).value| == 8 ==> r == Mask(SanitizeCep(cep).value)
  {
    match SanitizeCep(cep)
    case None => cep
    case Some(clean) =>
      if |clean| != 8 then cep
      else
        MaskRoundTrip(clean);
        Mask(clean)
  }

  /** `validateCep`: characters, then length, then the all-zero code. */
  function ValidateCep(cep: string): (r: ValidationResult)
    ensures WellFormed(r)
    ensures r.isValid <==> SanitizeCep(cep).Some? && IsCep(SanitizeCep(cep).value)
    ensures r.isValid ==> r == Valid(SanitizeCep(cep).value, Mask(SanitizeCep(cep).value))
    ensures r.error == Some(InvalidCharactersMessage) <==> SanitizeCep(cep).None?
    ensures r.error == Some(WrongLengthMessage) <==>
      SanitizeCep(cep).Some? && |SanitizeCep(cep).value| != 8
    ensures r.error == Some(ZeroMessage) <==> SanitizeCep(cep) == Some(Zero)
  {
    match SanitizeCep(cep)
    case None => Invalid(InvalidCharactersMessage)
    case Some(clean) =>
      if |clean| != 8 then Invalid(WrongLengthMessage)
      else if clean == Zero then Invalid(ZeroMessage)
      else
        SanitizeDigits(clean, CepPunctuation);
        Valid(clean, FormatCep(clean))
  }

  /** The mask of eight digits sanitizes back to those digits. */
  lemma MaskRoundTrip(d: string)
    requires |d| == 8 && DigitsOnly(d)
    ensures SanitizeCep(Mask(d)) == Some(d)
  {
    var p := CepPunctuation;
    var a := d[..5];
    var m := a + "-" + d[5..];
    StripNone(a, p);
    JoinSeparated(a, "-", d[5..], p);
    assert a + d[5..] == d;
    assert m == Mask(d);
    assert m[0] == d[0] && m[|m| - 1] == d[7];
    DigitNotWhitespace(d[0]);
    DigitNotWhitespace(d[7]);
    SanitizeFormatted(m, p);
  }

  /** `formatCep` is idempotent on every input. */
  lemma FormatCepIdempotent(cep: string)
    ensures FormatCep(FormatCep(cep)) == FormatCep(cep)
  {
  }

  /** Among eight-digit strings exactly `00000000` is refused, and a valid
      code is its own unmasked form. */
  lemma OnlyZeroRefused(d: string)
    requires |d| == 8 && DigitsOnly(d)
    ensures ValidateCep(d).isValid <==> d != Zero
    ensures ValidateCep(d).isValid ==> ValidateCep(d).unmasked == Some(d)
    ensures !ValidateCep(d).isValid ==> ValidateCep(d) == Invalid(ZeroMessage)
  {
    SanitizeDigits(d, CepPunctuation);
  }

  /** A valid result's mask sanitizes back to its unmasked digits. */
  lemma ValidMaskRoundTrip(cep: string)
    requires ValidateCep(cep).isValid
    ensures SanitizeCep(ValidateCep(cep).masked.value) == ValidateCep(cep).unmasked
  {
    MaskRoundTrip(SanitizeCep(cep).value);
  }

  /** An empty or blank input has no digit and is rejected as invalid characters. */
  lemma BlankRejected(cep: string)
    requires WhitespaceOnly(cep)
    ensures ValidateCep(cep) == Invalid(InvalidCharactersMessage)
  {
    TrimWhitespaceOnly(cep);
  }

  /** On a valid value the validator's mask is what the formatter makes of
      the raw value. */
  lemma FormatMatchesMask(cep: string)
    requires ValidateCep(cep).isValid
    ensures ValidateCep(cep).masked == Some(FormatCep(cep))
  {
    SanitizeDigits(SanitizeCep(cep).value, CepPunctuation);
  }

  // Concrete cases from tests/validators/cep.test.ts, one literal fact per
  // lemma.

  lemma ExampleMask()
    ensures Mask("01310100") == "01310-100"
    ensures SanitizeCep("01310-100") == Some("01310100")
  {
    var d := "01310100";
    assert d[..5] == "01310" && d[5..] == "100";
    assert Mask(d) == "01310-100";
    MaskRoundTrip(d);
  }

  lemma ExampleClean()
    ensures SanitizeCep("01310100") == Some("01310100")
  {
    assert AllDigits("01310100");
    SanitizeDigits("01310100", CepPunctuation);
  }

  /** tests/validators/cep.test.ts:112-116. */
  lemma ExampleFormatted()
    ensures FormatCep("01310100") == "01310-100"
  {
    ExampleMask();
    ExampleClean();
  }

  /** tests/validators/cep.test.ts:118-122: a formatted code stays as it is. */
  lemma ExampleFormattedAgain()
    ensures FormatCep("01310-100") == "01310-100"
  {
    ExampleFormatted();
    FormatCepIdempotent("01310100");
  }

  lemma ExampleNotZero()
    ensures "01310100" != Zero
  {
    assert "01310100"[1] != Zero[1];
  }

  /** tests/validators/cep.test.ts:33-39. */
  lemma ExampleAccepted()
    ensures ValidateCep("01310100") == Valid("01310100", "01310-100")
  {
    ExampleClean();
    ExampleNotZero();
    ExampleFormatted();
  }

  lemma ExampleTrimmed()
    ensures SanitizeCep("  01310-100  ") == Some("01310100")
  {
    assert "  01310-100  " == "  " + "01310-100" + "  ";
    SanitizePadded("  ", "01310-100", "  ", CepPunctuation);
    ExampleMask();
  }

  /** tests/validators/cep.test.ts:26-31. */
  lemma ExampleTrimmedAccepted()
    ensures ValidateCep("  01310-100  ") == Valid("01310100", "01310-100")
  {
    ExampleTrimmed();
    ExampleNotZero();
    ExampleFormatted();
  }

  lemma ExampleZeroSanitized()
    ensures SanitizeCep("00000-000") == Some(Zero)
  {
    assert Zero[..5] == "00000" && Zero[5..] == "000";
    assert Mask(Zero) == "00000-000";
    MaskRoundTrip(Zero);
  }

  /** tests/validators/cep.test.ts:42-46. */
  lemma ExampleZero()
    ensures ValidateCep("00000-000") == Invalid(ZeroMessage)
  {
    ExampleZeroSanitized();
  }

  /** tests/validators/cep.test.ts:48-61: seven digits. */
  lemma ExampleShort()
    ensures ValidateCep("1234-567").error == Some(WrongLengthMessage)
  {
    HyphenJoined("1234", "567");
    ExampleShortShape();
  }

  lemma ExampleShortShape()
    ensures "1234" + "-" + "567" == "1234-567" && |"1234" + "567"| == 7
  {
  }

  /** Two runs of digits joined by a hyphen sanitize to their concatenation. */
  lemma HyphenJoined(x: string, y: string)
    requires DigitsOnly(x) && DigitsOnly(y) && x != [] && y != []
    ensures SanitizeCep(x + "-" + y) == Some(x + y)
  {
    var p := CepPunctuation;
    var m := x + "-" + y;
    StripNone(x, p);
    JoinSeparated(x, "-", y, p);
    assert m[0] == x[0] && m[|m| - 1] == y[|y| - 1];
    DigitNotWhitespace(x[0]);
    DigitNotWhitespace(y[|y| - 1]);
    SanitizeFormatted(m, p);
  }

  /** tests/validators/cep.test.ts:63-77: a letter is an invalid character. */
  lemma ExampleInvalidCharacters()
    ensures ValidateCep("0131a-100") == Invalid(InvalidCharactersMessage)
  {
    TrimNoop("0131a-100");
    assert "0131a-100"[4] == 'a';
    assert !OnlyAllowed("0131a-100", CepPunctuation);
  }
}
