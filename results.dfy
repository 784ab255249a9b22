/** The record every validator and the dispatcher return
    (nodes/BrDataUtils/types.ts, extended with the `unmasked` and `masked`
    fields that the validators actually fill in). */
module Results {
  import opened Wrappers

  datatype ValidationResult = ValidationResult(
    isValid: bool,
    unmasked: Option<string>,
    masked: Option<string>,
    formatted: Option<string>,
    error: Option<string>)

  /** `{ isValid: false, error: message }` */
  function Invalid(message: string): (r: ValidationResult)
    ensures !r.isValid && r.error == Some(message)
    ensures r.unmasked.None? && r.masked.None? && r.formatted.None?
  {
    ValidationResult(false, None, None, None, Some(message))
  }

  /** `{ isValid: true, unmasked: digits, masked: mask }` */
  function Valid(digits: string, mask: string): (r: ValidationResult)
    ensures r.isValid && r.error.None? && r.formatted.None?
    ensures r.unmasked == Some(digits) && r.masked == Some(mask)
  {
    ValidationResult(true, Some(digits), Some(mask), None, None)
  }

  /** `{ isValid: true, formatted: text }`, the shape of a successful format operation */
  function Formatted(text: string): (r: ValidationResult)
    ensures r.isValid && r.error.None? && r.formatted == Some(text)
    ensures r.unmasked.None? && r.masked.None?
  {
    ValidationResult(true, None, None, Some(text), None)
  }

  /** A valid result carries no error; an invalid one carries an error message. */
  predicate WellFormed(r: ValidationResult) {
    (r.isValid && r.error.None?) || (!r.isValid && r.error.Some?)
  }
}
