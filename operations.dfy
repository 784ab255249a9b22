/** `executeOperation`: the operation tag picks a validator, or a validator
    followed by its formatter (nodes/BrDataUtils/validators/index.ts). */
module Operations {
  import opened Wrappers
  import opened Sanitizer
  import opened Results
  import Cpf
  import Cnpj
  import Telefone
  import Cep

  const UnsupportedMessage := "Operação não suportada"

  /** The five kinds of value the validators read. */
  datatype Document = CpfDocument | CnpjDocument | LandlineDocument | MobileDocument | CepDocument

  /** What a supported tag asks for: validation only, or validation then
      formatting. */
  datatype Operation = ValidateOp(doc: Document) | FormatOp(doc: Document)

  /** The tag of each operation. */
  function Tag(op: Operation): string {
    match op
    case ValidateOp(CpfDocument) => "validarCpf"
    case ValidateOp(CnpjDocument) => "validarCnpj"
    case ValidateOp(LandlineDocument) => "validarTelefone"
    case ValidateOp(MobileDocument) => "validarCelular"
    case ValidateOp(CepDocument) => "validarCep"
    case FormatOp(CpfDocument) => "formatarCpf"
    case FormatOp(CnpjDocument) => "formatarCnpj"
    case FormatOp(LandlineDocument) => "formatarTelefone"
    case FormatOp(MobileDocument) => "formatarCelular"
    case FormatOp(CepDocument) => "formatarCep"
  }

  /** The cases of the source's `switch`: the operation a tag selects, and
      `None` for the `default` branch. */
  function Lookup(operation: string): (r: Option<Operation>)
    ensures r.Some? ==> Tag(r.value) == operation
  {
    match operation
    case "validarCpf" => Some(ValidateOp(CpfDocument))
    case "validarCnpj" => Some(ValidateOp(CnpjDocument))
    case "validarTelefone" => Some(ValidateOp(LandlineDocument))
    case "validarCelular" => Some(ValidateOp(MobileDocument))
    case "validarCep" => Some(ValidateOp(CepDocument))
    case "formatarCpf" => Some(FormatOp(CpfDocument))
    case "formatarCnpj" => Some(FormatOp(CnpjDocument))
    case "formatarTelefone" => Some(FormatOp(LandlineDocument))
    case "formatarCelular" => Some(FormatOp(MobileDocument))
    case "formatarCep" => Some(FormatOp(CepDocument))
    case _ => None
  }

  /** Every operation is selected by its own tag, so the ten tags are
      distinct and each reaches its own branch. */
  lemma LookupTag(op: Operation)
    ensures Lookup(Tag(op)) == Some(op)
  {
  }

  /** The validator for a document. */
  function Validate(doc: Document, value: string): (r: ValidationResult)
    ensures WellFormed(r)
  {
    match doc
    case CpfDocument => Cpf.Validation(value)
    case CnpjDocument => Cnpj.Validation(value)
    case LandlineDocument => Telefone.ValidateTelefone(value)
    case MobileDocument => Telefone.ValidateCelular(value)
    case CepDocument => Cep.ValidateCep(value)
  }

  /** The formatter for a document. */
  function Format(doc: Document, value: string): string {
    match doc
    case CpfDocument => Cpf.FormatCpf(value)
    case CnpjDocument => Cnpj.FormatCnpj(value)
    case LandlineDocument => Telefone.FormatTelefone(value)
    case MobileDocument => Telefone.FormatCelular(value)
    case CepDocument => Cep.FormatCep(value)
  }

  /** A `formatarX` branch: the validator's failure as it is, or only the
      formatted value on success. */
  function FormatIfValid(validation: ValidationResult, formatted: string): (r: ValidationResult)
    ensures r.isValid <==> validation.isValid
    ensures r.isValid ==> r.formatted == Some(formatted) && r.masked.None? && r.unmasked.None?
    ensures !r.isValid ==> r == validation
  {
    if validation.isValid then Formatted(formatted) else validation
  }

  /** `executeOperation`: the selected validator, the validator followed
      by the formatter, or the unsupported-operation failure. Every result is
      valid without an error or invalid with one. */
  function ExecuteOperation(operation: string, value: string): (r: ValidationResult)
    ensures WellFormed(r)
  {
    match Lookup(operation)
    case Some(ValidateOp(doc)) => Validate(doc, value)
    case Some(FormatOp(doc)) => FormatIfValid(Validate(doc, value), Format(doc, value))
    case None => Invalid(UnsupportedMessage)
  }

  /** Each `validarX` tag returns exactly what the validator returns. */
  lemma ValidateTagDelegates(doc: Document, value: string)
    ensures ExecuteOperation(Tag(ValidateOp(doc)), value) == Validate(doc, value)
  {
    LookupTag(ValidateOp(doc));
  }

  /** On a valid value a `formatarX` tag yields the formatted value only, and
      it is the mask the validator reports for the same value. */
  lemma FormatTagOnValid(doc: Document, value: string)
    requires Validate(doc, value).isValid
    ensures ExecuteOperation(Tag(FormatOp(doc)), value) == Formatted(Format(doc, value))
    ensures ExecuteOperation(Tag(FormatOp(doc)), value).formatted == Validate(doc, value).masked
    ensures ExecuteOperation(Tag(FormatOp(doc)), value).masked.None?
    ensures ExecuteOperation(Tag(FormatOp(doc)), value).unmasked.None?
  {
    LookupTag(FormatOp(doc));
    FormatMatchesMask(doc, value);
  }

  /** On an invalid value a `formatarX` tag passes the validator's failure on
      unchanged. */
  lemma FormatTagOnInvalid(doc: Document, value: string)
    requires !Validate(doc, value).isValid
    ensures ExecuteOperation(Tag(FormatOp(doc)), value) == Validate(doc, value)
  {
    LookupTag(FormatOp(doc));
  }

  /** A `formatarX` tag succeeds exactly when its `validarX` tag does. */
  lemma FormatTagAgreesWithValidateTag(doc: Document, value: string)
    ensures ExecuteOperation(Tag(FormatOp(doc)), value).isValid
            <==> ExecuteOperation(Tag(ValidateOp(doc)), value).isValid
  {
    LookupTag(FormatOp(doc));
    LookupTag(ValidateOp(doc));
  }

  /** Formatting the raw value gives the same text as formatting the digits
      the validator cleaned out of it, because every formatter re-sanitizes. */
  lemma FormatMatchesMask(doc: Document, value: string)
    requires Validate(doc, value).isValid
    ensures Validate(doc, value).masked == Some(Format(doc, value))
  {
    match doc
    case CpfDocument => Cpf.FormatMatchesMask(value);
    case CnpjDocument => Cnpj.FormatMatchesMask(value);
    case LandlineDocument => Telefone.FormatTelefoneMatchesMask(value);
    case MobileDocument => Telefone.FormatCelularMatchesMask(value);
    case CepDocument => Cep.FormatMatchesMask(value);
  }

  /** Every tag outside the ten known ones is unsupported. */
  lemma UnsupportedTag(operation: string, value: string)
    requires forall op: Operation :: operation != Tag(op)
    ensures ExecuteOperation(operation, value) == Invalid(UnsupportedMessage)
  {
  }

  /** The category placeholders of the operation type reach the default branch. */
  lemma CategoryTagsUnsupported(value: string)
    ensures ExecuteOperation("validations", value) == Invalid(UnsupportedMessage)
    ensures ExecuteOperation("formatting", value) == Invalid(UnsupportedMessage)
  {
  }

  /** An empty or blank value fails every validating and formatting tag. */
  lemma BlankRejected(doc: Document, value: string)
    requires WhitespaceOnly(value)
    ensures !ExecuteOperation(Tag(ValidateOp(doc)), value).isValid
    ensures !ExecuteOperation(Tag(FormatOp(doc)), value).isValid
  {
    LookupTag(ValidateOp(doc));
    LookupTag(FormatOp(doc));
    match doc
    case CpfDocument => Cpf.BlankRejected(value);
    case CnpjDocument => Cnpj.BlankRejected(value);
    case LandlineDocument => Telefone.BlankRejected(value);
    case MobileDocument => Telefone.BlankRejected(value);
    case CepDocument => Cep.BlankRejected(value);
  }
}
