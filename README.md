# Brazilian document validators, modelled in Dafny

This project models the validators of the n8n node "BR Data Utils". They
check and format four kinds of Brazilian identifiers:

- CPF, the individual taxpayer number: 11 digits, the last two modulo-11 check digits;
- CNPJ, the company taxpayer number: 14 digits, the last two check digits over fixed weight tables;
- telephone numbers: landlines (`telefone`) and mobiles (`celular`), with an optional `55` country prefix;
- CEP, the postal code: 8 digits.

It also models `executeOperation`, which maps an operation tag such as
`validarCpf` or `formatarCep` to a validator, or to a validator followed by
its formatter.

Every validator follows the same pattern:

1. A **sanitizer** trims the input. It accepts only digits and a small set
   of punctuation, and removes that punctuation. The sets are `.` `-` for
   CPF, `.` `/` `-` for CNPJ, `(` `)` space `+` `-` for phones, and `-`
   for CEP.
2. Structural **checks** run in a fixed order, each with its own
   Portuguese error message.
3. **On success** the result carries the cleaned digits (`unmasked`) and
   the formatter applied to them (`masked`).

Each formatter re-sanitizes its argument. It returns the mask when the
digit count is right, and the argument unchanged otherwise.

## Modules

- `Wrappers`: `Option`.
- `Sanitizer`: the shared machinery:
  - JavaScript `trim` over its whitespace set;
  - the allow-list test and the punctuation removal;
  - the generic sanitizer, with its characterisation and round-trip lemmas.
- `Results`: the result record (`isValid`, `unmasked`, `masked`, `formatted`, `error`) and its three shapes.
- `Cpf`, `Cnpj`:
  - each sanitizer;
  - the check-digit rule over a recursively defined weighted sum;
  - the mask and the formatter;
  - a specification function `Validation`;
  - the imperative `validateCpf`/`validateCnpj`, proved equal to `Validation`. Each of the source's two `for` loops, with the remainder step after it, is the method `CheckDigitOf`, called once per check digit.
- `Telefone`: the phone sanitizer, both validators and both formatters, including the country-prefix branches.
- `Cep`: the postal-code sanitizer, validator and formatter.
- `Operations`: the dispatch.
  - `Lookup` is the table of the source's `switch`. `Tag` is its inverse.
  - `ExecuteOperation` runs the selected branch.

## Where the model follows the code rather than its comments and tests

- **Country-prefix phone format.** The formatter comments
  (telefone.ts:127 and :148) give the patterns `(XX) XXXX-XXXX` and
  `(XX) 9XXXX-XXXX`. In the `55` branch the code applies the 10- or 11-digit
  pattern to the 11 or 12 digits after `55`. That pattern cannot match, so
  the output is `+55 ` followed by the unpunctuated digits.
  `Telefone.CountryPrefixUnpunctuated` states this behaviour.
- **Country-prefix lengths.** The comments at telefone.ts:41 and :90 count
  13 and 14 digits with the country code, and the code tests those. `55` plus
  a 10- or 11-digit national number is 12 or 13 digits. So `5511998765432`,
  a mobile written with its prefix, is accepted as a landline and refused
  as a mobile with the length message (`Telefone.ExamplePrefixedMobileAsLandline`,
  `Telefone.ExamplePrefixedMobileRejected`).
- **Formatter sanitizing.** The formatters use the same strict sanitizer as
  the validators. An input with any character outside the allow-list is
  returned unchanged, not stripped of that character.
- **Unsupported tags.** The error text is the code's `Operação não suportada`.
- **Area code 99.** The landline test suite lists `(99) 3456-7890` among the
  rejected area codes. The code's range check `ddd < 11 || ddd > 99` accepts
  99, and the test's own comment says 99 would be valid.
  `Telefone.ExampleLandlineAreaCodeNinetyNine` states what the code does.

## Model

| member | source | states |
|---|---|---|
| Sanitizer.DigitValue | nodes/BrDataUtils/validators/cpf.ts:51 | `parseInt` of one digit character is a value from 0 to 9 |
| Sanitizer.DigitChar | nodes/BrDataUtils/validators/cpf.ts:51 | every value 0 to 9 is the value of exactly the digit character produced |
| Sanitizer.DigitValueInjective | nodes/BrDataUtils/validators/cpf.ts:55 | two digits with the same `parseInt` value are the same character, so a check-digit comparison pins the character |
| Sanitizer.AllDigits | nodes/BrDataUtils/validators/cpf.ts:20 | `/^\d+$/`: a non-empty string of ASCII digits; `StripAllowed` and `SanitizeAccepts` state when the cleaned text passes it |
| Sanitizer.AllSameDigit | nodes/BrDataUtils/validators/cpf.ts:44 | `/^(\d)\1+$/`: at least two characters, all equal to the first; `Cpf.Validation` and `Cnpj.Validation` give the repeated-digits message exactly when it holds of cleaned digits of the right length |
| Sanitizer.TrimStart | nodes/BrDataUtils/validators/cpf.ts:9 | the leading half of `trim`: never longer than its input; `TrimStartSpec` states what it drops and keeps |
| Sanitizer.TrimEnd | nodes/BrDataUtils/validators/cpf.ts:9 | the trailing half of `trim`: never longer than its input; `TrimEndSpec` states what it drops and keeps |
| Sanitizer.TrimStartSpec | nodes/BrDataUtils/validators/cpf.ts:9 | the leading part `trim` drops is all whitespace, what remains is a suffix of the input, and it does not start with whitespace |
| Sanitizer.TrimEndSpec | nodes/BrDataUtils/validators/cpf.ts:9 | the trailing part dropped is all whitespace, what remains is a prefix, and it does not end with whitespace |
| Sanitizer.TrimSpec | nodes/BrDataUtils/validators/cpf.ts:9 | the trimmed string sits inside the input between two whitespace-only runs, and neither end is whitespace |
| Sanitizer.TrimPrefixWhitespace | nodes/BrDataUtils/validators/cpf.ts:9 | the characters `trim` drops before the text it keeps form a whitespace-only prefix |
| Sanitizer.TrimSuffixWhitespace | nodes/BrDataUtils/validators/cpf.ts:9 | the text kept sits right after the dropped prefix, and everything after it is whitespace |
| Sanitizer.TrimWhitespaceOnly | nodes/BrDataUtils/validators/cpf.ts:9 | a blank input trims to the empty string |
| Sanitizer.TrimStartPadded | nodes/BrDataUtils/validators/cpf.ts:9 | leading whitespace before a non-whitespace character is exactly what is removed |
| Sanitizer.TrimEndPadded | nodes/BrDataUtils/validators/cpf.ts:9 | trailing whitespace after a non-whitespace character is exactly what is removed |
| Sanitizer.TrimPadded | nodes/BrDataUtils/validators/cpf.ts:9 | trimming whitespace-padded text with non-whitespace ends gives back that text |
| Sanitizer.TrimNoop | nodes/BrDataUtils/validators/cpf.ts:9 | text whose ends are not whitespace is not changed by `trim` |
| Sanitizer.Trim | nodes/BrDataUtils/validators/cpf.ts:9 | `value.trim()`, as leading and trailing whitespace removal; its contract is stated by `TrimStartSpec`, `TrimEndSpec` and `TrimSpec` |
| Sanitizer.DigitNotWhitespace | nodes/BrDataUtils/validators/cpf.ts:9 | a digit is never whitespace, so `trim` never removes one |
| Sanitizer.StripAppend | nodes/BrDataUtils/validators/cpf.ts:17 | the global `replace` of punctuation distributes over concatenation |
| Sanitizer.StripNone | nodes/BrDataUtils/validators/cpf.ts:17 | text without punctuation is unchanged by the removal |
| Sanitizer.StripAll | nodes/BrDataUtils/validators/cpf.ts:17 | text of punctuation only is removed entirely |
| Sanitizer.Strip | nodes/BrDataUtils/validators/cpf.ts:17 | the global `replace` of the punctuation class: the result is never longer than the input; what it removes is stated by `StripNone`, `StripAll` and `StripAppend` |
| Sanitizer.StripAllowed | nodes/BrDataUtils/validators/cpf.ts:12-20 | once the allow-list test passes, removing the punctuation leaves only digits, and leaves some exactly when the input had a digit |
| Sanitizer.OnlyAllowed | nodes/BrDataUtils/validators/cpf.ts:12 | the allow-list test `/^[\d<p>]+$/`: non-empty, each character a digit or listed punctuation; `SanitizeAccepts` makes it the exact condition for success together with a digit |
| Sanitizer.SanitizeAccepts | nodes/BrDataUtils/validators/cpf.ts:7-25 | the sanitizer succeeds exactly when the trimmed input passes the allow-list and holds a digit; the cleaned value is then all digits and is the trimmed input with punctuation removed |
| Sanitizer.Sanitize | nodes/BrDataUtils/validators/cpf.ts:7-25 | the shared sanitizer: a success is a digit string no longer than the input; `SanitizeAccepts` states exactly when it succeeds and what it returns |
| Sanitizer.SanitizeDigits | nodes/BrDataUtils/validators/cpf.ts:7-25 | a non-empty digit string sanitizes to itself |
| Sanitizer.SanitizeFormatted | nodes/BrDataUtils/validators/cpf.ts:7-25 | allowed text with non-whitespace ends and a digit sanitizes to its digits |
| Sanitizer.SanitizePadded | nodes/BrDataUtils/validators/cpf.ts:7-25 | whitespace around text with non-whitespace ends does not change what the text sanitizes to |
| Sanitizer.AllowedAppend | nodes/BrDataUtils/validators/cpf.ts:12 | the allow-list test holds of a concatenation when it holds of both parts |
| Sanitizer.JoinSeparated | nodes/BrDataUtils/validators/cpf.ts:17 | appending a punctuation separator and digits keeps the text allowed and adds exactly those digits to the cleaned result |
| Sanitizer.LeadingSeparator | nodes/BrDataUtils/validators/telefone.ts:17 | punctuation followed by digits is allowed and cleans to the digits |
| Results.Invalid | nodes/BrDataUtils/validators/cpf.ts:35 | a failure carries `isValid` false and the message, and nothing else |
| Results.Valid | nodes/BrDataUtils/validators/cpf.ts:70-74 | a success carries `isValid` true, the digits and the mask, and no error |
| Results.Formatted | nodes/BrDataUtils/validators/index.ts:34 | a formatting success carries only `isValid` true and the formatted text |
| Cpf.SanitizeCpf | nodes/BrDataUtils/validators/cpf.ts:7-25 | success exactly for trimmed input of digits, `.` and `-` with a digit; the result is those digits |
| Cpf.WeightedSum | nodes/BrDataUtils/validators/cpf.ts:49-52 | the sum of digit times weight is non-negative when the weights are positive |
| Cpf.CheckDigit | nodes/BrDataUtils/validators/cpf.ts:53-54 | the check digit (ten times the sum, modulo 11, 10 read as 0) is a digit value |
| Cpf.IsCpf | nodes/BrDataUtils/validators/cpf.ts:39-68 | the acceptance condition: 11 digits, not all equal, both check digits right; `Validation` is valid exactly when it holds of the cleaned digits |
| Cpf.CheckDigitOf | nodes/BrDataUtils/validators/cpf.ts:49-65 | each accumulating loop, with its remainder adjustment, computes exactly the check digit |
| Cpf.CheckDigitIsElevenMinusRemainder | nodes/BrDataUtils/validators/cpf.ts:49-57 | the CPF rule is the rule the CNPJ validator uses, on the same weighted sum: 0 for remainder 0 or 1, else 11 minus the remainder |
| Cpf.FormatCpf | nodes/BrDataUtils/validators/cpf.ts:83-89 | when the input cleans to 11 digits, valid or not, the output is their mask; otherwise it is the input; in every case the output sanitizes to the same digits as the input |
| Cpf.Mask | nodes/BrDataUtils/validators/cpf.ts:88 | the mask is 14 characters with `.` at positions 3 and 7 and `-` at 11 |
| Cpf.MaskRoundTrip | nodes/BrDataUtils/validators/cpf.ts:88 | the mask `XXX.XXX.XXX-XX` of 11 digits sanitizes back to those digits |
| Cpf.FormatCpfIdempotent | nodes/BrDataUtils/validators/cpf.ts:83-89 | formatting twice is formatting once |
| Cpf.Validation | nodes/BrDataUtils/validators/cpf.ts:30-74 | the result is well formed; valid exactly for an 11-digit, not all-equal string with both check digits right; a success holds the digits and their mask; each early error appears exactly under its condition |
| Cpf.CheckDigitErrors | nodes/BrDataUtils/validators/cpf.ts:48-68 | the first-digit message appears exactly when the earlier checks pass and the tenth digit is wrong; the second-digit message exactly when the tenth is right and the eleventh wrong |
| Cpf.ValidateCpf | nodes/BrDataUtils/validators/cpf.ts:30-78 | the checks in their order, the two check-digit loops and the final result compute exactly `Validation` |
| Cpf.CheckDigitsDetermined | nodes/BrDataUtils/validators/cpf.ts:48-68 | two valid CPFs with the same first nine digits are equal |
| Cpf.WithCheckDigits | nodes/BrDataUtils/validators/cpf.ts:48-68 | nine digits extended by their two check digits are eleven digits that start with the nine |
| Cpf.Complete | nodes/BrDataUtils/validators/cpf.ts:43-74 | any nine digits, not all equal, extended by their two computed check digits (`WithCheckDigits`) is accepted, with its mask |
| Cpf.BlankRejected | nodes/BrDataUtils/validators/cpf.ts:9-36 | an empty or blank input fails with the invalid-characters message |
| Cpf.FormatMatchesMask | nodes/BrDataUtils/validators/cpf.ts:73-89 | on valid input the mask in the result is the formatter applied to the raw input |
| Cpf.ExampleSanitized | tests/validators/cpf.test.ts:10 | `123.456.789-09` is the mask of `12345678909` and sanitizes to it |
| Cpf.ExampleFirstCheckDigit | nodes/BrDataUtils/validators/cpf.ts:49-54 | the first check digit of `123456789` is 0 |
| Cpf.ExampleSecondCheckDigit | nodes/BrDataUtils/validators/cpf.ts:60-65 | the second check digit of `1234567890` is 9 |
| Cpf.ExampleTrimmed | tests/validators/cpf.test.ts:25-27 | surrounding spaces are trimmed away |
| Cpf.ExampleAccepted | tests/validators/cpf.test.ts:25-30 | `  123.456.789-09  ` is valid with `12345678909` and `123.456.789-09` |
| Cpf.ExampleFormatted | tests/validators/cpf.test.ts:115-119 | `12345678909` formats to `123.456.789-09` |
| Cpf.ExampleFormattedAgain | tests/validators/cpf.test.ts:121-125 | an already formatted CPF formats to itself |
| Cpf.ExampleInvalidCharacters | tests/validators/cpf.test.ts:74 | a letter gives the invalid-characters error |
| Cpf.ExampleRepeated | tests/validators/cpf.test.ts:46-54 | `111.111.111-11` gives the repeated-digits error |
| Cpf.ExampleWrongCheckDigit | tests/validators/cpf.test.ts:40-44 | `123.456.789-99` gives the first-check-digit error |
| Cnpj.SanitizeCnpj | nodes/BrDataUtils/validators/cnpj.ts:7-25 | success exactly for trimmed input of digits, `.`, `/` and `-` with a digit; the result is the trimmed input with that punctuation removed, and all digits |
| Cnpj.WeightedSum | nodes/BrDataUtils/validators/cnpj.ts:49-53 | the sum of digit times table weight is non-negative |
| Cnpj.DigitFromSum | nodes/BrDataUtils/validators/cnpj.ts:54-55 | the check digit (0 below remainder 2, else 11 minus the remainder) is a digit value |
| Cnpj.IsCnpj | nodes/BrDataUtils/validators/cnpj.ts:39-72 | the acceptance condition: 14 digits, not all equal, both weighted check digits right; `Validation` is valid exactly when it holds of the cleaned digits |
| Cnpj.CheckDigitOf | nodes/BrDataUtils/validators/cnpj.ts:49-68 | each loop over a weight table, with its remainder rule, computes exactly the check digit of the weighted sum |
| Cnpj.FormatCnpj | nodes/BrDataUtils/validators/cnpj.ts:87-93 | when the input cleans to 14 digits, valid or not, the output is their mask; otherwise it is the input; in every case the output sanitizes to the same digits as the input |
| Cnpj.Mask | nodes/BrDataUtils/validators/cnpj.ts:92 | the mask is 18 characters with `.` at 2 and 6, `/` at 10 and `-` at 15 |
| Cnpj.MaskRoundTrip | nodes/BrDataUtils/validators/cnpj.ts:92 | the mask `XX.XXX.XXX/XXXX-XX` of 14 digits sanitizes back to those digits |
| Cnpj.FormatCnpjIdempotent | nodes/BrDataUtils/validators/cnpj.ts:87-93 | formatting twice is formatting once |
| Cnpj.Validation | nodes/BrDataUtils/validators/cnpj.ts:30-78 | the result is well formed; valid exactly for a 14-digit, not all-equal string with both weighted check digits right; a success holds the digits and their mask; each early error appears exactly under its condition |
| Cnpj.CheckDigitErrors | nodes/BrDataUtils/validators/cnpj.ts:48-72 | the first-digit message appears exactly when the earlier checks pass and the thirteenth digit is wrong; the second-digit message exactly when the thirteenth is right and the fourteenth wrong |
| Cnpj.ValidateCnpj | nodes/BrDataUtils/validators/cnpj.ts:30-82 | the checks in their order, the loops over `weights1` and `weights2` and the final result compute exactly `Validation` |
| Cnpj.CheckDigitsDetermined | nodes/BrDataUtils/validators/cnpj.ts:48-72 | two valid CNPJs with the same first twelve digits are equal |
| Cnpj.WithCheckDigits | nodes/BrDataUtils/validators/cnpj.ts:48-72 | twelve digits extended by their two check digits are fourteen digits that start with the twelve |
| Cnpj.Complete | nodes/BrDataUtils/validators/cnpj.ts:43-78 | any twelve digits extended by their two computed check digits (`WithCheckDigits`) is accepted, with its mask, unless the completed number is one repeated digit |
| Cnpj.ExampleRepeatedBase | nodes/BrDataUtils/validators/cnpj.ts:48-72 | the repeated base `111111111111` completes to `11111111111180`, which is not one repeated digit |
| Cnpj.ExampleRepeatedBaseFirstSum | nodes/BrDataUtils/validators/cnpj.ts:48-53 | the first weighted sum of `111111111111` is 58 |
| Cnpj.ExampleRepeatedBaseSecondSum | nodes/BrDataUtils/validators/cnpj.ts:61-66 | the second weighted sum of `111111111111` is 62 |
| Cnpj.ExampleRepeatedBaseAccepted | nodes/BrDataUtils/validators/cnpj.ts:30-78 | `11111111111180` is a valid CNPJ |
| Cnpj.BlankRejected | nodes/BrDataUtils/validators/cnpj.ts:9-36 | an empty or blank input fails with the invalid-characters message |
| Cnpj.FormatMatchesMask | nodes/BrDataUtils/validators/cnpj.ts:77-93 | on valid input the mask in the result is the formatter applied to the raw input |
| Cnpj.ExampleSanitized | tests/validators/cnpj.test.ts:10 | `11.222.333/0001-81` is the mask of `11222333000181` and sanitizes to it |
| Cnpj.ExampleFirstCheckDigit | nodes/BrDataUtils/validators/cnpj.ts:49-55 | the first check digit of `112223330001` is 8 |
| Cnpj.ExampleSecondCheckDigit | nodes/BrDataUtils/validators/cnpj.ts:62-68 | the second check digit of `1122233300018` is 1 |
| Cnpj.ExampleAccepted | tests/validators/cnpj.test.ts:8-29 | `11.222.333/0001-81` is valid, with its digits and mask |
| Cnpj.ExampleWrongCheckDigit | tests/validators/cnpj.test.ts:39-43 | `11.222.333/0001-99` gives the first-check-digit error |
| Telefone.SanitizePhone | nodes/BrDataUtils/validators/telefone.ts:7-25 | success exactly for trimmed input of digits, `(`, `)`, space, `+` and `-` with a digit; the result is the trimmed input with that punctuation removed, and all digits |
| Telefone.TwoDigitValue | nodes/BrDataUtils/validators/telefone.ts:44-56 | `parseInt` of the two area-code digits is between 0 and 99 |
| Telefone.Local | nodes/BrDataUtils/validators/telefone.ts:42-61 | the digits the area-code and first-digit checks read: a suffix of the number, two shorter once the `55` prefix is there |
| Telefone.LandlineLength | nodes/BrDataUtils/validators/telefone.ts:42-54 | the landline length test: 10 digits, or 13 starting with `55`; `ValidateTelefone` gives the length message exactly when it fails |
| Telefone.MobileLength | nodes/BrDataUtils/validators/telefone.ts:91-102 | the mobile length test: 11 digits, or 14 starting with `55`; `ValidateCelular` gives the length message exactly when it fails |
| Telefone.IsLandline | nodes/BrDataUtils/validators/telefone.ts:42-64 | the landline rules: 10 digits or 13 with `55`, area code at least 11, first subscriber digit 2 to 9; `ValidateTelefone` is valid exactly when they hold |
| Telefone.IsMobile | nodes/BrDataUtils/validators/telefone.ts:91-111 | the mobile rules: 11 digits or 14 with `55`, area code at least 11, then a `9`; `ValidateCelular` is valid exactly when they hold |
| Telefone.LandlinePattern | nodes/BrDataUtils/validators/telefone.ts:137-140 | on 10 digits, 14 characters with `(` at 0, `)` and space at 3 and 4, `-` at 9; any other string is left as it is |
| Telefone.MobilePattern | nodes/BrDataUtils/validators/telefone.ts:158-161 | on 11 digits, 15 characters with `(` at 0, `)` and space at 3 and 4, `-` at 10; any other string is left as it is |
| Telefone.FormatTelefone | nodes/BrDataUtils/validators/telefone.ts:129-145 | 10 cleaned digits become `LandlinePattern` of them, `(DD) NNNN-NNNN`; 13 starting with `55` become `+55 ` and the remaining digits; any other input is returned as it is; the output sanitizes to the same digits as the input |
| Telefone.FormatCelular | nodes/BrDataUtils/validators/telefone.ts:150-166 | 11 cleaned digits become `MobilePattern` of them, `(DD) NNNNN-NNNN`; 14 starting with `55` become `+55 ` and the remaining digits; any other input is returned as it is; the output sanitizes to the same digits as the input |
| Telefone.ValidateTelefone | nodes/BrDataUtils/validators/telefone.ts:30-77 | the result is well formed; valid exactly for a landline digit string (length and prefix, area code at least 11, first digit at least 2); a success holds the digits and their format; the character and length errors appear exactly under their conditions |
| Telefone.ValidateCelular | nodes/BrDataUtils/validators/telefone.ts:82-124 | the same for mobiles: length 11 or 14 with `55`, area code at least 11, then a `9` |
| Telefone.LandlineErrors | nodes/BrDataUtils/validators/telefone.ts:42-64 | the area-code error appears exactly for an accepted length with area code below 11, and the first-digit error exactly when the area code passes and the next digit is 0 or 1 |
| Telefone.MobileErrors | nodes/BrDataUtils/validators/telefone.ts:91-111 | the area-code error appears exactly for an accepted length with area code below 11, and the `9` error exactly when the area code passes and the next digit is not 9 |
| Telefone.LandlinePatternRoundTrip | nodes/BrDataUtils/validators/telefone.ts:137 | `(DD) NNNN-NNNN` of 10 digits sanitizes back to them |
| Telefone.MobilePatternRoundTrip | nodes/BrDataUtils/validators/telefone.ts:158 | `(DD) NNNNN-NNNN` of 11 digits sanitizes back to them |
| Telefone.CountryPrefixRoundTrip | nodes/BrDataUtils/validators/telefone.ts:140-162 | `+55 ` followed by the digits after the prefix sanitizes back to the whole number |
| Telefone.CountryPrefixUnpunctuated | nodes/BrDataUtils/validators/telefone.ts:138-162 | with the `55` prefix the formatter output is `+55 ` and the remaining digits, unpunctuated |
| Telefone.FormatTelefoneIdempotent | nodes/BrDataUtils/validators/telefone.ts:129-145 | formatting a landline twice is formatting it once |
| Telefone.FormatCelularIdempotent | nodes/BrDataUtils/validators/telefone.ts:150-166 | formatting a mobile twice is formatting it once |
| Telefone.ValidTelefoneMaskRoundTrip | nodes/BrDataUtils/validators/telefone.ts:69-73 | a valid landline's mask sanitizes back to its unmasked digits |
| Telefone.ValidCelularMaskRoundTrip | nodes/BrDataUtils/validators/telefone.ts:116-120 | a valid mobile's mask sanitizes back to its unmasked digits |
| Telefone.LandlineMobileDisjoint | nodes/BrDataUtils/validators/telefone.ts:42-102 | no input is both a valid landline and a valid mobile |
| Telefone.BlankRejected | nodes/BrDataUtils/validators/telefone.ts:9-88 | an empty or blank input fails both validators with their invalid-characters messages |
| Telefone.FormatTelefoneMatchesMask | nodes/BrDataUtils/validators/telefone.ts:72-145 | on valid input the mask in the result is the formatter applied to the raw input |
| Telefone.FormatCelularMatchesMask | nodes/BrDataUtils/validators/telefone.ts:119-166 | on valid input the mask in the result is the formatter applied to the raw input |
| Telefone.FormatTelefoneByDigits | nodes/BrDataUtils/validators/telefone.ts:129-145 | for an input of landline length, formatting it gives the same text as formatting its cleaned digits |
| Telefone.FormatCelularByDigits | nodes/BrDataUtils/validators/telefone.ts:150-166 | for an input of mobile length, formatting it gives the same text as formatting its cleaned digits |
| Telefone.ExampleFormatTelefone | tests/validators/telefone.test.ts:159-163 | `1134567890` formats to `(11) 3456-7890` |
| Telefone.ExampleLandlineAccepted | tests/validators/telefone.test.ts:28-32 | `  (11) 3456-7890  ` is valid with `1134567890` |
| Telefone.ExampleFormatCelular | tests/validators/telefone.test.ts:172-177 | `11998765432` formats to `(11) 99876-5432` |
| Telefone.ExampleMobileAccepted | tests/validators/telefone.test.ts:116-120 | `  (11) 99876-5432  ` is valid with `11998765432` |
| Telefone.ExampleMobileNotNine | tests/validators/telefone.test.ts:124-134 | `(11) 88876-5432` gives the `9` error |
| Telefone.ExampleLandlineLowAreaCode | tests/validators/telefone.test.ts:45-56 | `(10) 3456-7890` gives the area-code error |
| Telefone.ExampleLandlineAreaCodeNinetyNine | nodes/BrDataUtils/validators/telefone.ts:44-47 | `(99) 3456-7890` is accepted, since 99 is inside the range 11 to 99 |
| Telefone.ExampleLandlineFirstDigit | tests/validators/telefone.test.ts:59-69 | `(11) 0456-7890` gives the first-digit error |
| Telefone.ExampleLandlineInvalidCharacters | tests/validators/telefone.test.ts:87-95 | a letter gives the invalid-characters error |
| Telefone.ExamplePrefixedMobileAsLandline | nodes/BrDataUtils/validators/telefone.ts:54-64 | `5511998765432`, a mobile written with its `55` prefix, is accepted by the landline validator |
| Telefone.ExamplePrefixedMobileRejected | nodes/BrDataUtils/validators/telefone.ts:91-113 | the same number is refused by the mobile validator with the length message |
| Cep.SanitizeCep | nodes/BrDataUtils/validators/cep.ts:7-25 | success exactly for trimmed input of digits and `-` with a digit; the result is those digits, every hyphen removed |
| Cep.IsCep | nodes/BrDataUtils/validators/cep.ts:39-46 | the acceptance condition: 8 digits other than `00000000`; `ValidateCep` is valid exactly when it holds of the cleaned digits |
| Cep.FormatCep | nodes/BrDataUtils/validators/cep.ts:61-67 | when the input cleans to 8 digits, `00000000` included, the output is their mask `XXXXX-XXX`; otherwise it is the input; in every case the output sanitizes to the same digits as the input |
| Cep.Mask | nodes/BrDataUtils/validators/cep.ts:66 | the mask is 9 characters with `-` at position 5 |
| Cep.ValidateCep | nodes/BrDataUtils/validators/cep.ts:30-56 | the result is well formed; valid exactly for 8 digits other than `00000000`; a success holds the digits and `XXXXX-XXX`; each error appears exactly under its condition |
| Cep.MaskRoundTrip | nodes/BrDataUtils/validators/cep.ts:66 | the mask `XXXXX-XXX` of 8 digits sanitizes back to them |
| Cep.FormatCepIdempotent | nodes/BrDataUtils/validators/cep.ts:61-67 | formatting twice is formatting once |
| Cep.OnlyZeroRefused | nodes/BrDataUtils/validators/cep.ts:39-52 | among 8-digit strings exactly `00000000` is refused, with the zero message; the others are valid with themselves as unmasked |
| Cep.ValidMaskRoundTrip | nodes/BrDataUtils/validators/cep.ts:48-52 | a valid CEP's mask sanitizes back to its unmasked digits |
| Cep.BlankRejected | nodes/BrDataUtils/validators/cep.ts:9-36 | an empty or blank input fails with the invalid-characters message |
| Cep.FormatMatchesMask | nodes/BrDataUtils/validators/cep.ts:51-67 | on valid input the mask in the result is the formatter applied to the raw input |
| Cep.HyphenJoined | nodes/BrDataUtils/validators/cep.ts:17 | a hyphen between two digit runs is removed wherever it stands |
| Cep.ExampleFormatted | tests/validators/cep.test.ts:112-116 | `01310100` formats to `01310-100` |
| Cep.ExampleFormattedAgain | tests/validators/cep.test.ts:118-122 | `01310-100` formats to itself |
| Cep.ExampleAccepted | tests/validators/cep.test.ts:33-38 | `01310100` is valid with mask `01310-100` |
| Cep.ExampleTrimmedAccepted | tests/validators/cep.test.ts:26-31 | `  01310-100  ` is valid with `01310100` and `01310-100` |
| Cep.ExampleZero | tests/validators/cep.test.ts:42-46 | `00000-000` gives the zero message |
| Cep.ExampleShort | tests/validators/cep.test.ts:48-60 | `1234-567` gives the length error |
| Cep.ExampleInvalidCharacters | tests/validators/cep.test.ts:63-76 | a letter gives the invalid-characters error |
| Operations.Lookup | nodes/BrDataUtils/validators/index.ts:15-67 | a tag the switch recognises is the tag of the operation it selects |
| Operations.Tag | nodes/BrDataUtils/validators/index.ts:16-63 | the `case` string of each of the ten operations; `LookupTag` shows the switch selects each operation by its own tag |
| Operations.LookupTag | nodes/BrDataUtils/validators/index.ts:15-67 | each of the ten operations is selected by its own tag, so no two branches share a tag |
| Operations.Validate | nodes/BrDataUtils/validators/index.ts:16-29 | the validator each document kind selects; every result is well formed |
| Operations.Format | nodes/BrDataUtils/validators/index.ts:31-64 | the formatter each document kind selects; `FormatMatchesMask` ties it to the validator's mask |
| Operations.FormatIfValid | nodes/BrDataUtils/validators/index.ts:31-36 | succeeds exactly when the validation did, then with only the formatted text; a failure is passed on unchanged |
| Operations.ExecuteOperation | nodes/BrDataUtils/validators/index.ts:10-69 | every result is valid with no error, or invalid with an error |
| Operations.ValidateTagDelegates | nodes/BrDataUtils/validators/index.ts:16-29 | each `validarX` tag returns exactly the validator's result |
| Operations.FormatTagOnValid | nodes/BrDataUtils/validators/index.ts:31-63 | on valid input a `formatarX` tag returns only `isValid` true and the formatted text, and that text is the validator's mask |
| Operations.FormatTagOnInvalid | nodes/BrDataUtils/validators/index.ts:36-64 | on invalid input a `formatarX` tag returns the validator's failure unchanged |
| Operations.FormatTagAgreesWithValidateTag | nodes/BrDataUtils/validators/index.ts:16-64 | a `formatarX` tag succeeds exactly when the matching `validarX` tag does |
| Operations.FormatMatchesMask | nodes/BrDataUtils/validators/index.ts:32-34 | for every document kind, on valid input the validator's mask is the formatter applied to the raw value |
| Operations.UnsupportedTag | nodes/BrDataUtils/validators/index.ts:66-67 | any tag other than the ten gives the unsupported-operation failure |
| Operations.CategoryTagsUnsupported | nodes/BrDataUtils/types.ts:13-14 | the category tags `validations` and `formatting` give the unsupported-operation failure |
| Operations.BlankRejected | nodes/BrDataUtils/validators/index.ts:16-64 | a blank value fails every validating and formatting tag |

## Left out

- The `try`/`catch` blocks and their `Erro ao validar …` messages are not
  modelled. The `catch` only fires when the argument is not a string
  (`null` or `undefined` make `trim` throw). Model strings are never absent.
- `ValidatorOptions` is not modelled. It is accepted but never read.
- Regular expressions are not modelled as such. Each is replaced by the
  character filter or fixed-width split it performs on the inputs it sees.
  `replace` with a pattern that does not match is the identity.
- JavaScript `trim` is modelled over a fixed set of whitespace characters:
  tab, line feed, vertical tab, form feed, carriage return, space,
  U+00A0, U+1680, U+2000–U+200A, U+2028, U+2029, U+202F, U+205F, U+3000
  and U+FEFF. A Dafny `char` is a Unicode scalar value, whereas JavaScript
  strings are UTF-16 code units, so a character outside the Basic
  Multilingual Plane is one character here and two in the source. No result
  depends on this: such a character fails every allow-list, the validators
  then report invalid characters and the formatters return their input.
- Telefone.ValidateTelefone: the `ddd > 99` comparison is kept, but two
  digits never exceed 99, so that branch is dead.
- The country-prefix lengths (13 digits for a landline, 14 for a mobile)
  are one more than `55` plus a 10- or 11-digit national number. The model
  keeps the lengths the code uses; the consequence is stated above.
- The BrDataUtils.node.ts workflow glue is not modelled: the parameter
  declaration, the per-item loop and the output shaping.
- The declared `ValidationResult` interface (types.ts) lists only
  `isValid`, `formatted` and `error`. The record here also holds
  `unmasked` and `masked`, which the validators return.
- I/O and logging are not modelled (the console test script).
