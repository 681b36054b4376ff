# IBAN value type and `ValidIBANNummer` validator — a Dafny model

This project models the IBAN embeddable of the DV Bern bean-validation library. It also
models the `ValidIBANNummer` constraint that checks it. The behaviour modelled is what
`ValidIBANTest` fixes:

- an IBAN is built from user input and keeps it without whitespace, so
  `"CH39 0900 0000 3066 3817 2"` and `"CH3909000000306638172"` are the same IBAN;
- an IBAN is valid when it is well formed and passes the ISO 7064 MOD 97-10 check that
  ISO 13616 prescribes. Well formed means a length of 5 to 34, a two-letter country code,
  two check digits with a value from 02 to 98 (the only values ISO 13616 generates), an
  upper-case alphanumeric body, and, when the country is known, an account part with
  that country's ISO 13616 structure: `5!n12!c` for CH (a 5-digit IID, then 12
  alphanumerics; 21 characters in all) and `4!a10!n` for NL (a 4-letter bank code, then
  10 digits; 18 characters in all). For the check, the first four characters are
  moved to the end, every letter becomes its two-digit code (A = 10 … Z = 35), and the
  resulting number must leave remainder 1 modulo 97;
- a record's IBAN field is acceptable when it is empty or holds a valid IBAN;
- the clearing number is the bank identifier after the check digits (`"09000"` for the
  Swiss test IBAN). It can also be read with its leading zeros removed (`"9000"`). Both
  readings fail with an illegal-argument error on an invalid IBAN.

Modules:

- `Wrappers`: `Option` and `Result`.
- `Mod97`: the MOD 97-10 check. It has two definitions of the remainder:
  - a Horner fold, `Remainder`, that carries only a two-digit running remainder, as a
    validator computes it;
  - the reference reading, `NumeralValue(Expand(s)) % 97`.

  The module proves the two equal. It also proves that, among check digits from 02 to
  98, the check passes for exactly the ones `CheckDigits` generates. Check digits 00, 01
  and 99 are never generated; well-formedness rejects them, so on well-formed input
  generating and checking agree.
- `IbanValue`:
  - normalisation, with the lemmas that pin it down (kept characters, idempotence,
    piecewise behaviour, insensitivity to inserted whitespace, inverse of the paper
    format);
  - the `Iban` datatype and `Create`;
  - validity;
  - the two clearing-number extractions, returning `Result`.
- `IbanValidator`: `Acceptable`, the predicate behind the constraint.
- `IbanTestVectors`: one lemma per group of assertions in the test. The MOD 97-10
  remainders of the test IBANs are computed by walking the fold over pieces of the
  rearranged string and joining the pieces with `RemainderConcat`.

## Model

| member | source | states |
|---|---|---|
| Mod97.Rearranged | src/test/java/ch/dvbern/oss/lib/beanvalidation/ValidIBANTest.java:45-46 | the ISO 13616 rearrangement moves the first four characters to the end: character i of the result is character i + 4 of the input, and the last four are the first four of the input; length and alphabet are kept |
| Mod97.Remainder | src/test/java/ch/dvbern/oss/lib/beanvalidation/ValidIBANTest.java:45-46 | the validator's running remainder over an alphanumeric string is below 97; `FoldMatchesNumeral` shows it is the letter-expanded numeral modulo 97 |
| Mod97.RemainderConcat | src/test/java/ch/dvbern/oss/lib/beanvalidation/ValidIBANTest.java:45-46 | the running remainder over a concatenation continues from the remainder over its first part (the fold is a left fold) |
| Mod97.ChecksumHolds | src/test/java/ch/dvbern/oss/lib/beanvalidation/ValidIBANTest.java:38-58 | the MOD 97-10 check on a string holds exactly when its rearranged, letter-expanded numeral is congruent to 1 modulo 97 |
| Mod97.FoldMatchesNumeral | src/test/java/ch/dvbern/oss/lib/beanvalidation/ValidIBANTest.java:45-46 | for every alphanumeric string, the validator's digit-by-digit remainder equals the value of the letter-expanded numeral modulo 97 |
| Mod97.CheckDigits | src/test/java/ch/dvbern/oss/lib/beanvalidation/ValidIBANTest.java:45-46 | generated check digits are two digits with a value in 02..98 |
| Mod97.CheckDigitsCharacterize | src/test/java/ch/dvbern/oss/lib/beanvalidation/ValidIBANTest.java:45-46 | among check digits 02..98, the MOD 97-10 check passes for exactly the ones CheckDigits generates |
| IbanValue.Normalize | src/test/java/ch/dvbern/oss/lib/beanvalidation/ValidIBANTest.java:48-49 | the stored value contains no whitespace and is no longer than the input |
| IbanValue.NormalizeKeeps | src/test/java/ch/dvbern/oss/lib/beanvalidation/ValidIBANTest.java:48-49 | a character occurs in the normalised value exactly when it occurs in the input and is not whitespace |
| IbanValue.NormalizeFixesClean | src/test/java/ch/dvbern/oss/lib/beanvalidation/ValidIBANTest.java:45-46 | input without whitespace is stored unchanged |
| IbanValue.NormalizeIdempotent | src/test/java/ch/dvbern/oss/lib/beanvalidation/ValidIBANTest.java:48-49 | normalising twice is normalising once |
| IbanValue.NormalizeAppend | src/test/java/ch/dvbern/oss/lib/beanvalidation/ValidIBANTest.java:48-49 | normalisation distributes over concatenation |
| IbanValue.WhitespaceInsensitive | src/test/java/ch/dvbern/oss/lib/beanvalidation/ValidIBANTest.java:45-49 | inserting any run of whitespace anywhere in the input does not change the normalised value |
| IbanValue.NormalizePaperFormat | src/test/java/ch/dvbern/oss/lib/beanvalidation/ValidIBANTest.java:48-49 | normalising the ISO 13616 paper format (groups of four separated by spaces) gives back the electronic format |
| IbanValue.Create | src/test/java/ch/dvbern/oss/lib/beanvalidation/ValidIBANTest.java:38-57 | building an IBAN never lengthens the input, and input without whitespace is kept as it is |
| IbanValue.CreateIdempotent | src/test/java/ch/dvbern/oss/lib/beanvalidation/ValidIBANTest.java:48-49 | re-creating an IBAN from its own value gives the same IBAN |
| IbanValue.CreateEqual | src/test/java/ch/dvbern/oss/lib/beanvalidation/ValidIBANTest.java:45-49 | two inputs give equal IBANs exactly when they agree after removing whitespace |
| IbanValue.MatchesFormat | src/test/java/ch/dvbern/oss/lib/beanvalidation/ValidIBANTest.java:45-58 | an account part that follows a list of ISO 13616 fields has exactly their total width, and its first field's characters are of that field's class |
| IbanValue.MatchesTwoFields | src/test/java/ch/dvbern/oss/lib/beanvalidation/ValidIBANTest.java:45-58 | a string of the first field's class and width followed by one of the second's matches the two-field format |
| IbanValue.CountryLayouts | src/test/java/ch/dvbern/oss/lib/beanvalidation/ValidIBANTest.java:41-58 | a Swiss IBAN has 21 characters and a Dutch one 18; the Swiss clearing number is the 5-digit first field, the Dutch one the 4-letter first field |
| IbanValue.WellFormed | src/test/java/ch/dvbern/oss/lib/beanvalidation/ValidIBANTest.java:38-55 | a well-formed IBAN has 5 to 34 characters, two upper-case letters, two check digits from 02 to 98, an alphanumeric body and, when the country is known, an account part with that country's structure; such a string holds no whitespace and normalisation keeps it unchanged |
| IbanValue.IsValid | src/test/java/ch/dvbern/oss/lib/beanvalidation/ValidIBANTest.java:34-58 | an IBAN is valid exactly when it is well formed and its check digits are the ones generated from its country code and account part |
| IbanValue.ExtractClearingNumber | src/test/java/ch/dvbern/oss/lib/beanvalidation/ValidIBANTest.java:74-76 | fails, with an illegal-argument error carrying the value, exactly on invalid IBANs; otherwise returns the slice right after the check digits, as wide as the country's clearing number or as what is left of the IBAN, whichever is less (never empty), and exactly the country's width when the country is known |
| IbanValue.StripLeadingZeros | src/test/java/ch/dvbern/oss/lib/beanvalidation/ValidIBANTest.java:75-77 | the input is some zeros followed by the result, and the result does not start with '0' |
| IbanValue.StripUnchanged | src/test/java/ch/dvbern/oss/lib/beanvalidation/ValidIBANTest.java:67-70 | stripping leaves a string unchanged exactly when it is empty or does not start with '0' |
| IbanValue.StripIdempotent | src/test/java/ch/dvbern/oss/lib/beanvalidation/ValidIBANTest.java:75-77 | stripping twice strips no more than once |
| IbanValue.ExtractClearingNumberWithoutLeadingZeros | src/test/java/ch/dvbern/oss/lib/beanvalidation/ValidIBANTest.java:75-77 | fails exactly on invalid IBANs, with the same error; otherwise returns the clearing number minus exactly its leading zeros |
| IbanValue.ExtractionsAgree | src/test/java/ch/dvbern/oss/lib/beanvalidation/ValidIBANTest.java:67-70 | on a valid IBAN the two extractions are equal exactly when the clearing number does not start with '0' |
| IbanValue.SwissClearingNumber | src/test/java/ch/dvbern/oss/lib/beanvalidation/ValidIBANTest.java:72-77 | the clearing number of every valid Swiss IBAN is five digits |
| IbanValue.DutchClearingNumber | src/test/java/ch/dvbern/oss/lib/beanvalidation/ValidIBANTest.java:64-70 | the clearing number of every valid Dutch IBAN is four letters, so both extractions return it |
| IbanValue.AllZeroClearingNumber | src/test/java/ch/dvbern/oss/lib/beanvalidation/ValidIBANTest.java:75 | a clearing number made only of zeros strips to the empty string |
| IbanValidator.Acceptable | src/test/java/ch/dvbern/oss/lib/beanvalidation/ValidIBANTest.java:34-58 | a field is acceptable exactly when it holds no IBAN, or an IBAN that is well formed and carries the generated check digits |
| IbanValidator.AbsentIsAcceptable | src/test/java/ch/dvbern/oss/lib/beanvalidation/ValidIBANTest.java:34-35 | a record without an IBAN is not a violation |
| IbanValidator.PresentAcceptable | src/test/java/ch/dvbern/oss/lib/beanvalidation/ValidIBANTest.java:37-58 | a present IBAN is acceptable exactly when it is valid, and inserted whitespace does not change the verdict |
| IbanTestVectors.SwissChecksum | src/test/java/ch/dvbern/oss/lib/beanvalidation/ValidIBANTest.java:45-46 | the rearranged Swiss test IBAN leaves remainder 1 |
| IbanTestVectors.DutchChecksum | src/test/java/ch/dvbern/oss/lib/beanvalidation/ValidIBANTest.java:57-58 | the rearranged Dutch test IBAN leaves remainder 1 |
| IbanTestVectors.ShortSwissChecksum | src/test/java/ch/dvbern/oss/lib/beanvalidation/ValidIBANTest.java:42-43 | the rearranged "CH123456" leaves remainder 72 |
| IbanTestVectors.SwissPaperFormat | src/test/java/ch/dvbern/oss/lib/beanvalidation/ValidIBANTest.java:48 | the ISO 13616 paper format of "CH3909000000306638172" is the spaced input "CH39 0900 0000 3066 3817 2" of the test |
| IbanTestVectors.SwissSpacedIban | src/test/java/ch/dvbern/oss/lib/beanvalidation/ValidIBANTest.java:48 | the paper-format Swiss input creates the IBAN "CH3909000000306638172" |
| IbanTestVectors.NumericOnlyViolated | src/test/java/ch/dvbern/oss/lib/beanvalidation/ValidIBANTest.java:37-39 | "1234567890123456789" is a violation |
| IbanTestVectors.ShortSwissViolated | src/test/java/ch/dvbern/oss/lib/beanvalidation/ValidIBANTest.java:41-43 | "CH123456" is a violation, and its MOD 97-10 remainder is 72 |
| IbanTestVectors.SwissValid | src/test/java/ch/dvbern/oss/lib/beanvalidation/ValidIBANTest.java:45-49 | the Swiss IBAN is acceptable with and without spaces, and both inputs give the same IBAN |
| IbanTestVectors.MalformedViolated | src/test/java/ch/dvbern/oss/lib/beanvalidation/ValidIBANTest.java:51-55 | "CHE3909000000306638172" and "" are violations |
| IbanTestVectors.DutchValid | src/test/java/ch/dvbern/oss/lib/beanvalidation/ValidIBANTest.java:57-58 | the Dutch IBAN, letters in its account part, is acceptable |
| IbanTestVectors.DutchExtraction | src/test/java/ch/dvbern/oss/lib/beanvalidation/ValidIBANTest.java:64-70 | the Dutch clearing number is "ABNA" and both extractions return it |
| IbanTestVectors.SwissExtraction | src/test/java/ch/dvbern/oss/lib/beanvalidation/ValidIBANTest.java:72-77 | from the paper-format Swiss input the clearing number is "09000", and "9000" without leading zeros |
| IbanTestVectors.InvalidExtractionFails | src/test/java/ch/dvbern/oss/lib/beanvalidation/ValidIBANTest.java:79-95 | both extractions on "CH123456" fail with an illegal-argument error |

## Left out

- The implementation classes `IBAN` and `ValidIBANNummer` (with its validator) are not
  part of this model. Their behaviour is modelled from the test and from the ISO 13616 /
  ISO 7064 MOD 97-10 algorithm. Where the implementation might differ on inputs the test
  does not exercise, the model follows the standard for the two countries in its table
  (CH and NL). Other countries get only the generic checks, as the next lines say.
- The `Bean` holder with its `@Valid` field and setter, and the
  `ValidationTestHelper.assertViolated` / `assertNotViolated` helpers, are left out. They
  are framework wiring. Their meaning is captured by `IbanValidator.Acceptable` on an
  `Option<Iban>`.
- JUnit's `Assert` and Java exceptions are left out. `IllegalArgumentException` becomes
  the `Failure(IllegalArgument(value))` result of both extractions.
- The full ISO 13616 country registry is left out. Only CH (`5!n12!c`: 21 characters,
  5-digit clearing number) and NL (`4!a10!n`: 18 characters, 4-letter bank code) are in
  the table, with the structure of their account parts. Other country codes get only the
  generic checks (length 5 to 34, letters, check digits, alphanumerics) and a clearing
  number of up to 5 characters of any class.
- The `c` class of ISO 13616 also admits lower-case letters; here it is upper-case
  letters and digits only, like the rest of the IBAN.
- The NL clearing number is taken to be the 4-letter bank code (`ABNA`). The test only
  requires that it not start with '0', which a code of letters never does.
- Whitespace is the ASCII set of the regular-expression class `\s` (space, tab, line
  feed, vertical tab, form feed, carriage return). Other Unicode spaces are kept and then
  make the IBAN invalid.
- Lower-case letters are not upper-cased; an IBAN containing them is invalid.
- Check digits 00, 01 and 99 are rejected as malformed, because ISO 13616 never
  generates them. The test has no IBAN with such check digits, so whether the
  implementation rejects them is not known.
- `ExtractClearingNumberWithoutLeadingZeros` on an all-zero clearing number returns the
  empty string. The test does not exercise this case, so this is a modelling choice.
- Java `String` and object identity are left out: an `Iban` is a value compared by its
  normalised string.
