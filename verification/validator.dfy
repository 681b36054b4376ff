/**
  The validator predicate behind the `ValidIBANNummer` constraint: whether the IBAN
  field of a record is acceptable.
*/
module IbanValidator {
  import opened Wrappers
  import opened Mod97
  import opened IbanValue

  /** A field holding no IBAN is acceptable (presence is another rule's concern);
      a field holding one is acceptable exactly when that IBAN is valid, that is, when
      it is well formed and carries the check digits generated from its country code
      and account part. */
  predicate Acceptable(field: Option<Iban>)
    ensures Acceptable(field) <==>
      || field.None?
      || (var s := field.value.value;
          WellFormed(s) && s[2..4] == CheckDigits(s[..2], s[4..]))
  {
    match field
    case None => true
    case Some(iban) => IsValid(iban)
  }

  /** An absent IBAN is never a violation. */
  lemma AbsentIsAcceptable()
    ensures Acceptable(None)
  {
  }

  /** A present IBAN is a violation exactly when it is invalid, and whether it is
      depends only on the input with its whitespace removed. */
  lemma PresentAcceptable(raw: string, w: string, rest: string)
    requires AllWhitespace(w)
    ensures Acceptable(Some(Create(raw))) <==> IsValid(Create(raw))
    ensures Acceptable(Some(Create(raw + w + rest))) <==> Acceptable(Some(Create(raw + rest)))
  {
    WhitespaceInsensitive(raw, w, rest);
  }
}
