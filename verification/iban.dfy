/**
  The IBAN value type: an immutable wrapper around the whitespace-free form of a
  user-supplied string, with its validity query and the extraction of the clearing
  number (the bank identifier inside the IBAN).
*/
module IbanValue {
  import opened Wrappers
  import opened Mod97

  // ---------------------------------------------------------------------------
  // Normalisation
  // ---------------------------------------------------------------------------

  /** The whitespace characters of the regular-expression class `\s`: space, tab,
      line feed, vertical tab, form feed and carriage return. */
  predicate IsWhitespace(c: char) {
    c == ' ' || c == '\t' || c == '\n' || c == '\r' || c as int == 0x0B || c as int == 0x0C
  }

  predicate NoWhitespace(s: string) { forall i :: 0 <= i < |s| ==> !IsWhitespace(s[i]) }

  predicate AllWhitespace(s: string) { forall i :: 0 <= i < |s| ==> IsWhitespace(s[i]) }

  /** The input with every whitespace character removed; nothing else is touched
      (case is kept, order is kept). */
  function Normalize(s: string): (r: string)
    ensures NoWhitespace(r)
    ensures |r| <= |s|
  {
    if s == [] then []
    else
      var c := s[|s| - 1];
      Normalize(s[..|s| - 1]) + (if IsWhitespace(c) then [] else [c])
  }

  /** Normalising one more character appends it unless it is whitespace. */
  lemma NormalizeSnoc(s: string, c: char)
    ensures Normalize(s + [c]) == Normalize(s) + (if IsWhitespace(c) then [] else [c])
  {
    assert (s + [c])[..|s|] == s;
  }

  /** Normalisation keeps exactly the characters that are not whitespace. */
  lemma {:induction false} NormalizeKeeps(s: string)
    ensures forall c :: c in Normalize(s) <==> c in s && !IsWhitespace(c)
  {
    if s != [] {
      NormalizeKeeps(s[..|s| - 1]);
      assert s == s[..|s| - 1] + [s[|s| - 1]];
    }
  }

  /** Normalisation leaves a whitespace-free string as it is. */
  lemma {:induction false} NormalizeFixesClean(s: string)
    ensures NoWhitespace(s) ==> Normalize(s) == s
  {
    if s != [] && NoWhitespace(s) {
      NormalizeFixesClean(s[..|s| - 1]);
      assert s == s[..|s| - 1] + [s[|s| - 1]];
    }
  }

  /** Normalisation is idempotent. */
  lemma NormalizeIdempotent(s: string)
    ensures Normalize(Normalize(s)) == Normalize(s)
  {
    NormalizeFixesClean(Normalize(s));
  }

  /** Normalisation works piecewise. */
  lemma {:induction false} NormalizeAppend(a: string, b: string)
    ensures Normalize(a + b) == Normalize(a) + Normalize(b)
  {
    if b == [] {
      assert a + b == a;
    } else {
      var b', c := b[..|b| - 1], b[|b| - 1];
      assert a + b == (a + b') + [c];
      assert b == b' + [c];
      NormalizeAppend(a, b');
      NormalizeSnoc(a + b', c);
      NormalizeSnoc(b', c);
    }
  }

  /** A run of whitespace vanishes under normalisation. */
  lemma {:induction false} NormalizeBlank(w: string)
    requires AllWhitespace(w)
    ensures Normalize(w) == []
  {
    if w != [] {
      NormalizeBlank(w[..|w| - 1]);
    }
  }

  /** Whitespace inserted anywhere in the input does not change the normalised value. */
  lemma WhitespaceInsensitive(a: string, w: string, b: string)
    requires AllWhitespace(w)
    ensures Normalize(a + w + b) == Normalize(a + b)
  {
    NormalizeAppend(a + w, b);
    NormalizeAppend(a, w);
    NormalizeBlank(w);
    NormalizeAppend(a, b);
  }

  /** The ISO 13616 paper format: groups of four characters separated by a space. */
  function PaperFormat(s: string): (r: string)
    ensures |s| <= |r|
  {
    if |s| <= 4 then s else s[..4] + " " + PaperFormat(s[4..])
  }

  /** Normalising the paper format gives back the electronic format. */
  lemma {:induction false} NormalizePaperFormat(s: string)
    requires NoWhitespace(s)
    ensures Normalize(PaperFormat(s)) == s
  {
    if |s| <= 4 {
      NormalizeFixesClean(s);
    } else {
      var head, tail := s[..4], s[4..];
      var rest := PaperFormat(tail);
      assert PaperFormat(s) == head + " " + rest;
      assert AllWhitespace(" ");
      WhitespaceInsensitive(head, " ", rest);
      NormalizeAppend(head, rest);
      NormalizeFixesClean(head);
      NormalizePaperFormat(tail);
      assert head + tail == s;
    }
  }

  // ---------------------------------------------------------------------------
  // The value type
  // ---------------------------------------------------------------------------

  /** A string without whitespace: the only thing an IBAN value holds. */
  type NormalizedString = s: string | NoWhitespace(s) witness ""

  /** An IBAN; its equality is equality of the normalised strings. */
  datatype Iban = Iban(value: NormalizedString)

  /** Builds an IBAN from raw input, which may be empty and may contain spaces. */
  function Create(raw: string): (iban: Iban)
    ensures |iban.value| <= |raw|
    ensures NoWhitespace(raw) ==> iban.value == raw
  {
    NormalizeFixesClean(raw);
    Iban(Normalize(raw))
  }

  /** Re-creating an IBAN from its own value gives the same IBAN. */
  lemma CreateIdempotent(raw: string)
    ensures Create(Create(raw).value) == Create(raw)
  {
    NormalizeIdempotent(raw);
  }

  /** Two inputs give the same IBAN exactly when they agree after removing whitespace. */
  lemma CreateEqual(a: string, b: string)
    ensures Create(a) == Create(b) <==> Normalize(a) == Normalize(b)
  {
  }

  // ---------------------------------------------------------------------------
  // Validity
  // ---------------------------------------------------------------------------

  /** Shortest accepted length: country code, check digits and one more character. */
  const MinLength: nat := 5

  /** Longest IBAN that ISO 13616 allows. */
  const MaxLength: nat := 34

  /** The ISO 13616 character classes of the account part: `n` digits, `a` upper-case
      letters, `c` alphanumerics. */
  datatype CharClass = Digits | Letters | Alphanumerics

  /** A fixed-width field of the account part, `5!n` being `Field(5, Digits)`. */
  datatype Field = Field(count: nat, kind: CharClass)

  predicate InClass(kind: CharClass, c: char) {
    match kind
    case Digits => IsDigit(c)
    case Letters => IsUpper(c)
    case Alphanumerics => IsAlnum(c)
  }

  /** Total width of a list of fields. */
  function FormatLength(fields: seq<Field>): (n: nat)
    ensures fields != [] ==> n >= fields[0].count
  {
    if fields == [] then 0 else fields[0].count + FormatLength(fields[1..])
  }

  /** Whether an account part follows a country's field list, field by field. A
      matching account part has exactly the width of the fields, and its first
      field's characters are of that field's class. */
  predicate MatchesFormat(fields: seq<Field>, bban: string)
    ensures MatchesFormat(fields, bban) ==> |bban| == FormatLength(fields)
    ensures MatchesFormat(fields, bban) && fields != [] ==>
      forall i :: 0 <= i < fields[0].count ==> InClass(fields[0].kind, bban[i])
  {
    if fields == [] then bban == []
    else
      var f := fields[0];
      && f.count <= |bban|
      && (forall i :: 0 <= i < f.count ==> InClass(f.kind, bban[i]))
      && MatchesFormat(fields[1..], bban[f.count..])
  }

  /** Two fields are matched by a string of the first field's class and width
      followed by one of the second's. */
  lemma MatchesTwoFields(f: Field, g: Field, a: string, b: string)
    requires |a| == f.count && |b| == g.count
    requires forall i :: 0 <= i < |a| ==> InClass(f.kind, a[i])
    requires forall i :: 0 <= i < |b| ==> InClass(g.kind, b[i])
    ensures MatchesFormat([f, g], a + b)
  {
    assert [f, g][1..] == [g] && [g][1..] == [];
    assert (a + b)[f.count..] == b && b[g.count..] == [];
    assert MatchesFormat([g], b);
  }

  /** What is known about one country's IBAN layout: the fields of its account part
      and the width of the clearing number at its start. */
  datatype CountryRule = CountryRule(format: seq<Field>, clearingLength: nat)

  /** The countries with a fixed layout: Switzerland (`CH 5!n12!c`, a 5-digit IID)
      and the Netherlands (`NL 4!a10!n`, a 4-letter bank code). */
  const CountryRules: map<string, CountryRule> :=
    map[
      "CH" := CountryRule([Field(5, Digits), Field(12, Alphanumerics)], 5),
      "NL" := CountryRule([Field(4, Letters), Field(10, Digits)], 4)
    ]

  /** A Swiss IBAN has 21 characters and a Dutch one 18; in both the clearing number
      is the first field of the account part. */
  lemma CountryLayouts()
    ensures 4 + FormatLength(CountryRules["CH"].format) == 21
    ensures 4 + FormatLength(CountryRules["NL"].format) == 18
    ensures CountryRules["CH"].format[0] == Field(CountryRules["CH"].clearingLength, Digits)
    ensures CountryRules["NL"].format[0] == Field(CountryRules["NL"].clearingLength, Letters)
  {
    var ch, nl := CountryRules["CH"].format, CountryRules["NL"].format;
    assert FormatLength(ch[1..][1..]) == 0;
    assert FormatLength(nl[1..][1..]) == 0;
  }

  /** Clearing-number width for countries missing from the table. */
  const DefaultClearingLength: nat := 5

  /** Alphanumeric characters are not whitespace. */
  lemma NoWhitespaceIfAlnum(s: string)
    ensures AllAlnum(s) ==> NoWhitespace(s) && Normalize(s) == s
  {
    if AllAlnum(s) {
      NormalizeFixesClean(s);
    }
  }

  /** Everything an IBAN must satisfy apart from the checksum: the length bounds,
      a country code of two upper-case letters, two check digits in the range
      02..98 that ISO 13616 generates, an alphanumeric remainder and, for a country
      in the table, an account part that follows that country's fields (and so has
      its length). A well-formed string holds no whitespace,
      so normalisation keeps it as it is. */
  predicate WellFormed(s: string)
    ensures WellFormed(s) ==> NoWhitespace(s) && Normalize(s) == s
  {
    NoWhitespaceIfAlnum(s);
    && MinLength <= |s| <= MaxLength
    && IsUpper(s[0]) && IsUpper(s[1])
    && IsDigit(s[2]) && IsDigit(s[3])
    && 2 <= DigitValue(s[2]) * 10 + DigitValue(s[3]) <= 98
    && AllAlnum(s)
    && (s[..2] in CountryRules ==> MatchesFormat(CountryRules[s[..2]].format, s[4..]))
  }

  /** Validity of an IBAN: well formed and the MOD 97-10 check passes. Equivalently,
      well formed and carrying exactly the check digits ISO 13616 generates for its
      country code and account part. */
  predicate IsValid(iban: Iban)
    ensures IsValid(iban) <==>
      WellFormed(iban.value)
      && iban.value[2..4] == CheckDigits(iban.value[..2], iban.value[4..])
  {
    var s := iban.value;
    if WellFormed(s) then
      assert s == s[..2] + s[2..4] + s[4..];
      CheckDigitsCharacterize(s[..2], s[2..4], s[4..]);
      ChecksumHolds(s)
    else
      false
  }

  // ---------------------------------------------------------------------------
  // Clearing number
  // ---------------------------------------------------------------------------

  /** The failure extraction signals on an IBAN that is not valid. */
  datatype IbanError = IllegalArgument(iban: string)

  function ClearingLength(country: string): (n: nat)
    ensures n > 0
  {
    if country in CountryRules then CountryRules[country].clearingLength else DefaultClearingLength
  }

  function Min(a: int, b: int): (m: int)
    ensures m <= a && m <= b && (m == a || m == b)
  {
    if a <= b then a else b
  }

  /** The clearing number: the characters right after country code and check digits,
      as many as the country's clearing number has, or as are left if fewer (leading
      zeros kept). */
  function ExtractClearingNumber(iban: Iban): (r: Result<string, IbanError>)
    ensures r.Failure? <==> !IsValid(iban)
    ensures r.Failure? ==> r.error == IllegalArgument(iban.value)
    ensures r.Success? ==>
      var s := iban.value;
      && |r.value| == Min(|s| - 4, ClearingLength(s[..2])) > 0
      && r.value == s[4..4 + |r.value|]
      && (s[..2] in CountryRules ==> |r.value| == ClearingLength(s[..2]))
  {
    if !IsValid(iban) then Failure(IllegalArgument(iban.value))
    else
      var s := iban.value;
      CountryLayouts();
      Success(s[4..4 + Min(|s| - 4, ClearingLength(s[..2]))])
  }

  /** `n` zero characters. */
  function Zeros(n: nat): (z: string)
    ensures |z| == n && forall i :: 0 <= i < n ==> z[i] == '0'
  {
    seq(n, _ => '0')
  }

  /** One more zero in front. */
  lemma ZerosCons(n: nat)
    ensures Zeros(n + 1) == ['0'] + Zeros(n)
  {
  }

  /** The string without its leading '0's; an all-zero string becomes empty. */
  function StripLeadingZeros(s: string): (r: string)
    ensures |r| <= |s|
    ensures s == Zeros(|s| - |r|) + r
    ensures r == [] || r[0] != '0'
  {
    if s != [] && s[0] == '0' then
      var r := StripLeadingZeros(s[1..]);
      ZerosCons(|s[1..]| - |r|);
      assert s == ['0'] + s[1..];
      r
    else
      assert s == Zeros(0) + s;
      s
  }

  /** Stripping changes nothing exactly when there is no leading zero. */
  lemma StripUnchanged(s: string)
    ensures StripLeadingZeros(s) == s <==> s == [] || s[0] != '0'
  {
  }

  /** A string of zeros strips to the empty string. */
  lemma {:induction false} StripAllZeros(s: string)
    requires forall i :: 0 <= i < |s| ==> s[i] == '0'
    ensures StripLeadingZeros(s) == []
  {
    if s != [] {
      StripAllZeros(s[1..]);
    }
  }

  /** Stripping twice strips no more than once. */
  lemma StripIdempotent(s: string)
    ensures StripLeadingZeros(StripLeadingZeros(s)) == StripLeadingZeros(s)
  {
    StripUnchanged(StripLeadingZeros(s));
  }

  /** The clearing number with its leading zeros removed. */
  function ExtractClearingNumberWithoutLeadingZeros(iban: Iban): (r: Result<string, IbanError>)
    ensures r.Failure? <==> !IsValid(iban)
    ensures r.Failure? ==> r.error == IllegalArgument(iban.value)
    ensures ExtractClearingNumber(iban).Success? ==>
      var c := ExtractClearingNumber(iban).value;
      && r.Success? && |r.value| <= |c|
      && c == Zeros(|c| - |r.value|) + r.value
      && (r.value == [] || r.value[0] != '0')
  {
    var c := ExtractClearingNumber(iban);
    if c.Failure? then Failure(c.error) else Success(StripLeadingZeros(c.value))
  }

  /** Both extractions agree exactly when the clearing number has no leading zero. */
  lemma ExtractionsAgree(iban: Iban)
    requires IsValid(iban)
    ensures ExtractClearingNumber(iban).Success?
    ensures ExtractClearingNumberWithoutLeadingZeros(iban) == ExtractClearingNumber(iban)
        <==> ExtractClearingNumber(iban).value[0] != '0'
  {
    StripUnchanged(ExtractClearingNumber(iban).value);
  }

  /** The clearing number of a valid Swiss IBAN is its five-digit IID. */
  lemma SwissClearingNumber(iban: Iban)
    requires IsValid(iban) && iban.value[..2] == "CH"
    ensures ExtractClearingNumber(iban).Success?
    ensures var c := ExtractClearingNumber(iban).value; |c| == 5 && AllDigits(c)
  {
    CountryLayouts();
    var s := iban.value;
    var c := ExtractClearingNumber(iban).value;
    assert forall i :: 0 <= i < 5 ==> IsDigit(s[4..][i]);
    assert forall i :: 0 <= i < 5 ==> c[i] == s[4..][i];
  }

  /** The clearing number of a valid Dutch IBAN is its four-letter bank code, which
      has no leading zero, so both extractions return it. */
  lemma DutchClearingNumber(iban: Iban)
    requires IsValid(iban) && iban.value[..2] == "NL"
    ensures ExtractClearingNumber(iban).Success?
    ensures var c := ExtractClearingNumber(iban).value;
      |c| == 4 && forall i :: 0 <= i < 4 ==> IsUpper(c[i])
    ensures ExtractClearingNumberWithoutLeadingZeros(iban) == ExtractClearingNumber(iban)
  {
    CountryLayouts();
    var s := iban.value;
    var c := ExtractClearingNumber(iban).value;
    assert forall i :: 0 <= i < 4 ==> IsUpper(s[4..][i]);
    assert forall i :: 0 <= i < 4 ==> c[i] == s[4..][i];
    ExtractionsAgree(iban);
  }

  /** A clearing number made only of zeros strips to the empty string, not to an error. */
  lemma AllZeroClearingNumber(iban: Iban)
    requires IsValid(iban)
    requires forall i :: 0 <= i < |ExtractClearingNumber(iban).value| ==>
      ExtractClearingNumber(iban).value[i] == '0'
    ensures ExtractClearingNumberWithoutLeadingZeros(iban) == Success([])
  {
    StripAllZeros(ExtractClearingNumber(iban).value);
  }
}
