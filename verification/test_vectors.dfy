/**
  The behaviour fixed by the unit tests of the IBAN validator and value type, one
  lemma per group of assertions. The checksum lemmas walk the validator's running
  remainder over the rearranged string a few characters at a time and join the
  pieces with RemainderConcat.
*/
module IbanTestVectors {
  import opened Wrappers
  import opened Mod97
  import opened IbanValue
  import opened IbanValidator

  // ---------------------------------------------------------------------------
  // Checksums of the test IBANs
  // ---------------------------------------------------------------------------

  /** One step of the running remainder on concrete values: appending `c` to a string
      whose fold from `start` is `v` gives the fold `w` one step of the arithmetic
      computes. */
  lemma FoldStep(start: nat, p: string, v: nat, c: char, w: nat)
    requires AllAlnum(p) && IsAlnum(c) && RemainderFrom(start, p) == v && Step(v, c) == w
    ensures AllAlnum(p + [c]) && RemainderFrom(start, p + [c]) == w
  {
    RemainderSnoc(start, p, c);
  }

  /** The fold over characters 1..7 of the rearranged Swiss IBAN, from 0. */
  lemma SwissChecksumPart1()
    ensures RemainderFrom(0, "0900000") == 34
  {
    var p := "";
    FoldStep(0, p, 0, '0', 0); p := p + ['0'];
    FoldStep(0, p, 0, '9', 9); p := p + ['9'];
    FoldStep(0, p, 9, '0', 90); p := p + ['0'];
    FoldStep(0, p, 90, '0', 27); p := p + ['0'];
    FoldStep(0, p, 27, '0', 76); p := p + ['0'];
    FoldStep(0, p, 76, '0', 81); p := p + ['0'];
    FoldStep(0, p, 81, '0', 34); p := p + ['0'];
    assert p == "0900000";
  }

  /** The fold over characters 8..14 of the rearranged Swiss IBAN, from 34. */
  lemma SwissChecksumPart2()
    ensures RemainderFrom(34, "0306638") == 83
  {
    var p := "";
    FoldStep(34, p, 34, '0', 49); p := p + ['0'];
    FoldStep(34, p, 49, '3', 8); p := p + ['3'];
    FoldStep(34, p, 8, '0', 80); p := p + ['0'];
    FoldStep(34, p, 80, '6', 30); p := p + ['6'];
    FoldStep(34, p, 30, '6', 15); p := p + ['6'];
    FoldStep(34, p, 15, '3', 56); p := p + ['3'];
    FoldStep(34, p, 56, '8', 83); p := p + ['8'];
    assert p == "0306638";
  }

  /** The fold over characters 15..21 of the rearranged Swiss IBAN, from 83. */
  lemma SwissChecksumPart3()
    ensures RemainderFrom(83, "172CH39") == 1
  {
    var p := "";
    FoldStep(83, p, 83, '1', 55); p := p + ['1'];
    FoldStep(83, p, 55, '7', 72); p := p + ['7'];
    FoldStep(83, p, 72, '2', 43); p := p + ['2'];
    FoldStep(83, p, 43, 'C', 44); p := p + ['C'];
    FoldStep(83, p, 44, 'H', 52); p := p + ['H'];
    FoldStep(83, p, 52, '3', 38); p := p + ['3'];
    FoldStep(83, p, 38, '9', 1); p := p + ['9'];
    assert p == "172CH39";
  }

  /** The rearranged Swiss IBAN is the concatenation of its parts. */
  lemma SwissChecksumSpelled()
    ensures "0900000" + "0306638" + "172CH39" == "09000000306638172CH39"
  {
  }

  /** "CH3909000000306638172", rearranged, leaves remainder 1. */
  lemma SwissChecksum()
    ensures Remainder("09000000306638172CH39") == 1
  {
    SwissChecksumPart1(); SwissChecksumPart2(); SwissChecksumPart3();
    RemainderConcat(0, "0900000", "0306638");
    RemainderConcat(0, "0900000" + "0306638", "172CH39");
    SwissChecksumSpelled();
  }

  /** The fold over characters 1..6 of the rearranged Dutch IBAN, from 0. */
  lemma DutchChecksumPart1()
    ensures RemainderFrom(0, "ABNA02") == 85
  {
    var p := "";
    FoldStep(0, p, 0, 'A', 10); p := p + ['A'];
    FoldStep(0, p, 10, 'B', 41); p := p + ['B'];
    FoldStep(0, p, 41, 'N', 49); p := p + ['N'];
    FoldStep(0, p, 49, 'A', 60); p := p + ['A'];
    FoldStep(0, p, 60, '0', 18); p := p + ['0'];
    FoldStep(0, p, 18, '2', 85); p := p + ['2'];
    assert p == "ABNA02";
  }

  /** The fold over characters 7..12 of the rearranged Dutch IBAN, from 85. */
  lemma DutchChecksumPart2()
    ensures RemainderFrom(85, "059864") == 79
  {
    var p := "";
    FoldStep(85, p, 85, '0', 74); p := p + ['0'];
    FoldStep(85, p, 74, '5', 66); p := p + ['5'];
    FoldStep(85, p, 66, '9', 87); p := p + ['9'];
    FoldStep(85, p, 87, '8', 5); p := p + ['8'];
    FoldStep(85, p, 5, '6', 56); p := p + ['6'];
    FoldStep(85, p, 56, '4', 79); p := p + ['4'];
    assert p == "059864";
  }

  /** The fold over characters 13..14 of the rearranged Dutch IBAN, from 79. */
  lemma DutchChecksumPart3a()
    ensures RemainderFrom(79, "78") == 24
  {
    var p := "";
    FoldStep(79, p, 79, '7', 21); p := p + ['7'];
    FoldStep(79, p, 21, '8', 24); p := p + ['8'];
    assert p == "78";
  }

  /** The fold over characters 15..18 of the rearranged Dutch IBAN, from 24. */
  lemma DutchChecksumPart3b()
    ensures RemainderFrom(24, "NL53") == 1
  {
    var p := "";
    FoldStep(24, p, 24, 'N', 95); p := p + ['N'];
    FoldStep(24, p, 95, 'L', 15); p := p + ['L'];
    FoldStep(24, p, 15, '5', 58); p := p + ['5'];
    FoldStep(24, p, 58, '3', 1); p := p + ['3'];
    assert p == "NL53";
  }

  /** The fold over characters 13..18 of the rearranged Dutch IBAN, from 79. */
  lemma DutchChecksumPart3()
    ensures RemainderFrom(79, "78NL53") == 1
  {
    DutchChecksumPart3a(); DutchChecksumPart3b();
    RemainderConcat(79, "78", "NL53");
    assert "78" + "NL53" == "78NL53";
  }

  /** The rearranged Dutch IBAN is the concatenation of its parts. */
  lemma DutchChecksumSpelled()
    ensures "ABNA02" + "059864" + "78NL53" == "ABNA0205986478NL53"
  {
  }

  /** "NL53ABNA0205986478", rearranged, leaves remainder 1. */
  lemma DutchChecksum()
    ensures Remainder("ABNA0205986478NL53") == 1
  {
    DutchChecksumPart1(); DutchChecksumPart2(); DutchChecksumPart3();
    RemainderConcat(0, "ABNA02", "059864");
    RemainderConcat(0, "ABNA02" + "059864", "78NL53");
    DutchChecksumSpelled();
  }

  /** "CH123456", rearranged, leaves remainder 72. */
  lemma ShortSwissChecksum()
    ensures Remainder("3456CH12") == 72
  {
    var p := "";
    FoldStep(0, p, 0, '3', 3); p := p + ['3'];
    FoldStep(0, p, 3, '4', 34); p := p + ['4'];
    FoldStep(0, p, 34, '5', 54); p := p + ['5'];
    FoldStep(0, p, 54, '6', 61); p := p + ['6'];
    FoldStep(0, p, 61, 'C', 1); p := p + ['C'];
    FoldStep(0, p, 1, 'H', 20); p := p + ['H'];
    FoldStep(0, p, 20, '1', 7); p := p + ['1'];
    FoldStep(0, p, 7, '2', 72); p := p + ['2'];
    assert p == "3456CH12";
  }

  /** The Swiss test IBAN has the shape and length a Swiss IBAN must have. */
  lemma SwissWellFormed()
    ensures WellFormed("CH3909000000306638172")
  {
    SwissAlphabet();
    SwissAccountPart();
    assert "CH3909000000306638172"[..2] == "CH";
    assert "CH3909000000306638172"[4..] == "09000000306638172";
  }

  /** The characters of the Swiss test IBAN: a country code, check digits 39 and an
      alphanumeric rest. */
  lemma SwissAlphabet()
    ensures AllAlnum("CH3909000000306638172")
    ensures IsUpper("CH3909000000306638172"[0]) && IsUpper("CH3909000000306638172"[1])
    ensures IsDigit("CH3909000000306638172"[2]) && IsDigit("CH3909000000306638172"[3])
    ensures DigitValue("CH3909000000306638172"[2]) * 10 + DigitValue("CH3909000000306638172"[3]) == 39
  {
  }

  /** The account part of the Swiss test IBAN is a 5-digit IID and 12 alphanumerics. */
  lemma SwissAccountPart()
    ensures MatchesFormat(CountryRules["CH"].format, "09000000306638172")
  {
    MatchesTwoFields(Field(5, Digits), Field(12, Alphanumerics), "09000", "000306638172");
    assert "09000" + "000306638172" == "09000000306638172";
  }

  /** Moving the first four characters of the Swiss test IBAN to the end. */
  lemma SwissRearranged()
    ensures Rearranged("CH3909000000306638172") == "09000000306638172CH39"
  {
  }

  /** The electronic-format Swiss test IBAN contains no whitespace. */
  lemma SwissClean()
    ensures NoWhitespace("CH3909000000306638172")
  {
  }

  /** The Dutch test IBAN has the shape and length a Dutch IBAN must have. */
  lemma DutchWellFormed()
    ensures WellFormed("NL53ABNA0205986478")
  {
    DutchAlphabet();
    DutchAccountPart();
    assert "NL53ABNA0205986478"[..2] == "NL";
    assert "NL53ABNA0205986478"[4..] == "ABNA0205986478";
  }

  /** The characters of the Dutch test IBAN: a country code, check digits 53 and an
      alphanumeric rest. */
  lemma DutchAlphabet()
    ensures AllAlnum("NL53ABNA0205986478")
    ensures IsUpper("NL53ABNA0205986478"[0]) && IsUpper("NL53ABNA0205986478"[1])
    ensures IsDigit("NL53ABNA0205986478"[2]) && IsDigit("NL53ABNA0205986478"[3])
    ensures DigitValue("NL53ABNA0205986478"[2]) * 10 + DigitValue("NL53ABNA0205986478"[3]) == 53
  {
  }

  /** The account part of the Dutch test IBAN is a 4-letter bank code and 10 digits. */
  lemma DutchAccountPart()
    ensures MatchesFormat(CountryRules["NL"].format, "ABNA0205986478")
  {
    MatchesTwoFields(Field(4, Letters), Field(10, Digits), "ABNA", "0205986478");
    assert "ABNA" + "0205986478" == "ABNA0205986478";
  }

  /** Moving the first four characters of the Dutch test IBAN to the end. */
  lemma DutchRearranged()
    ensures Rearranged("NL53ABNA0205986478") == "ABNA0205986478NL53"
  {
  }

  /** The Dutch test IBAN contains no whitespace. */
  lemma DutchClean()
    ensures NoWhitespace("NL53ABNA0205986478")
  {
  }

  /** Formatting four characters followed by more puts a space after the four. */
  lemma PaperGroup(g: string, rest: string)
    requires |g| == 4 && rest != []
    ensures PaperFormat(g + rest) == g + " " + PaperFormat(rest)
  {
    assert (g + rest)[..4] == g;
    assert (g + rest)[4..] == rest;
  }

  /** The electronic-format Swiss IBAN of the tests is its groups of four run together. */
  lemma SwissGroupsSpelled()
    ensures "CH39" + ("0900" + ("0000" + ("3066" + ("3817" + "2")))) == "CH3909000000306638172"
  {
  }

  /** The paper-format Swiss IBAN of the tests is its groups, each but the last
      followed by a space. */
  lemma SwissPaperSpelled()
    ensures "CH39" + " " + ("0900" + " " + ("0000" + " " + ("3066" + " " + ("3817" + " " + "2"))))
         == "CH39 0900 0000 3066 3817 2"
  {
  }

  /** The paper format of the Swiss test IBAN is the spaced form the tests use. */
  lemma SwissPaperFormat()
    ensures PaperFormat("CH3909000000306638172") == "CH39 0900 0000 3066 3817 2"
  {
    var r4 := "3817" + "2";
    var r3 := "3066" + r4;
    var r2 := "0000" + r3;
    var r1 := "0900" + r2;
    PaperGroup("3817", "2");
    PaperGroup("3066", r4);
    PaperGroup("0000", r3);
    PaperGroup("0900", r2);
    PaperGroup("CH39", r1);
    assert PaperFormat("2") == "2";
    SwissGroupsSpelled();
    SwissPaperSpelled();
  }

  /** Removing the spaces from the paper-format Swiss IBAN of the tests gives its
      electronic format, as removing the spaces of any paper format does. */
  lemma SwissSpacedNormalized()
    ensures Normalize("CH39 0900 0000 3066 3817 2") == "CH3909000000306638172"
  {
    SwissClean();
    NormalizePaperFormat("CH3909000000306638172");
    SwissPaperFormat();
  }

  /** The paper-format Swiss IBAN of the tests creates the same value as its electronic
      format. */
  lemma SwissSpacedIban()
    ensures Create("CH39 0900 0000 3066 3817 2") == Iban("CH3909000000306638172")
  {
    SwissSpacedNormalized();
  }

  // ---------------------------------------------------------------------------
  // testValidIBAN
  // ---------------------------------------------------------------------------

  /** The digits-only input contains no whitespace. */
  lemma NumericOnlyClean()
    ensures NoWhitespace("1234567890123456789")
  {
  }

  /** Its first character is a digit where a country-code letter belongs. */
  lemma NumericOnlyNotWellFormed()
    ensures !WellFormed("1234567890123456789")
  {
    assert "1234567890123456789"[0] == '1';
  }

  /** Digits only, no country code: a violation. */
  lemma NumericOnlyViolated()
    ensures !Acceptable(Some(Create("1234567890123456789")))
  {
    NumericOnlyClean();
    NumericOnlyNotWellFormed();
  }

  /** Moving the first four characters of "CH123456" to the end. */
  lemma ShortSwissRearranged()
    ensures Rearranged("CH123456") == "3456CH12"
  {
  }

  /** "CH123456" contains no whitespace. */
  lemma ShortSwissClean()
    ensures NoWhitespace("CH123456")
  {
  }

  /** "CH123456" has 8 characters where a Swiss IBAN has 21. */
  lemma ShortSwissNotWellFormed()
    ensures !WellFormed("CH123456")
  {
    assert "CH123456"[..2] == "CH";
  }

  /** "CH123456" is too short for Switzerland, and its checksum fails too. */
  lemma ShortSwissViolated()
    ensures !Acceptable(Some(Create("CH123456")))
    ensures Remainder(Rearranged("CH123456")) == 72
  {
    ShortSwissClean();
    ShortSwissNotWellFormed();
    ShortSwissRearranged();
    ShortSwissChecksum();
  }

  /** A known Swiss IBAN is valid, with or without the spaces of the paper format. */
  lemma SwissValid()
    ensures Acceptable(Some(Create("CH3909000000306638172")))
    ensures Create("CH39 0900 0000 3066 3817 2") == Create("CH3909000000306638172")
    ensures Acceptable(Some(Create("CH39 0900 0000 3066 3817 2")))
  {
    SwissClean();
    SwissWellFormed();
    SwissRearranged();
    SwissChecksum();
    SwissSpacedIban();
  }

  /** The input with a three-letter country code contains no whitespace. */
  lemma MalformedClean()
    ensures NoWhitespace("CHE3909000000306638172")
  {
  }

  /** Its third character is a letter where the first check digit belongs. */
  lemma MalformedNotWellFormed()
    ensures !WellFormed("CHE3909000000306638172")
  {
    assert "CHE3909000000306638172"[2] == 'E';
  }

  /** A third letter in the country code, and the empty string, are violations. */
  lemma MalformedViolated()
    ensures !Acceptable(Some(Create("CHE3909000000306638172")))
    ensures !Acceptable(Some(Create("")))
  {
    MalformedClean();
    MalformedNotWellFormed();
  }

  /** A Dutch IBAN, with letters in its account part, is valid. */
  lemma DutchValid()
    ensures Acceptable(Some(Create("NL53ABNA0205986478")))
  {
    DutchClean();
    DutchWellFormed();
    DutchRearranged();
    DutchChecksum();
  }

  // ---------------------------------------------------------------------------
  // testClearingNumberExtraction
  // ---------------------------------------------------------------------------

  /** The country code and the four characters after the check digits of the Dutch
      test IBAN. */
  lemma DutchClearingDigits()
    ensures "NL53ABNA0205986478"[..2] == "NL" && "NL53ABNA0205986478"[4..8] == "ABNA"
  {
  }

  /** The country code and the five characters after the check digits of the Swiss
      test IBAN. */
  lemma SwissClearingDigits()
    ensures "CH3909000000306638172"[..2] == "CH" && "CH3909000000306638172"[4..9] == "09000"
  {
  }

  /** Stripping the Swiss clearing number removes its one leading zero. */
  lemma SwissClearingStripped()
    ensures StripLeadingZeros("09000") == "9000"
  {
  }

  /** The Dutch clearing number has no leading zero, so both extractions agree. */
  lemma DutchExtraction()
    ensures ExtractClearingNumber(Create("NL53ABNA0205986478")) == Success("ABNA")
    ensures ExtractClearingNumberWithoutLeadingZeros(Create("NL53ABNA0205986478"))
         == ExtractClearingNumber(Create("NL53ABNA0205986478"))
  {
    DutchClean();
    DutchValid();
    DutchClearingDigits();
    ExtractionsAgree(Iban("NL53ABNA0205986478"));
  }

  /** The Swiss clearing number is read from the normalised value; stripping removes
      only the leading zero. */
  lemma SwissExtraction()
    ensures ExtractClearingNumber(Create("CH39 0900 0000 3066 3817 2")) == Success("09000")
    ensures ExtractClearingNumberWithoutLeadingZeros(Create("CH39 0900 0000 3066 3817 2"))
         == Success("9000")
  {
    SwissSpacedIban();
    SwissClean();
    SwissValid();
    SwissClearingDigits();
    SwissClearingStripped();
  }

  /** Extraction from an invalid IBAN fails with an illegal-argument error. */
  lemma InvalidExtractionFails()
    ensures ExtractClearingNumber(Create("CH123456")) == Failure(IllegalArgument("CH123456"))
    ensures ExtractClearingNumberWithoutLeadingZeros(Create("CH123456"))
         == Failure(IllegalArgument("CH123456"))
  {
    ShortSwissViolated();
  }
}
