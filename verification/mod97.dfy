/**
  The ISO 7064 MOD 97-10 check as ISO 13616 applies it to an IBAN.

  Two definitions of "the remainder" live side by side:
  - the reference one: replace every letter by its two-digit code (A = 10 ... Z = 35),
    read the resulting digit string as one (large) decimal number, take it mod 97;
  - the one a validator computes: a left-to-right Horner fold that never holds more
    than a two-digit remainder, `rem := (rem * 10 + d) % 97` for a digit and
    `rem := (rem * 100 + code) % 97` for a letter.
  FoldMatchesNumeral proves the two agree on every alphanumeric string.
*/
module Mod97 {

  predicate IsDigit(c: char) { '0' <= c <= '9' }

  predicate IsUpper(c: char) { 'A' <= c <= 'Z' }

  /** The characters an electronic-format IBAN is made of. */
  predicate IsAlnum(c: char) { IsDigit(c) || IsUpper(c) }

  predicate AllDigits(s: string) { forall i :: 0 <= i < |s| ==> IsDigit(s[i]) }

  predicate AllAlnum(s: string) { forall i :: 0 <= i < |s| ==> IsAlnum(s[i]) }

  function DigitValue(c: char): (d: nat)
    requires IsDigit(c)
    ensures d < 10
  {
    c as int - '0' as int
  }

  /** The MOD 97-10 code of a letter: A = 10, B = 11, ..., Z = 35. */
  function LetterValue(c: char): (v: nat)
    requires IsUpper(c)
    ensures 10 <= v <= 35
  {
    c as int - 'A' as int + 10
  }

  function DigitChar(d: nat): (c: char)
    requires d < 10
    ensures IsDigit(c) && DigitValue(c) == d
  {
    ('0' as int + d) as char
  }

  function Pow10(n: nat): (p: nat)
    ensures p >= 1
  {
    if n == 0 then 1 else 10 * Pow10(n - 1)
  }

  /** The value of a decimal numeral, most significant digit first. */
  function NumeralValue(s: string): (v: nat)
    requires AllDigits(s)
  {
    if s == [] then 0 else NumeralValue(s[..|s| - 1]) * 10 + DigitValue(s[|s| - 1])
  }

  /** The digits one character stands for in the numeral: a digit stands for itself,
      a letter for the two digits of its code. */
  function CharDigits(c: char): (r: string)
    requires IsAlnum(c)
    ensures AllDigits(r)
    ensures IsDigit(c) ==> r == [c] && NumeralValue(r) == DigitValue(c)
    ensures IsUpper(c) ==> |r| == 2 && NumeralValue(r) == LetterValue(c)
  {
    if IsDigit(c) then [c]
    else
      var v := LetterValue(c);
      var r := [DigitChar(v / 10), DigitChar(v % 10)];
      assert r[..1] == [r[0]] && r[..1][..0] == [];
      assert NumeralValue(r[..1]) == DigitValue(r[0]);
      r
  }

  /** The numeral a string is turned into by replacing each letter by its code. */
  function Expand(s: string): (r: string)
    requires AllAlnum(s)
    ensures AllDigits(r)
    ensures |s| <= |r| <= 2 * |s|
  {
    if s == [] then [] else Expand(s[..|s| - 1]) + CharDigits(s[|s| - 1])
  }

  /** The ISO 13616 rearrangement: the first four characters (country code and
      check digits) are moved to the end. */
  function Rearranged(s: string): (r: string)
    requires |s| >= 4
    ensures |r| == |s|
    ensures forall i :: 0 <= i < |s| - 4 ==> r[i] == s[i + 4]
    ensures forall i :: |s| - 4 <= i < |s| ==> r[i] == s[i - (|s| - 4)]
    ensures AllAlnum(s) ==> AllAlnum(r)
  {
    s[4..] + s[..4]
  }

  /** One step of the running remainder: a digit shifts the numeral by one decimal
      place, a letter by two. */
  function Step(rem: nat, c: char): (r: nat)
    requires IsAlnum(c)
    ensures r < 97
  {
    if IsDigit(c) then (rem * 10 + DigitValue(c)) % 97
    else (rem * 100 + LetterValue(c)) % 97
  }

  /** The running remainder after feeding the characters of `s`, one at a time, to a
      fold that starts from `start`. */
  function RemainderFrom(start: nat, s: string): (r: nat)
    requires AllAlnum(s)
    ensures s != [] ==> r < 97
  {
    if s == [] then start else Step(RemainderFrom(start, s[..|s| - 1]), s[|s| - 1])
  }

  /** The remainder of the numeral of `s` modulo 97, computed as a validator does:
      one character at a time, carrying only the running remainder. */
  function Remainder(s: string): (r: nat)
    requires AllAlnum(s)
    ensures r < 97
  {
    RemainderFrom(0, s)
  }

  /** Appending one character advances the running remainder by one step. */
  lemma RemainderSnoc(start: nat, p: string, c: char)
    requires AllAlnum(p) && IsAlnum(c)
    ensures AllAlnum(p + [c])
    ensures RemainderFrom(start, p + [c]) == Step(RemainderFrom(start, p), c)
  {
    assert (p + [c])[..|p|] == p;
  }

  /** The fold over a concatenation continues from where the fold over its first part
      stopped. */
  lemma {:induction false} RemainderConcat(start: nat, a: string, b: string)
    requires AllAlnum(a) && AllAlnum(b)
    ensures AllAlnum(a + b)
    ensures RemainderFrom(start, a + b) == RemainderFrom(RemainderFrom(start, a), b)
  {
    if b == [] {
      assert a + b == a;
    } else {
      var b', c := b[..|b| - 1], b[|b| - 1];
      assert a + b == (a + b') + [c];
      assert b == b' + [c];
      RemainderConcat(start, a, b');
      RemainderSnoc(start, a + b', c);
      RemainderSnoc(RemainderFrom(start, a), b', c);
    }
  }

  /** The MOD 97-10 check of a whole IBAN: the rearranged string leaves remainder 1. */
  predicate ChecksumHolds(s: string)
    requires |s| >= 4 && AllAlnum(s)
    ensures ChecksumHolds(s) <==> NumeralValue(Expand(Rearranged(s))) % 97 == 1
  {
    FoldMatchesNumeral(Rearranged(s));
    Remainder(Rearranged(s)) == 1
  }

  /** Replacing a number by its remainder before multiplying and adding does not change
      the final remainder. */
  lemma ModStep(a: nat, k: nat, x: nat)
    ensures ((a % 97) * k + x) % 97 == (a * k + x) % 97
  {
    var q := a / 97;
    assert a == 97 * q + a % 97;
    assert a * k + x == 97 * (q * k) + ((a % 97) * k + x) by {
      calc {
        a * k + x;
        (97 * q + a % 97) * k + x;
        97 * q * k + (a % 97) * k + x;
      }
    }
    ShiftByMultiple(q * k, (a % 97) * k + x);
  }

  lemma ShiftByMultiple(m: nat, y: nat)
    ensures (97 * m + y) % 97 == y % 97
  {
  }

  /** Reading the concatenation of two numerals. */
  lemma {:induction false} NumeralAppend(a: string, b: string)
    requires AllDigits(a) && AllDigits(b)
    ensures AllDigits(a + b)
    ensures NumeralValue(a + b) == NumeralValue(a) * Pow10(|b|) + NumeralValue(b)
  {
    if b == [] {
      assert a + b == a;
    } else {
      var b' := b[..|b| - 1];
      assert (a + b)[..|a + b| - 1] == a + b';
      assert (a + b)[|a + b| - 1] == b[|b| - 1];
      NumeralAppend(a, b');
      Regroup(NumeralValue(a), Pow10(|b'|), NumeralValue(b'), DigitValue(b[|b| - 1]));
    }
  }

  lemma Regroup(x: nat, p: nat, y: nat, d: nat)
    ensures (x * p + y) * 10 + d == x * (10 * p) + (y * 10 + d)
  {
    assert (x * p) * 10 == x * (10 * p);
  }

  /** The fold computes the remainder of the numeral: the validator's arithmetic
      agrees with the definition in ISO 7064. */
  lemma {:induction false} FoldMatchesNumeral(s: string)
    requires AllAlnum(s)
    ensures Remainder(s) == NumeralValue(Expand(s)) % 97
  {
    if s != [] {
      var p, c := s[..|s| - 1], s[|s| - 1];
      FoldMatchesNumeral(p);
      var e, cd := Expand(p), CharDigits(c);
      assert Expand(s) == e + cd;
      NumeralAppend(e, cd);
      StepMatchesNumeral(NumeralValue(e), c);
    }
  }

  /** One step of the fold on a remainder agrees with appending the character's digits
      to the full numeral. */
  lemma StepMatchesNumeral(n: nat, c: char)
    requires IsAlnum(c)
    ensures Step(n % 97, c) == (n * Pow10(|CharDigits(c)|) + NumeralValue(CharDigits(c))) % 97
  {
    var ds := CharDigits(c);
    if IsDigit(c) {
      assert |ds| == 1 && NumeralValue(ds) == DigitValue(c);
      assert Pow10(|ds|) == 10;
      ModStep(n, 10, DigitValue(c));
    } else {
      assert |ds| == 2 && NumeralValue(ds) == LetterValue(c);
      assert Pow10(|ds|) == 100;
      ModStep(n, 100, LetterValue(c));
    }
  }

  /** Appending two digits to a string moves its remainder as appending their value
      to the numeral would. */
  lemma AppendTwoDigits(p: string, d1: char, d2: char)
    requires AllAlnum(p) && IsDigit(d1) && IsDigit(d2)
    ensures AllAlnum(p + [d1, d2])
    ensures Remainder(p + [d1, d2])
         == (Remainder(p) * 100 + DigitValue(d1) * 10 + DigitValue(d2)) % 97
  {
    assert p + [d1, d2] == (p + [d1]) + [d2];
    RemainderSnoc(0, p, d1);
    RemainderSnoc(0, p + [d1], d2);
    var m := Remainder(p);
    ModStep(m * 10 + DigitValue(d1), 10, DigitValue(d2));
  }

  /** The ISO 13616 check digits for a country code and a basic bank account number:
      98 minus the remainder of the rearranged string with "00" as check digits. */
  function CheckDigits(country: string, bban: string): (dd: string)
    requires |country| == 2 && IsUpper(country[0]) && IsUpper(country[1])
    requires AllAlnum(bban)
    ensures |dd| == 2 && AllDigits(dd)
    ensures 2 <= DigitValue(dd[0]) * 10 + DigitValue(dd[1]) <= 98
  {
    var v := 98 - Remainder(bban + country + "00");
    [DigitChar(v / 10), DigitChar(v % 10)]
  }

  /** With check digits `dd`, the remainder of the rearranged IBAN is the remainder
      with "00" as check digits, shifted by the value of `dd`. */
  lemma RemainderWithCheckDigits(country: string, dd: string, bban: string)
    requires |country| == 2 && IsUpper(country[0]) && IsUpper(country[1])
    requires |dd| == 2 && AllDigits(dd) && AllAlnum(bban)
    ensures AllAlnum(country + dd + bban) && AllAlnum(bban + country + "00")
    ensures Remainder(Rearranged(country + dd + bban))
         == (Remainder(bban + country + "00") + DigitValue(dd[0]) * 10 + DigitValue(dd[1])) % 97
  {
    var s := country + dd + bban;
    var p := bban + country;
    assert Rearranged(s) == p + [dd[0], dd[1]];
    assert bban + country + "00" == p + ['0', '0'];
    AppendTwoDigits(p, dd[0], dd[1]);
    AppendTwoDigits(p, '0', '0');
    var m := Remainder(p);
    ModStep(m * 100, 1, DigitValue(dd[0]) * 10 + DigitValue(dd[1]));
  }

  /** Two two-digit numerals with the same value are the same string. */
  lemma TwoDigitsDetermined(a: string, b: string)
    requires |a| == 2 && AllDigits(a) && |b| == 2 && AllDigits(b)
    requires DigitValue(a[0]) * 10 + DigitValue(a[1]) == DigitValue(b[0]) * 10 + DigitValue(b[1])
    ensures a == b
  {
    assert a[0] == b[0];
    assert a[1] == b[1];
  }

  /** Adding a value in 2..98 to a remainder lands on 1 modulo 97 exactly when the two
      add up to 98. */
  lemma WindowedSum(r0: nat, d: int)
    requires r0 < 97 && 2 <= d <= 98
    ensures (r0 + d) % 97 == 1 <==> d == 98 - r0
  {
    if r0 + d >= 97 {
      ShiftByMultiple(1, r0 + d - 97);
    }
  }

  /** The MOD 97-10 check holds for exactly one choice of check digits in 02..98, the
      one CheckDigits computes: on that range generating and validating agree. */
  lemma CheckDigitsCharacterize(country: string, dd: string, bban: string)
    requires |country| == 2 && IsUpper(country[0]) && IsUpper(country[1])
    requires |dd| == 2 && AllDigits(dd) && AllAlnum(bban)
    requires 2 <= DigitValue(dd[0]) * 10 + DigitValue(dd[1]) <= 98
    ensures AllAlnum(country + dd + bban)
    ensures ChecksumHolds(country + dd + bban) <==> dd == CheckDigits(country, bban)
  {
    RemainderWithCheckDigits(country, dd, bban);
    var r0 := Remainder(bban + country + "00");
    var d := DigitValue(dd[0]) * 10 + DigitValue(dd[1]);
    var cd := CheckDigits(country, bban);
    assert DigitValue(cd[0]) * 10 + DigitValue(cd[1]) == 98 - r0;
    WindowedSum(r0, d);
    if d == 98 - r0 {
      TwoDigitsDetermined(dd, cd);
    }
  }
}
