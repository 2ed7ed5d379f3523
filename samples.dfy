/** The Slovak sample IBAN `SK17 0900 0000 0000 2404 1632` against the check
    and the fix. */
module Samples {
  import opened Decimal
  import opened Checksum
  import opened Seqs

  /** The value of a four-digit numeral. */
  lemma ValueOfFour(s: string)
    requires |s| == 4 && AllDigits(s)
    ensures Value(s) == DigitValue(s[0]) * 1000 + DigitValue(s[1]) * 100 + DigitValue(s[2]) * 10 + DigitValue(s[3])
  {
    assert s[..3][..2] == s[..2] && s[..2][..1] == s[..1] && s[..1][..0] == [];
    assert Value(s[..1]) == DigitValue(s[0]);
    assert Value(s[..2]) == DigitValue(s[0]) * 10 + DigitValue(s[1]);
    assert Value(s[..3]) == DigitValue(s[0]) * 100 + DigitValue(s[1]) * 10 + DigitValue(s[2]);
  }

  lemma FrontValue()
    ensures AllDigits("090000000000") && Value("090000000000") == 90000000000
  {
    ValueOfFour("0900");
    ValueOfFour("0000");
    ValueAppend("0900", "0000");
    ValueAppend("0900" + "0000", "0000");
    assert "0900" + "0000" + "0000" == "090000000000";
  }

  lemma BackValue()
    ensures AllDigits("24041632") && Value("24041632") == 24041632
  {
    ValueOfFour("2404");
    ValueOfFour("1632");
    ValueAppend("2404", "1632");
    assert "2404" + "1632" == "24041632";
  }

  /** The account part of the sample, after its check digits, as a number. */
  lemma BodyValue()
    ensures AllDigits("09000000000024041632") && Value("09000000000024041632") == 9000000000024041632
  {
    FrontValue();
    BackValue();
    ValueAppend("090000000000", "24041632");
    assert Pow10(8) == 100000000;
    assert "090000000000" + "24041632" == "09000000000024041632";
  }

  /** The numeral of a country code and two check digits: the numerals of
      the four characters in order. */
  lemma CodeNumeral(a: char, b: char, c: char, d: char)
    requires a >= '0' && b >= '0' && IsDigit(c) && IsDigit(d)
    ensures NumeralSafe([a, b, c, d])
    ensures Numeral([a, b, c, d]) == CharNumeral(a) + CharNumeral(b) + [c] + [d]
  {
    assert [a, b, c, d] == [a, b, c] + [d] && [a, b, c] == [a, b] + [c] && [a, b] == [a] + [b];
    NumeralSnoc([], a);
    assert Numeral([a]) == CharNumeral(a) by {
      assert [] + [a] == [a];
      assert Numeral([]) + CharNumeral(a) == CharNumeral(a);
    }
    NumeralSnoc([a], b);
    NumeralSnoc([a, b], c);
    NumeralSnoc([a, b, c], d);
  }

  /** Two two-digit numerals followed by two digits make a six-digit one. */
  lemma ValueOfSix(x: string, y: string, c: char, d: char)
    requires AllDigits(x) && AllDigits(y) && |x| == 2 && |y| == 2 && IsDigit(c) && IsDigit(d)
    ensures AllDigits(x + y + [c] + [d]) && |x + y + [c] + [d]| == 6
    ensures Value(x + y + [c] + [d]) == Value(x) * 10000 + Value(y) * 100 + DigitValue(c) * 10 + DigitValue(d)
  {
    ValueAppend(x, y);
    ValueAppend(x + y, [c]);
    ValueAppend(x + y + [c], [d]);
  }

  /** The numeral of `SK17`: `28`, `20`, `1`, `7`. */
  lemma SlovakHeadValue()
    ensures NumeralSafe("SK17") && AllDigits(Numeral("SK17")) && |Numeral("SK17")| == 6
    ensures Value(Numeral("SK17")) == 282017
  {
    CodeNumeral('S', 'K', '1', '7');
    ValueOfSix(CharNumeral('S'), CharNumeral('K'), '1', '7');
  }

  /** The check value of a four-character head before an all-digit body:
      the body shifted left by the head's numeral, plus that numeral. */
  lemma CheckValueOfParts(head: string, body: string)
    requires |head| == 4 && NumeralSafe(head) && AllDigits(body)
    ensures NumeralSafe(head + body)
    ensures CheckValue(head + body) == Value(body) * Pow10(|Numeral(head)|) + Value(Numeral(head))
  {
    PrefixOfAppend(head, body);
    NumeralOfDigits(body);
    NumeralSafeAppend(head, body);
    NumeralAppend(body, head);
    ValueAppend(body, Numeral(head));
  }

  /** The number `ibanCheck` reduces for the Slovak sample. */
  lemma SlovakCheckValue()
    ensures NumeralSafe("SK1709000000000024041632")
    ensures CheckValue("SK1709000000000024041632") == 9000000000024041632282017
  {
    assert "SK17" + "09000000000024041632" == "SK1709000000000024041632";
    SlovakHeadValue();
    BodyValue();
    CheckValueOfParts("SK17", "09000000000024041632");
    assert Pow10(6) == 1000000;
  }

  /** `ibanCheck` accepts the Slovak sample. */
  lemma SlovakSamplePasses()
    ensures NumeralSafe("SK1709000000000024041632") && CheckHolds("SK1709000000000024041632")
  {
    SlovakCheckValue();
  }

  /** The Slovak sample is its own fix. */
  lemma SlovakSampleFixed()
    ensures FixSafe("SK1709000000000024041632")
    ensures Fixed("SK1709000000000024041632") == "SK1709000000000024041632"
  {
    var s := "SK1709000000000024041632";
    assert "SK17" + "09000000000024041632" == s;
    SlovakSamplePasses();
    PrefixOfAppend("SK17", "09000000000024041632");
    assert s[..4][2..4] == s[2..4];
    assert "SK17"[2..4] == "17";
    assert AllDigits("17") && Value("17") == 17;
    FixedIffValid(s);
  }

  /** Two IBANs that differ only in their check digits fix alike. */
  lemma SameBodyFixesAlike(x: string, y: string, body: string)
    requires |x| == 4 && |y| == 4 && x[..2] == y[..2]
    requires NumeralSafe(x[..2]) && AllDigits(body)
    ensures FixSafe(x + body) && FixSafe(y + body)
    ensures Fixed(x + body) == Fixed(y + body)
  {
    PrefixOfAppend(x, body);
    PrefixOfAppend(y, body);
    NumeralOfDigits(body);
    assert (x + body)[..2] == x[..4][..2] && (y + body)[..2] == y[..4][..2];
    FixedDependsOnBody(x + body, y + body);
  }

  /** The sample with check digits 15 fixes to the sample. */
  lemma SlovakVariant15Fixes()
    ensures FixSafe("SK1509000000000024041632")
    ensures Fixed("SK1509000000000024041632") == "SK1709000000000024041632"
  {
    assert "SK15" + "09000000000024041632" == "SK1509000000000024041632";
    assert "SK17" + "09000000000024041632" == "SK1709000000000024041632";
    assert "SK15"[..2] == "SK17"[..2] == "SK";
    BodyValue();
    SameBodyFixesAlike("SK15", "SK17", "09000000000024041632");
    SlovakSampleFixed();
  }

  /** The sample with check digits 75 fixes to the sample. */
  lemma SlovakVariant75Fixes()
    ensures FixSafe("SK7509000000000024041632")
    ensures Fixed("SK7509000000000024041632") == "SK1709000000000024041632"
  {
    assert "SK75" + "09000000000024041632" == "SK7509000000000024041632";
    assert "SK17" + "09000000000024041632" == "SK1709000000000024041632";
    assert "SK75"[..2] == "SK17"[..2] == "SK";
    BodyValue();
    SameBodyFixesAlike("SK75", "SK17", "09000000000024041632");
    SlovakSampleFixed();
  }

  /** An IBAN whose check digits are in 2..98 but which the fix changes does
      not pass the check. */
  lemma ChangedByFixFails(s: string)
    requires |s| >= 4 && NumeralSafe(s) && AllDigits(s[2..4]) && 2 <= Value(s[2..4]) <= 98
    requires FixSafe(s) && Fixed(s) != s
    ensures !CheckHolds(s)
  {
    FixedIffValid(s);
  }

  /** The check digits of a four-character head before a body are the
      head's own. */
  lemma HeadDigits(head: string, body: string)
    requires |head| == 4
    ensures (head + body)[2..4] == head[2..4]
  {
  }

  /** The sample with check digits 15 can be checked, and its check digits
      read as 15. */
  lemma SlovakVariant15Digits()
    ensures NumeralSafe("SK1509000000000024041632")
    ensures AllDigits("SK1509000000000024041632"[2..4]) && Value("SK1509000000000024041632"[2..4]) == 15
  {
    assert "SK15" + "09000000000024041632" == "SK1509000000000024041632";
    CodeNumeral('S', 'K', '1', '5');
    BodyValue();
    CheckValueOfParts("SK15", "09000000000024041632");
    HeadDigits("SK15", "09000000000024041632");
    assert "SK15"[2..4] == "15";
    assert AllDigits("15") && Value("15") == 15;
  }

  /** `ibanCheck` refuses the sample with check digits 15. */
  lemma SlovakVariant15Fails()
    ensures NumeralSafe("SK1509000000000024041632") && !CheckHolds("SK1509000000000024041632")
  {
    SlovakVariant15Digits();
    SlovakVariant15Fixes();
    ChangedByFixFails("SK1509000000000024041632");
  }

  /** The sample with check digits 75 can be checked, and its check digits
      read as 75. */
  lemma SlovakVariant75Digits()
    ensures NumeralSafe("SK7509000000000024041632")
    ensures AllDigits("SK7509000000000024041632"[2..4]) && Value("SK7509000000000024041632"[2..4]) == 75
  {
    assert "SK75" + "09000000000024041632" == "SK7509000000000024041632";
    CodeNumeral('S', 'K', '7', '5');
    BodyValue();
    CheckValueOfParts("SK75", "09000000000024041632");
    HeadDigits("SK75", "09000000000024041632");
    assert "SK75"[2..4] == "75";
    assert AllDigits("75") && Value("75") == 75;
  }

  /** `ibanCheck` refuses the sample with check digits 75. */
  lemma SlovakVariant75Fails()
    ensures NumeralSafe("SK7509000000000024041632") && !CheckHolds("SK7509000000000024041632")
  {
    SlovakVariant75Digits();
    SlovakVariant75Fixes();
    ChangedByFixFails("SK7509000000000024041632");
  }
}
