/** The IBAN facade: a normalised account string bound to its country
    configuration, with the length, format and checksum queries, the grouped
    form, and field extraction through the configuration's resolver cache. */
module Ibans {
  import opened Wrappers
  import opened Exceptions
  import opened Decimal
  import opened Checks
  import opened Resolvers
  import opened Configs
  import opened Checksum
  import Repository
  import Catalogue

  /** `s` with every space removed and every other character kept, in order. */
  function RemoveSpaces(s: string): string {
    if |s| == 0 then ""
    else RemoveSpaces(s[..|s| - 1]) + (if s[|s| - 1] == ' ' then "" else [s[|s| - 1]])
  }

  /** `s` cut into groups of four, separated by single spaces. */
  function Grouped(s: string): string {
    if |s| <= 4 then s else s[..4] + " " + Grouped(s[4..])
  }

  lemma {:induction false} RemoveSpacesNoSpace(s: string)
    requires ' ' !in s
    ensures RemoveSpaces(s) == s
  {
    if |s| > 0 {
      assert ' ' !in s[..|s| - 1];
      RemoveSpacesNoSpace(s[..|s| - 1]);
    }
  }

  /** No space is left; exactly the spaces are dropped. */
  lemma {:induction false} RemoveSpacesSpec(s: string)
    ensures ' ' !in RemoveSpaces(s)
    ensures |RemoveSpaces(s)| == |s| - multiset(s)[' ']
  {
    if |s| > 0 {
      var init := s[..|s| - 1];
      RemoveSpacesSpec(init);
      assert s == init + [s[|s| - 1]];
      assert multiset(s) == multiset(init) + multiset{s[|s| - 1]};
    }
  }

  lemma {:induction false} RemoveSpacesAppend(a: string, b: string)
    ensures RemoveSpaces(a + b) == RemoveSpaces(a) + RemoveSpaces(b)
  {
    if |b| == 0 {
      assert a + b == a;
    } else {
      assert (a + b)[..|a + b| - 1] == a + b[..|b| - 1];
      RemoveSpacesAppend(a, b[..|b| - 1]);
    }
  }

  /** Normalising twice is normalising once. */
  lemma RemoveSpacesIdempotent(s: string)
    ensures RemoveSpaces(RemoveSpaces(s)) == RemoveSpaces(s)
  {
    RemoveSpacesSpec(s);
    RemoveSpacesNoSpace(RemoveSpaces(s));
  }

  /** One more character: a space first when a group of four is complete. */
  lemma {:induction false} GroupedSnoc(t: string, x: char)
    ensures Grouped(t + [x]) == Grouped(t) + (if |t| > 0 && |t| % 4 == 0 then " " else "") + [x]
    decreases |t|
  {
    if |t| > 4 {
      assert (t + [x])[..4] == t[..4];
      assert (t + [x])[4..] == t[4..] + [x];
      GroupedSnoc(t[4..], x);
    } else if |t| == 4 {
      assert (t + [x])[..4] == t && (t + [x])[4..] == [x];
    }
  }

  lemma {:induction false} GroupedLength(s: string)
    ensures |s| > 0 ==> |Grouped(s)| == |s| + (|s| - 1) / 4
    ensures |s| == 0 ==> Grouped(s) == ""
    decreases |s|
  {
    if |s| > 4 {
      GroupedLength(s[4..]);
    }
  }

  /** Position `j` of the grouped form is a space when `j % 5 == 4` and
      otherwise character `j - j / 5` of `s`. */
  lemma {:induction false} GroupedChar(s: string, j: int)
    requires 0 <= j < |Grouped(s)|
    ensures if j % 5 == 4 then Grouped(s)[j] == ' ' else j - j / 5 < |s| && Grouped(s)[j] == s[j - j / 5]
    decreases |s|
  {
    if |s| > 4 && j >= 5 {
      assert Grouped(s)[j] == Grouped(s[4..])[j - 5];
      GroupedChar(s[4..], j - 5);
      assert (j - 5) % 5 == j % 5 && (j - 5) / 5 == j / 5 - 1;
    }
  }

  /** The character at input position `i` sits at output position `i + i / 4`. */
  lemma GroupedPlaces(s: string)
    ensures forall i :: 0 <= i < |s| ==> i + i / 4 < |Grouped(s)| && Grouped(s)[i + i / 4] == s[i]
  {
    forall i | 0 <= i < |s| ensures i + i / 4 < |Grouped(s)| && Grouped(s)[i + i / 4] == s[i] {
      PlaceOf(s, i);
    }
  }

  /** A space comes right before input character `i` exactly when `i > 0` and
      `i % 4 == 0`. */
  lemma GroupedSpaces(s: string)
    requires ' ' !in s
    ensures forall i :: 0 < i < |s| ==>
      i + i / 4 - 1 < |Grouped(s)| && (Grouped(s)[i + i / 4 - 1] == ' ' <==> i % 4 == 0)
  {
    forall i | 0 < i < |s|
      ensures i + i / 4 - 1 < |Grouped(s)| && (Grouped(s)[i + i / 4 - 1] == ' ' <==> i % 4 == 0)
    {
      SpaceBefore(s, i);
    }
  }

  lemma SpaceBefore(s: string, i: int)
    requires ' ' !in s && 0 < i < |s|
    ensures i + i / 4 - 1 < |Grouped(s)|
    ensures Grouped(s)[i + i / 4 - 1] == ' ' <==> i % 4 == 0
  {
    PlaceOf(s, i);
    var j := i + i / 4 - 1;
    GroupedChar(s, j);
    if i % 4 == 0 {
      assert j % 5 == 4;
    } else {
      assert j == (i - 1) + (i - 1) / 4;
      PlaceOf(s, i - 1);
    }
  }

  /** The grouped form of a space-free IBAN neither starts nor ends with a space. */
  lemma GroupedEnds(s: string)
    requires ' ' !in s && |s| > 0
    ensures Grouped(s)[0] != ' ' && Grouped(s)[|Grouped(s)| - 1] != ' '
  {
    GroupedLength(s);
    PlaceOf(s, 0);
    var n := |s|;
    assert (n - 1) + (n - 1) / 4 == |Grouped(s)| - 1;
    PlaceOf(s, n - 1);
  }

  lemma PlaceOf(s: string, i: int)
    requires 0 <= i < |s|
    ensures i + i / 4 < |Grouped(s)| && Grouped(s)[i + i / 4] == s[i]
  {
    GroupedLength(s);
    var j := i + i / 4;
    assert j % 5 == i % 4 && j / 5 == i / 4;
    GroupedChar(s, j);
  }

  /** Deleting the spaces of the grouped form gives the IBAN back. */
  lemma {:induction false} RemoveSpacesGrouped(s: string)
    requires ' ' !in s
    ensures RemoveSpaces(Grouped(s)) == s
    decreases |s|
  {
    if |s| <= 4 {
      RemoveSpacesNoSpace(s);
    } else {
      assert ' ' !in s[..4] && ' ' !in s[4..];
      RemoveSpacesNoSpace(s[..4]);
      RemoveSpacesGrouped(s[4..]);
      RemoveSpacesAppend(s[..4] + " ", Grouped(s[4..]));
      RemoveSpacesAppend(s[..4], " ");
      assert RemoveSpaces(" ") == "" by {
        assert " "[..0] == "";
      }
      assert s[..4] + s[4..] == s;
    }
  }

  /** The two ways `ibanFix` writes the check digits spell `Fixed`. */
  lemma FixedText(s: string)
    requires FixSafe(s)
    ensures CheckDigits(s) < 10 ==> s[..2] + "0" + IntToString(CheckDigits(s)) + s[4..] == Fixed(s)
    ensures CheckDigits(s) >= 10 ==> s[..2] + IntToString(CheckDigits(s)) + s[4..] == Fixed(s)
  {
  }

  /** The normalising loop of `instance`: copy every character but spaces. */
  method StripSpaces(s: string) returns (t: string)
    ensures t == RemoveSpaces(s)
  {
    if ' ' !in s {
      RemoveSpacesNoSpace(s);
      return s;
    }
    var sb := "";
    var i := 0;
    while i < |s|
      invariant 0 <= i <= |s|
      invariant sb == RemoveSpaces(s[..i])
    {
      assert s[..i + 1][..i] == s[..i];
      if s[i] != ' ' {
        sb := sb + [s[i]];
      }
      i := i + 1;
    }
    assert s[..|s|] == s;
    t := sb;
  }

  /** `addIbanCharAsNumber`: a digit is appended as itself, any other
      character as the decimal text of `c - 'A' + 10`. */
  method AddIbanCharAsNumber(sb: string, c: char) returns (r: string)
    requires c >= '0'
    ensures r == sb + CharNumeral(c)
  {
    if '0' <= c <= '9' {
      r := sb + [c];
    } else {
      r := sb + IntToString(c as int - 'A' as int + 10);
    }
  }

  /** Static `ibanCheck(iban)`: never throws; false for `null` or fewer than
      four characters; otherwise the numerals of the characters from position
      4 on, then of the first four, read as one decimal number, must be 1
      modulo 97. */
  method IbanCheck(iban: Option<string>) returns (ok: bool)
    requires iban.Some? && |iban.value| >= 4 ==> NumeralSafe(iban.value)
    ensures ok <==> iban.Some? && |iban.value| >= 4 && CheckHolds(iban.value)
  {
    if iban.None? {
      return false;
    }
    var s := iban.value;
    if |s| < 4 {
      return false;
    }
    RotationSplit(s);
    var sb := "";
    var i := 4;
    while i < |s|
      invariant 4 <= i <= |s|
      invariant sb == BodyNumeral(s, i)
    {
      BodyStep(s, i);
      sb := AddIbanCharAsNumber(sb, s[i]);
      i := i + 1;
    }
    assert i == |s|;
    ghost var body := sb;
    i := 0;
    while i < 4
      invariant 0 <= i <= 4
      invariant sb == body + HeadNumeral(s, 4, i)
    {
      HeadStep(s, 4, i, body);
      sb := AddIbanCharAsNumber(sb, s[i]);
      i := i + 1;
    }
    assert i == 4;
    RotationNumeral(s);
    ok := Value(sb) % 97 == 1;
  }

  /** Static `ibanFix(iban)`: `null` for `null` or fewer than four characters;
      otherwise the check digits `98 - N mod 97`, zero-padded, replace
      positions 2 and 3, where `N` is the numeral of the characters from
      position 4 on, then of the first two, then `00`. */
  method IbanFix(iban: Option<string>) returns (r: Option<string>)
    requires iban.Some? && |iban.value| >= 4 ==> FixSafe(iban.value)
    ensures iban.None? || |iban.value| < 4 ==> r == Option.None
    ensures iban.Some? && |iban.value| >= 4 ==> r == Some(Fixed(iban.value))
  {
    if iban.None? {
      return Option.None;
    }
    var s := iban.value;
    if |s| < 4 {
      return Option.None;
    }
    var sb := "";
    var i := 4;
    while i < |s|
      invariant 4 <= i <= |s|
      invariant sb == BodyNumeral(s, i)
    {
      BodyStep(s, i);
      sb := AddIbanCharAsNumber(sb, s[i]);
      i := i + 1;
    }
    assert i == |s|;
    ghost var body := sb;
    i := 0;
    while i < 2
      invariant 0 <= i <= 2
      invariant sb == body + HeadNumeral(s, 2, i)
    {
      HeadStep(s, 2, i, body);
      sb := AddIbanCharAsNumber(sb, s[i]);
      i := i + 1;
    }
    assert i == 2;
    FixNumeral(s);
    FixedText(s);
    sb := sb + "00";
    var modi := Value(sb) % 97;
    var checksum := 98 - modi;
    if checksum < 10 {
      r := Some(s[..2] + "0" + IntToString(checksum) + s[4..]);
    } else {
      r := Some(s[..2] + IntToString(checksum) + s[4..]);
    }
  }

  /** An IBAN: the normalised account string and the configuration it is read with. */
  class Iban {
    const iban: string
    const config: IbanConfig

    constructor (iban: string, config: IbanConfig)
      ensures this.iban == iban && this.config == config
    {
      this.iban := iban;
      this.config := config;
    }

    /** `instance(iban, config)`: `null` input, input shorter than four
        characters (before normalising) and a `null` configuration are
        refused; otherwise the spaces are stripped and the configuration bound. */
    static method Instance(raw: Option<string>, config: IbanConfig?) returns (r: Result<Iban, Exception>)
      ensures raw.None? ==> r == Failure(IllegalArgument("iban is null"))
      ensures raw.Some? && |raw.value| < 4 ==> r == Failure(IllegalArgument("malformed iban " + raw.value))
      ensures raw.Some? && |raw.value| >= 4 && config == null ==>
        r == Failure(IllegalArgument("unable to create iban from " + RemoveSpaces(raw.value)))
      ensures raw.Some? && |raw.value| >= 4 && config != null ==>
        r.Success? && fresh(r.value) && r.value.iban == RemoveSpaces(raw.value) && r.value.config == config
    {
      if raw.None? {
        return Failure(IllegalArgument("iban is null"));
      }
      if |raw.value| < 4 {
        return Failure(IllegalArgument("malformed iban " + raw.value));
      }
      var s := StripSpaces(raw.value);
      if config == null {
        return Failure(IllegalArgument("unable to create iban from " + s));
      }
      var b := new Iban(s, config);
      return Success(b);
    }

    /** `instance(iban)`: the configuration is the catalogue entry the raw
        string's first two characters select; refusals of the lookup come
        first, then those of `instance(iban, config)`. */
    static method InstanceOf(raw: Option<string>) returns (r: Result<Iban, Exception>)
      ensures Repository.Parse(raw).Failure? ==> r == Failure(Repository.Parse(raw).error)
      ensures raw.None? ==> r == Failure(IllegalArgument("iban is null"))
      ensures Repository.Parse(raw).Success? && raw.Some? && |raw.value| < 4 ==>
        r == Failure(IllegalArgument("malformed iban " + raw.value))
      ensures Repository.Parse(raw).Success? && raw.Some? && |raw.value| >= 4 ==>
        r.Success? && fresh(r.value) && fresh(r.value.config) &&
        r.value.iban == RemoveSpaces(raw.value) &&
        Repository.Parse(raw).value == Some(r.value.config.Data()) &&
        r.value.config.Valid() && r.value.config.Coherent() && r.value.config.Keys() == []
    {
      var p := Repository.Parse(raw);
      if p.Failure? {
        return Failure(p.error);
      }
      if p.value.None? {
        r := Instance(raw, null);
        return;
      }
      var c := new IbanConfig.Of(p.value.value);
      r := Instance(raw, c);
    }

    /** `ibanPretty()`: a space before every fifth, ninth, ... character. */
    method IbanPretty() returns (r: string)
      ensures r == Grouped(iban)
    {
      var sb := "";
      var spacePos := 0;
      var i := 0;
      while i < |iban|
        invariant 0 <= i <= |iban|
        invariant sb == Grouped(iban[..i])
        invariant spacePos == if i == 0 then 0 else (i - 1) % 4 + 1
      {
        GroupedSnoc(iban[..i], iban[i]);
        assert iban[..i + 1] == iban[..i] + [iban[i]];
        if spacePos == 4 {
          sb := sb + " ";
          spacePos := 0;
        }
        sb := sb + [iban[i]];
        spacePos := spacePos + 1;
        i := i + 1;
      }
      assert iban[..|iban|] == iban;
      r := sb;
    }

    /** `lengthCheck()`: the length the configuration declares. */
    function LengthCheck(): (ok: bool)
      reads config
      ensures ok <==> |iban| == config.length
    {
      |iban| == config.length
    }

    /** `formatCheck()`: every clause of the configuration holds. */
    method FormatCheck() returns (ok: bool)
      requires FormatDefined(config.checks, iban)
      ensures ok == AllHold(config.checks, iban)
    {
      ok := config.FormatCheck(iban);
    }

    /** `ibanCheck()`: the checksum of the normalised string. */
    method IbanCheckDigits() returns (ok: bool)
      requires |iban| >= 4 ==> NumeralSafe(iban)
      ensures ok <==> |iban| >= 4 && CheckHolds(iban)
    {
      ok := IbanCheck(Some(iban));
    }

    /** `pattern()`: the configuration's pattern. */
    function Pattern(): (p: string)
      reads config
      ensures p == config.pattern
    {
      config.pattern
    }

    /** `format()`: the configuration's clause texts. */
    method Format() returns (r: Option<string>)
      ensures config.checks == [] ==> r == Option.None
      ensures config.checks != [] ==> r == Some(JoinClauses(config.checks))
    {
      r := config.Format();
    }

    /** `patternPart(c)`: the characters of the IBAN where the pattern holds
        `c`, or nothing when `c` is absent from the pattern. The resolver is
        compiled on first use and cached in the configuration. */
    method PatternPart(c: char) returns (r: Option<string>)
      requires config.Valid() && config.Coherent()
      requires Covers(iban, config.pattern, c)
      modifies config`cacheSize, config`cacheChars, config`cacheResolvers, config.cacheChars, config.cacheResolvers
      ensures config.Valid() && config.Coherent() && c in config.Keys()
      ensures r == if c in config.pattern then Some(Project(iban, config.pattern, c)) else Option.None
    {
      var resolver := config.Resolver(c);
      CompiledResolvesProjection(config.pattern, c, resolver, iban);
      r := Resolve(resolver, iban);
    }

    /** `accountNumber()`: the field `c`. */
    method AccountNumber() returns (r: Option<string>)
      requires config.Valid() && config.Coherent() && Covers(iban, config.pattern, 'c')
      modifies config`cacheSize, config`cacheChars, config`cacheResolvers, config.cacheChars, config.cacheResolvers
      ensures config.Valid() && config.Coherent()
      ensures 'c' in config.Keys()
      ensures r == if 'c' in config.pattern then Some(Project(iban, config.pattern, 'c')) else Option.None
    {
      r := PatternPart('c');
    }

    /** `accountNumberPrefix()`: the field `p`. */
    method AccountNumberPrefix() returns (r: Option<string>)
      requires config.Valid() && config.Coherent() && Covers(iban, config.pattern, 'p')
      modifies config`cacheSize, config`cacheChars, config`cacheResolvers, config.cacheChars, config.cacheResolvers
      ensures config.Valid() && config.Coherent()
      ensures 'p' in config.Keys()
      ensures r == if 'p' in config.pattern then Some(Project(iban, config.pattern, 'p')) else Option.None
    {
      r := PatternPart('p');
    }

    /** `nationalBankNumber()`: the field `b`. */
    method NationalBankNumber() returns (r: Option<string>)
      requires config.Valid() && config.Coherent() && Covers(iban, config.pattern, 'b')
      modifies config`cacheSize, config`cacheChars, config`cacheResolvers, config.cacheChars, config.cacheResolvers
      ensures config.Valid() && config.Coherent()
      ensures 'b' in config.Keys()
      ensures r == if 'b' in config.pattern then Some(Project(iban, config.pattern, 'b')) else Option.None
    {
      r := PatternPart('b');
    }

    /** `bic()`: the field `q`. */
    method Bic() returns (r: Option<string>)
      requires config.Valid() && config.Coherent() && Covers(iban, config.pattern, 'q')
      modifies config`cacheSize, config`cacheChars, config`cacheResolvers, config.cacheChars, config.cacheResolvers
      ensures config.Valid() && config.Coherent()
      ensures 'q' in config.Keys()
      ensures r == if 'q' in config.pattern then Some(Project(iban, config.pattern, 'q')) else Option.None
    {
      r := PatternPart('q');
    }

    /** `currency()`: the field `m`. */
    method Currency() returns (r: Option<string>)
      requires config.Valid() && config.Coherent() && Covers(iban, config.pattern, 'm')
      modifies config`cacheSize, config`cacheChars, config`cacheResolvers, config.cacheChars, config.cacheResolvers
      ensures config.Valid() && config.Coherent()
      ensures 'm' in config.Keys()
      ensures r == if 'm' in config.pattern then Some(Project(iban, config.pattern, 'm')) else Option.None
    {
      r := PatternPart('m');
    }

    /** `branch()`: the field `s`. */
    method Branch() returns (r: Option<string>)
      requires config.Valid() && config.Coherent() && Covers(iban, config.pattern, 's')
      modifies config`cacheSize, config`cacheChars, config`cacheResolvers, config.cacheChars, config.cacheResolvers
      ensures config.Valid() && config.Coherent()
      ensures 's' in config.Keys()
      ensures r == if 's' in config.pattern then Some(Project(iban, config.pattern, 's')) else Option.None
    {
      r := PatternPart('s');
    }

    /** `accountType()`: the field `t`. */
    method AccountType() returns (r: Option<string>)
      requires config.Valid() && config.Coherent() && Covers(iban, config.pattern, 't')
      modifies config`cacheSize, config`cacheChars, config`cacheResolvers, config.cacheChars, config.cacheResolvers
      ensures config.Valid() && config.Coherent()
      ensures 't' in config.Keys()
      ensures r == if 't' in config.pattern then Some(Project(iban, config.pattern, 't')) else Option.None
    {
      r := PatternPart('t');
    }

    /** `checkDigits()`: the field `x`. */
    method CheckDigitsPart() returns (r: Option<string>)
      requires config.Valid() && config.Coherent() && Covers(iban, config.pattern, 'x')
      modifies config`cacheSize, config`cacheChars, config`cacheResolvers, config.cacheChars, config.cacheResolvers
      ensures config.Valid() && config.Coherent()
      ensures 'x' in config.Keys()
      ensures r == if 'x' in config.pattern then Some(Project(iban, config.pattern, 'x')) else Option.None
    {
      r := PatternPart('x');
    }
  }

  /** An IBAN bound to a well-formed catalogue entry and passing `lengthCheck`
      can be checked against the entry's format, and every field of it
      resolved, without an exception. */
  lemma CatalogueIbanIsSafe(b: Iban)
    requires Catalogue.WellFormed(b.config.Data()) && b.LengthCheck()
    ensures FormatDefined(b.config.checks, b.iban)
    ensures forall c :: Covers(b.iban, b.config.pattern, c)
  {
    Catalogue.WellFormedIsSafe(b.config.Data(), b.iban);
  }
}
