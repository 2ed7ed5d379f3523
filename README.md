# iban-parser in Dafny

A verified model of the core of `sk.antons.iban`, a Java library that
validates and dissects International Bank Account Numbers (IBANs). Each
country has a configuration: a two-letter code, the IBAN length, a pattern
string that gives every position a field symbol (`k` check digits, `b` bank,
`c` account, `p` account prefix, `s` branch, `x` national check digit, `t`
account type, `m` currency, `q` BIC), and character-class clauses over
position ranges. The library recognises the country from the first two
characters, checks the length and the clauses, checks and repairs the
ISO 7064 MOD 97-10 check digits, and extracts fields by symbol.

Modules, one per source class, following the library's structure:

- `Checks` — `IbanSubstringCheck`: a clause is a character class (digits,
  capitals, alphanumerics) over `[start, end)`. `Validate` is the scanning
  loop, proved equal to the predicate `Holds`. Its precondition is exactly
  the condition under which the Java loop never indexes past the string.
  The text form of a clause is proved to read back to the clause.
- `Resolvers` — `IbanSubstringResolver`: three variants. `None` answers
  nothing, `Substring` answers a slice, and `Pattern` answers the characters
  wherever the pattern holds the symbol, or nothing. All three are specified
  by one projection function `Project` with its properties: the positions it
  picks, their order, completeness, the answer's length, and locality.
- `Configs` — `IbanConfig` as a class with its mutable fields: code, length,
  pattern, clause list, and the resolver cache (two parallel arrays of 30
  slots that grow by 30). This module also holds the resolver compiler
  `ResolveResolver`, specified by the predicate `Compiles`. `Resolver` is the
  cache lookup/insert. Methods also cover the format check and the format
  text, and the text is proved to split back into the clause texts.
- `Checksum` and `Decimal` — the numbers behind `ibanCheck`/`ibanFix`:
  - the character numerals;
  - the rotated number and its value;
  - the check digits `98 - N mod 97`;
  - `Fixed`, the answer of `ibanFix`.

  The main results are that a fixed IBAN always passes the check, that the
  fix is idempotent, and that an IBAN is its own fix exactly when it passes
  and has check digits in 2..98.
- `Ibans` — `Iban`: creation (which removes the spaces) and the pretty form,
  grouped by four, which is proved to invert back to the IBAN. It also has
  the static `ibanCheck`/`ibanFix` loops, proved against `Checksum`, and the
  field getters through the cached resolvers.
- `Catalogue` and `Repository` — `IbanConfigRepository`: the 111 country
  entries as `ConfigData` values, and `parse`, the two-level switch on the
  first two characters. The model proves:
  - per entry, that the catalogue is well formed;
  - per first letter, that the switch is sound and complete;
  - that the answer depends on two characters only, with the refusal
    messages;
  - how the Slovak and Hungarian patterns compile.
- `Samples` — the Slovak sample IBAN `SK1709000000000024041632` and its
  variants with check digits 15 and 75, worked through the check and the
  fix.
- `Wrappers`, `Exceptions`, `Seqs` — `Option`/`Result`, the
  `IllegalArgumentException` payload, and small sequence lemmas.

Java `null` is `Option.None`. A thrown `IllegalArgumentException` is
`Result.Failure(IllegalArgument(message))`, with the source's message text.
Reads that would throw `IndexOutOfBounds` or `NullPointerException` are
excluded by preconditions that state exactly when the Java code is safe
(`Checks.Defined`, `Configs.FormatDefined`, `Resolvers.CanResolve`,
`Checksum.NumeralSafe`, `Checksum.FixSafe`). A `BigInteger` is an unbounded
`nat`.

Three details of the code worth noting:

- `Iban.instance(iban)` looks up the country from the raw string, before
  removing spaces, so `" SK…"` is refused.
- `parse` maps `CJ` to the `BJ` entry and `NZ` to the `MZ` entry.
- The length test in `instance(iban, config)` is on the raw string,
  before spaces are removed.

## Model

| member | source | states |
|---|---|---|
| Checks.Numeric | src/main/java/sk/antons/iban/IbanSubstringCheck.java:44-46 | the digit clause over `[start, end)`: tag `0`, accepts exactly `0`..`9` |
| Checks.Capitals | src/main/java/sk/antons/iban/IbanSubstringCheck.java:48-50 | the capitals clause: tag `A`, accepts exactly `A`..`Z` |
| Checks.Letters | src/main/java/sk/antons/iban/IbanSubstringCheck.java:52-54 | the alphanumeric clause: tag `Aa0`, accepts exactly capitals, small letters and digits |
| Checks.Validate | src/main/java/sk/antons/iban/IbanSubstringCheck.java:36-42 | the scan returns true iff every position of the range exists and holds an accepted character; callable exactly when it cannot run off the string before a rejected character |
| Checks.EmptyRangeHolds | src/main/java/sk/antons/iban/IbanSubstringCheck.java:36-42 | an empty or inverted range is satisfied by every string and reads nothing |
| Checks.HoldsOnSubrange | src/main/java/sk/antons/iban/IbanSubstringCheck.java:36-42 | a clause that holds on a range holds on each of its sub-ranges |
| Checks.NarrowerClassesImplyLetters | src/main/java/sk/antons/iban/IbanSubstringCheck.java:44-54 | a digit or capital clause that holds implies the alphanumeric clause on the same range |
| Checks.IndexFrom | src/main/java/sk/antons/iban/IbanSubstringCheck.java:57-59 | inverse parser, a partner for `toString` that the library itself does not have: the first index at or after `from` holding `c`, or the length; no earlier index holds it |
| Checks.ParseTagString | src/main/java/sk/antons/iban/IbanSubstringCheck.java:57-59 | inverse parser, a partner for `toString` that the library itself does not have: the type tag and `[` of a clause text read back as its class |
| Checks.DigitsAfterSign | src/main/java/sk/antons/iban/IbanSubstringCheck.java:57-59 | inverse parser, a partner for `toString` that the library itself does not have: after an optional sign, the text of a bound is all digits |
| Checks.ParseRangeString | src/main/java/sk/antons/iban/IbanSubstringCheck.java:57-59 | inverse parser, a partner for `toString` that the library itself does not have: `start-end` text reads back as the two bounds, negative ones included |
| Checks.ParseClauseString | src/main/java/sk/antons/iban/IbanSubstringCheck.java:57-59 | inverse parser, a partner for `toString` that the library itself does not have: round trip: the text of `toString` determines the clause |
| Checks.ClauseStringSplit | src/main/java/sk/antons/iban/IbanSubstringCheck.java:57-59 | the text of `toString` is the tag, `[`, and the bracketed range |
| Checks.IntTextHasNoComma | src/main/java/sk/antons/iban/IbanSubstringCheck.java:57-59 | the text of an integer contains no comma |
| Checks.ClauseStringHasNoComma | src/main/java/sk/antons/iban/IbanSubstringCheck.java:57-59 | a clause text contains no comma |
| Resolvers.Resolve | src/main/java/sk/antons/iban/IbanSubstringResolver.java:28-82 | `None` gives nothing; `Substring` gives the slice; `Pattern` gives the characters of the IBAN where the pattern holds the symbol, or nothing when there are none |
| Resolvers.PositionsHoldSymbol | src/main/java/sk/antons/iban/IbanSubstringResolver.java:72-79 | every position the `Pattern` scan picks lies inside the pattern and holds the symbol |
| Resolvers.PositionsIncrease | src/main/java/sk/antons/iban/IbanSubstringResolver.java:72-79 | the scan picks positions in strictly increasing order |
| Resolvers.PositionsComplete | src/main/java/sk/antons/iban/IbanSubstringResolver.java:72-79 | every pattern position holding the symbol is picked |
| Resolvers.PositionsCount | src/main/java/sk/antons/iban/IbanSubstringResolver.java:72-79 | one position per occurrence of the symbol |
| Resolvers.ProjectAtPositions | src/main/java/sk/antons/iban/IbanSubstringResolver.java:72-80 | the answer has one character per position, the IBAN character at that position |
| Resolvers.ProjectLength | src/main/java/sk/antons/iban/IbanSubstringResolver.java:72-81 | the answer is empty exactly when the symbol is absent; its length is the number of occurrences |
| Resolvers.ProjectLocal | src/main/java/sk/antons/iban/IbanSubstringResolver.java:72-79 | IBAN characters at positions not holding the symbol do not affect the answer |
| Resolvers.NoneResolvesNothing | src/main/java/sk/antons/iban/IbanSubstringResolver.java:29-31 | a `None` resolver answers nothing for every IBAN |
| Resolvers.SubstringLength | src/main/java/sk/antons/iban/IbanSubstringResolver.java:48-50 | a `Substring` answer has `end - start` characters |
| Resolvers.PatternResolves | src/main/java/sk/antons/iban/IbanSubstringResolver.java:72-81 | a `Pattern` answer is nothing iff the symbol is absent, else the projection with one character per occurrence |
| Resolvers.PatternIgnoresTail | src/main/java/sk/antons/iban/IbanSubstringResolver.java:74-79 | IBAN characters at positions at or past the pattern length never reach a `Pattern` answer |
| Configs.CompilesUnique | src/main/java/sk/antons/iban/IbanConfig.java:131-165 | at most one resolver meets the specification of the compiler for a pattern and symbol |
| Configs.ProjectRun | src/main/java/sk/antons/iban/IbanConfig.java:147-162 | projecting onto a single run `[a, b)` is slicing, prefix by prefix |
| Configs.CompiledResolvesProjection | src/main/java/sk/antons/iban/IbanConfig.java:131-165 | whichever variant the compiler picks, resolving an IBAN that covers the pattern gives the projection onto the symbol's positions, or nothing when the symbol is absent |
| Configs.IbanConfig.constructor | src/main/java/sk/antons/iban/IbanConfig.java:31-41 | a new configuration has the code, no length, an empty pattern, no clauses and an empty cache |
| Configs.IbanConfig.Of | src/main/java/sk/antons/iban/IbanConfigRepository.java:25-136 | a configuration built by a catalogue builder chain holds that entry's data and an empty, coherent cache |
| Configs.IbanConfig.Data | src/main/java/sk/antons/iban/IbanConfig.java:25-59 | the code, length, pattern and clauses of the configuration |
| Configs.IbanConfig.SetLength | src/main/java/sk/antons/iban/IbanConfig.java:52 | the length becomes the value; nothing else changes |
| Configs.IbanConfig.SetPattern | src/main/java/sk/antons/iban/IbanConfig.java:58 | the pattern becomes the value; the cache stays well formed, and coherent when it was empty |
| Configs.IbanConfig.SubstringCheck | src/main/java/sk/antons/iban/IbanConfig.java:65-70 | a present clause is appended at the end; a `null` one changes nothing |
| Configs.IbanConfig.Numeric | src/main/java/sk/antons/iban/IbanConfig.java:77-79 | exactly one digit clause is appended |
| Configs.IbanConfig.Capitals | src/main/java/sk/antons/iban/IbanConfig.java:86-88 | exactly one capitals clause is appended |
| Configs.IbanConfig.Letters | src/main/java/sk/antons/iban/IbanConfig.java:95-97 | exactly one alphanumeric clause is appended |
| Configs.IbanConfig.ResolveResolver | src/main/java/sk/antons/iban/IbanConfig.java:131-165 | `None` iff the symbol is absent, `Substring(a, b)` iff its occurrences are exactly one run `[a, b)` (with `b` the pattern length when the run reaches the end), `Pattern` iff it occurs in several runs |
| Configs.IbanConfig.CopyPrefix | src/main/java/sk/antons/iban/IbanConfig.java:112-113 | the first `n` slots of the destination equal those of the source |
| Configs.IbanConfig.Grow | src/main/java/sk/antons/iban/IbanConfig.java:109-116 | both arrays grow by 30 and keep every cached entry in order |
| Configs.IbanConfig.FindKey | src/main/java/sk/antons/iban/IbanConfig.java:118-122 | the slot caching the symbol, or the cache size exactly when the symbol is not cached |
| Configs.IbanConfig.Reserve | src/main/java/sk/antons/iban/IbanConfig.java:105-116 | 30 slots on first use, 30 more when full; the cached entries are unchanged and a free slot remains |
| Configs.IbanConfig.Append | src/main/java/sk/antons/iban/IbanConfig.java:124-127 | the new entry goes in the next free slot; earlier entries are kept |
| Configs.IbanConfig.Resolver | src/main/java/sk/antons/iban/IbanConfig.java:104-128 | a hit returns the stored resolver and keeps the entries; a miss appends exactly one entry, the symbol with its resolver compiled against the current pattern; afterwards the symbol is cached; keys stay distinct and the size stays within the capacity; with a coherent cache every answer, hit or miss, compiles against the pattern |
| Configs.IbanConfig.FormatCheck | src/main/java/sk/antons/iban/IbanConfig.java:168-174 | true iff every clause holds, clauses taken in list order; true with no clauses |
| Configs.IbanConfig.Format | src/main/java/sk/antons/iban/IbanConfig.java:176-184 | nothing with no clauses, else the clause texts joined by `,` |
| Configs.JoinClausesSnoc | src/main/java/sk/antons/iban/IbanConfig.java:179-182 | one more clause adds one `,` and its text |
| Configs.SplitNoComma | src/main/java/sk/antons/iban/IbanConfig.java:179-182 | a text with no comma splits into itself |
| Configs.SplitSnoc | src/main/java/sk/antons/iban/IbanConfig.java:179-182 | splitting after one more `,`-joined text adds that text |
| Configs.SplitJoin | src/main/java/sk/antons/iban/IbanConfig.java:176-184 | cutting a `,`-joined list of comma-free texts at its commas gives the list back |
| Configs.SplitJoinClauses | src/main/java/sk/antons/iban/IbanConfig.java:176-184 | round trip: the format text gives back each clause text, in order |
| Configs.NoClausesHold | src/main/java/sk/antons/iban/IbanConfig.java:168-169 | with no clauses the format check is defined and true |
| Decimal.DigitChar | src/main/java/sk/antons/iban/Iban.java:174-180 | the character of a digit value, and back |
| Decimal.ValueAppend | src/main/java/sk/antons/iban/Iban.java:142 | the value of concatenated numerals shifts the left one |
| Decimal.NatToString | src/main/java/sk/antons/iban/Iban.java:170-171 | the decimal text of a number: digits only, value the number, no leading zero, one or two characters below 10 or 100 |
| Decimal.IntToString | src/main/java/sk/antons/iban/IbanSubstringCheck.java:59 | the decimal text of an integer, with `-` for negative ones |
| Decimal.ParseIntToString | src/main/java/sk/antons/iban/IbanSubstringCheck.java:59 | round trip: the text of an integer reads back as it |
| Checksum.CharNumeral | src/main/java/sk/antons/iban/Iban.java:174-180 | a digit stands for itself; `A`..`Z` become the two-digit numbers 10..35 |
| Checksum.Numeral | src/main/java/sk/antons/iban/Iban.java:134-141 | the numeral of a string consists of digits only |
| Checksum.NumeralAppend | src/main/java/sk/antons/iban/Iban.java:134-141 | the numeral of a concatenation is the concatenation of numerals |
| Checksum.NumeralOfDigits | src/main/java/sk/antons/iban/Iban.java:175-176 | a digit string is its own numeral |
| Checksum.BodyNumeralIsNumeral | src/main/java/sk/antons/iban/Iban.java:134-137 | the first loop builds the numeral of the characters from position 4 on |
| Checksum.HeadNumeralIsNumeral | src/main/java/sk/antons/iban/Iban.java:138-141 | the second loop builds the numeral of the first characters |
| Checksum.RotationNumeral | src/main/java/sk/antons/iban/Iban.java:134-142 | the numeral the loops of `ibanCheck` build denotes the check value |
| Checksum.FixNumeral | src/main/java/sk/antons/iban/Iban.java:157-168 | the numeral the loops of `ibanFix` build, with `00`, gives the check digits |
| Checksum.CheckDigits | src/main/java/sk/antons/iban/Iban.java:166-169 | the check digits `98 - N mod 97` lie in 2..98 |
| Checksum.TwoDigits | src/main/java/sk/antons/iban/Iban.java:170-171 | a number below 100 as two digits with the given value |
| Checksum.Mod97Steps | src/main/java/sk/antons/iban/Iban.java:143 | reducing modulo 97 before each new digit gives the same remainder |
| Checksum.FixedShape | src/main/java/sk/antons/iban/Iban.java:152-171 | the fix keeps the length, positions 0-1 and 4 on, and puts two digits of value `98 - N mod 97` at 2-3 |
| Checksum.CheckValueSplit | src/main/java/sk/antons/iban/Iban.java:129-169 | with digits at 2-3, the checked number is the fix number plus those two digits |
| Checksum.BodyValueShift | src/main/java/sk/antons/iban/Iban.java:165 | the `00` the fix appends multiplies by 100 |
| Checksum.FixedPassesCheck | src/main/java/sk/antons/iban/Iban.java:129-172 | round trip: the output of `ibanFix` always passes `ibanCheck` |
| Checksum.CheckDigitsComplete | src/main/java/sk/antons/iban/Iban.java:166-169 | adding `98 - n mod 97` leaves 1 modulo 97 |
| Checksum.FixedDependsOnBody | src/main/java/sk/antons/iban/Iban.java:157-171 | the fix reads only positions 0-1 and 4 on |
| Checksum.FixedIdempotent | src/main/java/sk/antons/iban/Iban.java:152-171 | fixing twice is fixing once |
| Checksum.TwoDigitsOfValue | src/main/java/sk/antons/iban/Iban.java:170-171 | a two-digit string is the zero-padded text of its value |
| Checksum.FixedIffValid | src/main/java/sk/antons/iban/Iban.java:129-171 | with digits at 2-3: the fix leaves an IBAN unchanged iff it passes the check and its check digits lie in 2..98 |
| Checksum.CheckDigitsUnique | src/main/java/sk/antons/iban/Iban.java:166-169 | only one pair of check digits in 2..98 makes the sum 1 modulo 97 |
| Checksum.Mod97IsValueMod | src/main/java/sk/antons/iban/Iban.java:142-144 | the digit-by-digit reduction is the remainder of the whole number |
| Ibans.RemoveSpacesNoSpace | src/main/java/sk/antons/iban/Iban.java:54 | a string without spaces is left as it is |
| Ibans.RemoveSpacesSpec | src/main/java/sk/antons/iban/Iban.java:56-64 | no space is left; exactly the spaces are dropped |
| Ibans.RemoveSpacesAppend | src/main/java/sk/antons/iban/Iban.java:59-63 | stripping distributes over concatenation |
| Ibans.RemoveSpacesIdempotent | src/main/java/sk/antons/iban/Iban.java:54-65 | stripping twice is stripping once |
| Ibans.GroupedSnoc | src/main/java/sk/antons/iban/Iban.java:88-95 | one more character adds a space first when a group of four is complete |
| Ibans.GroupedLength | src/main/java/sk/antons/iban/Iban.java:84-98 | the pretty form has `n + (n - 1) / 4` characters for `n > 0` |
| Ibans.GroupedChar | src/main/java/sk/antons/iban/Iban.java:84-98 | output position `j` is a space iff `j % 5 == 4`, else input character `j - j / 5` |
| Ibans.GroupedPlaces | src/main/java/sk/antons/iban/Iban.java:84-98 | input character `i` sits at output position `i + i / 4` |
| Ibans.GroupedSpaces | src/main/java/sk/antons/iban/Iban.java:89-92 | a space precedes input character `i` iff `i > 0` and `i % 4 == 0` |
| Ibans.SpaceBefore | src/main/java/sk/antons/iban/Iban.java:89-92 | the same for one input position |
| Ibans.GroupedEnds | src/main/java/sk/antons/iban/Iban.java:84-98 | the pretty form neither starts nor ends with a space |
| Ibans.PlaceOf | src/main/java/sk/antons/iban/Iban.java:84-98 | the output position of one input character |
| Ibans.RemoveSpacesGrouped | src/main/java/sk/antons/iban/Iban.java:84-98 | round trip: deleting the spaces of the pretty form gives the IBAN back |
| Ibans.FixedText | src/main/java/sk/antons/iban/Iban.java:169-170 | the two branches that write the check digits both spell the fixed IBAN |
| Ibans.StripSpaces | src/main/java/sk/antons/iban/Iban.java:54-65 | the loop keeps every character except spaces, in order |
| Ibans.AddIbanCharAsNumber | src/main/java/sk/antons/iban/Iban.java:174-180 | appends the numeral of the character |
| Ibans.IbanCheck | src/main/java/sk/antons/iban/Iban.java:129-145 | false for `null` or fewer than four characters; otherwise true iff the numeral of the rotated string is 1 modulo 97 |
| Ibans.IbanFix | src/main/java/sk/antons/iban/Iban.java:152-172 | `null` for `null` or short input; otherwise the fixed IBAN |
| Ibans.Iban.constructor | src/main/java/sk/antons/iban/Iban.java:29-31 | binds the string and the configuration |
| Ibans.Iban.Instance | src/main/java/sk/antons/iban/Iban.java:51-67 | refuses `null`, a raw length below 4 (before stripping) and a `null` configuration, with their messages; otherwise binds the string without its spaces |
| Ibans.Iban.InstanceOf | src/main/java/sk/antons/iban/Iban.java:41-43 | lookup refusals come first; otherwise as `Instance` with a fresh configuration holding the entry the first two raw characters select |
| Ibans.Iban.IbanPretty | src/main/java/sk/antons/iban/Iban.java:84-98 | the grouped form of the IBAN |
| Ibans.Iban.LengthCheck | src/main/java/sk/antons/iban/Iban.java:104-106 | true iff the IBAN has the configured length |
| Ibans.Iban.FormatCheck | src/main/java/sk/antons/iban/Iban.java:112-114 | true iff every clause of the configuration holds |
| Ibans.Iban.IbanCheckDigits | src/main/java/sk/antons/iban/Iban.java:120-122 | the checksum test of the stored string |
| Ibans.Iban.Pattern | src/main/java/sk/antons/iban/Iban.java:186 | the configuration's pattern |
| Ibans.Iban.Format | src/main/java/sk/antons/iban/Iban.java:192 | the configuration's format text |
| Ibans.Iban.PatternPart | src/main/java/sk/antons/iban/Iban.java:239 | the IBAN characters where the pattern holds the symbol, or nothing when it is absent; the symbol is cached afterwards and the cache stays coherent |
| Ibans.Iban.AccountNumber | src/main/java/sk/antons/iban/Iban.java:198 | the IBAN characters of field `c`, or nothing when the pattern lacks it; `c` is cached afterwards |
| Ibans.Iban.AccountNumberPrefix | src/main/java/sk/antons/iban/Iban.java:203 | the IBAN characters of field `p`, or nothing when the pattern lacks it; `p` is cached afterwards |
| Ibans.Iban.NationalBankNumber | src/main/java/sk/antons/iban/Iban.java:208 | the IBAN characters of field `b`, or nothing when the pattern lacks it; `b` is cached afterwards |
| Ibans.Iban.Bic | src/main/java/sk/antons/iban/Iban.java:213 | the IBAN characters of field `q`, or nothing when the pattern lacks it; `q` is cached afterwards |
| Ibans.Iban.Currency | src/main/java/sk/antons/iban/Iban.java:218 | the IBAN characters of field `m`, or nothing when the pattern lacks it; `m` is cached afterwards |
| Ibans.Iban.Branch | src/main/java/sk/antons/iban/Iban.java:223 | the IBAN characters of field `s`, or nothing when the pattern lacks it; `s` is cached afterwards |
| Ibans.Iban.AccountType | src/main/java/sk/antons/iban/Iban.java:228 | the IBAN characters of field `t`, or nothing when the pattern lacks it; `t` is cached afterwards |
| Ibans.Iban.CheckDigitsPart | src/main/java/sk/antons/iban/Iban.java:233 | the IBAN characters of field `x`, or nothing when the pattern lacks it; `x` is cached afterwards |
| Ibans.CatalogueIbanIsSafe | src/main/java/sk/antons/iban/Iban.java:104-114 | an IBAN bound to a well-formed entry that passes `lengthCheck` can run `formatCheck` and resolve every field without an exception |
| Catalogue.TilesDefined | src/main/java/sk/antons/iban/IbanConfig.java:168-174 | clauses that tile a range inside the IBAN can all run |
| Catalogue.TilesBounded | src/main/java/sk/antons/iban/IbanConfig.java:168-174 | tiling clauses stay inside their range |
| Catalogue.WellFormedIsSafe | src/main/java/sk/antons/iban/IbanConfig.java:168-174 | for a well-formed entry and an IBAN of its length, the format check cannot fail with an exception and every field can be resolved |
| Catalogue.WellFormedPart1 | src/main/java/sk/antons/iban/IbanConfigRepository.java:25-38 | entries AL to CY have a two-character code, a pattern as long as the IBAN, and clauses tiling positions 4 to the end |
| Catalogue.WellFormedPart2 | src/main/java/sk/antons/iban/IbanConfigRepository.java:39-52 | entries CZ to DE have a two-character code, a pattern as long as the IBAN, and clauses tiling positions 4 to the end |
| Catalogue.WellFormedPart3 | src/main/java/sk/antons/iban/IbanConfigRepository.java:53-66 | entries GI to KW have a two-character code, a pattern as long as the IBAN, and clauses tiling positions 4 to the end |
| Catalogue.WellFormedPart4 | src/main/java/sk/antons/iban/IbanConfigRepository.java:67-80 | entries LV to NL have a two-character code, a pattern as long as the IBAN, and clauses tiling positions 4 to the end |
| Catalogue.WellFormedPart5 | src/main/java/sk/antons/iban/IbanConfigRepository.java:81-94 | entries NI to ST have a two-character code, a pattern as long as the IBAN, and clauses tiling positions 4 to the end |
| Catalogue.WellFormedPart6 | src/main/java/sk/antons/iban/IbanConfigRepository.java:95-108 | entries SA to AE have a two-character code, a pattern as long as the IBAN, and clauses tiling positions 4 to the end |
| Catalogue.WellFormedPart7 | src/main/java/sk/antons/iban/IbanConfigRepository.java:109-123 | entries GB to CG have a two-character code, a pattern as long as the IBAN, and clauses tiling positions 4 to the end |
| Catalogue.WellFormedPart8 | src/main/java/sk/antons/iban/IbanConfigRepository.java:124-136 | entries CI to TG have a two-character code, a pattern as long as the IBAN, and clauses tiling positions 4 to the end |
| Catalogue.RunBetween | src/main/java/sk/antons/iban/IbanConfig.java:147-162 | a symbol filling the middle part of a pattern, absent elsewhere, compiles to that substring |
| Catalogue.SlovakBankResolver | src/main/java/sk/antons/iban/IbanConfigRepository.java:98 | in the Slovak pattern `b` compiles to `Substring(4, 8)` |
| Catalogue.SlovakAbsentResolver | src/main/java/sk/antons/iban/IbanConfigRepository.java:98 | in the Slovak pattern `q` compiles to `None` |
| Catalogue.HungarianResolver | src/main/java/sk/antons/iban/IbanConfigRepository.java:57 | in the Hungarian pattern `x` (positions 11 and 27) compiles to `Pattern` |
| Repository.LookupASound | src/main/java/sk/antons/iban/IbanConfigRepository.java:149-158 | the switch for `A` selects only for a capital second character, the entry of that code (or the alias target), and selects each `A` entry by its own code |
| Repository.LookupBSound | src/main/java/sk/antons/iban/IbanConfigRepository.java:159-171 | the switch for `B` selects only for a capital second character, the entry of that code (or the alias target), and selects each `B` entry by its own code |
| Repository.LookupCSound | src/main/java/sk/antons/iban/IbanConfigRepository.java:172-185 | the switch for `C` selects only for a capital second character, the entry of that code (or the alias target), and selects each `C` entry by its own code |
| Repository.LookupDSound | src/main/java/sk/antons/iban/IbanConfigRepository.java:186-194 | the switch for `D` selects only for a capital second character, the entry of that code (or the alias target), and selects each `D` entry by its own code |
| Repository.LookupESound | src/main/java/sk/antons/iban/IbanConfigRepository.java:195-201 | the switch for `E` selects only for a capital second character, the entry of that code (or the alias target), and selects each `E` entry by its own code |
| Repository.LookupFSound | src/main/java/sk/antons/iban/IbanConfigRepository.java:202-209 | the switch for `F` selects only for a capital second character, the entry of that code (or the alias target), and selects each `F` entry by its own code |
| Repository.LookupGSound | src/main/java/sk/antons/iban/IbanConfigRepository.java:210-222 | the switch for `G` selects only for a capital second character, the entry of that code (or the alias target), and selects each `G` entry by its own code |
| Repository.LookupHSound | src/main/java/sk/antons/iban/IbanConfigRepository.java:223-229 | the switch for `H` selects only for a capital second character, the entry of that code (or the alias target), and selects each `H` entry by its own code |
| Repository.LookupISound | src/main/java/sk/antons/iban/IbanConfigRepository.java:230-239 | the switch for `I` selects only for a capital second character, the entry of that code (or the alias target), and selects each `I` entry by its own code |
| Repository.LookupJSound | src/main/java/sk/antons/iban/IbanConfigRepository.java:240-244 | the switch for `J` selects only for a capital second character, the entry of that code (or the alias target), and selects each `J` entry by its own code |
| Repository.LookupKSound | src/main/java/sk/antons/iban/IbanConfigRepository.java:245-251 | the switch for `K` selects only for a capital second character, the entry of that code (or the alias target), and selects each `K` entry by its own code |
| Repository.LookupLSound | src/main/java/sk/antons/iban/IbanConfigRepository.java:252-262 | the switch for `L` selects only for a capital second character, the entry of that code (or the alias target), and selects each `L` entry by its own code |
| Repository.LookupMSound | src/main/java/sk/antons/iban/IbanConfigRepository.java:263-278 | the switch for `M` selects only for a capital second character, the entry of that code (or the alias target), and selects each `M` entry by its own code |
| Repository.LookupNSound | src/main/java/sk/antons/iban/IbanConfigRepository.java:279-287 | the switch for `N` selects only for a capital second character, the entry of that code (or the alias target), and selects each `N` entry by its own code |
| Repository.LookupOSound | src/main/java/sk/antons/iban/IbanConfigRepository.java:288-292 | the switch for `O` selects only for a capital second character, the entry of that code (or the alias target), and selects each `O` entry by its own code |
| Repository.LookupPSound | src/main/java/sk/antons/iban/IbanConfigRepository.java:293-300 | the switch for `P` selects only for a capital second character, the entry of that code (or the alias target), and selects each `P` entry by its own code |
| Repository.LookupQSound | src/main/java/sk/antons/iban/IbanConfigRepository.java:301-305 | the switch for `Q` selects only for a capital second character, the entry of that code (or the alias target), and selects each `Q` entry by its own code |
| Repository.LookupRSound | src/main/java/sk/antons/iban/IbanConfigRepository.java:306-312 | the switch for `R` selects only for a capital second character, the entry of that code (or the alias target), and selects each `R` entry by its own code |
| Repository.LookupSSound | src/main/java/sk/antons/iban/IbanConfigRepository.java:313-327 | the switch for `S` selects only for a capital second character, the entry of that code (or the alias target), and selects each `S` entry by its own code |
| Repository.LookupTSound | src/main/java/sk/antons/iban/IbanConfigRepository.java:328-336 | the switch for `T` selects only for a capital second character, the entry of that code (or the alias target), and selects each `T` entry by its own code |
| Repository.LookupUSound | src/main/java/sk/antons/iban/IbanConfigRepository.java:337-341 | the switch for `U` selects only for a capital second character, the entry of that code (or the alias target), and selects each `U` entry by its own code |
| Repository.LookupVSound | src/main/java/sk/antons/iban/IbanConfigRepository.java:342-347 | the switch for `V` selects only for a capital second character, the entry of that code (or the alias target), and selects each `V` entry by its own code |
| Repository.LookupXSound | src/main/java/sk/antons/iban/IbanConfigRepository.java:348-352 | the switch for `X` selects only for a capital second character, the entry of that code (or the alias target), and selects each `X` entry by its own code |
| Repository.LookupYSound | src/main/java/sk/antons/iban/IbanConfigRepository.java:353-357 | the switch for `Y` selects only for a capital second character, the entry of that code (or the alias target), and selects each `Y` entry by its own code |
| Repository.LookupSound | src/main/java/sk/antons/iban/IbanConfigRepository.java:148-359 | only pairs of capitals select anything, and what they select is the entry of that code or the alias target |
| Repository.Parse | src/main/java/sk/antons/iban/IbanConfigRepository.java:143-360 | `null`, and only `null`, gives no configuration; fewer than two characters are refused with the input in the message; a returned configuration comes from a string of two or more characters |
| Repository.ParsePrefix | src/main/java/sk/antons/iban/IbanConfigRepository.java:146-147 | the answer depends on the first two characters only |
| Repository.ParseRefuses | src/main/java/sk/antons/iban/IbanConfigRepository.java:148-359 | an unknown pair is refused with a message naming the pair |
| Repository.ParseNeedsCapitals | src/main/java/sk/antons/iban/IbanConfigRepository.java:148-359 | a string not starting with two capitals, a lowercase code among them, is refused |
| Repository.ParseSelects | src/main/java/sk/antons/iban/IbanConfigRepository.java:148-359 | a returned configuration is the one the first two characters select |
| Repository.ParseSlovak | src/main/java/sk/antons/iban/IbanConfigRepository.java:98 | `SK` selects length 24, pattern `SKkkbbbbppppppcccccccccc` and the one clause `numeric(4, 24)` |
| Samples.ValueOfFour | src/main/java/sk/antons/iban/Iban.java:142 | the value of a four-digit numeral |
| Samples.FrontValue | src/main/java/sk/antons/iban/Iban.java:142 | the value of the first twelve account digits of the Slovak sample |
| Samples.BackValue | src/main/java/sk/antons/iban/Iban.java:142 | the value of its last eight account digits |
| Samples.BodyValue | src/main/java/sk/antons/iban/Iban.java:142 | the value of its twenty account digits |
| Samples.CodeNumeral | src/main/java/sk/antons/iban/Iban.java:138-141 | the numeral of a code and two check digits is the numerals of the four characters |
| Samples.ValueOfSix | src/main/java/sk/antons/iban/Iban.java:142 | the value of two two-digit numerals and two digits |
| Samples.SlovakHeadValue | src/main/java/sk/antons/iban/Iban.java:138-141 | the numeral of `SK17` is six digits of value 282017 |
| Samples.CheckValueOfParts | src/main/java/sk/antons/iban/Iban.java:134-142 | the check value of a four-character head before an all-digit body |
| Samples.SlovakCheckValue | src/main/java/sk/antons/iban/Iban.java:134-142 | the Slovak sample reduces to `9000000000024041632282017` |
| Samples.SlovakSamplePasses | src/main/java/sk/antons/iban/Iban.java:129-145 | `ibanCheck` accepts `SK1709000000000024041632` |
| Samples.SlovakSampleFixed | src/main/java/sk/antons/iban/Iban.java:152-171 | the Slovak sample is its own fix |
| Samples.SameBodyFixesAlike | src/main/java/sk/antons/iban/Iban.java:157-171 | IBANs differing only in their check digits fix alike |
| Samples.SlovakVariant15Fixes | src/main/java/sk/antons/iban/Iban.java:263-270 | the sample with check digits 15 fixes to the sample |
| Samples.SlovakVariant75Fixes | src/main/java/sk/antons/iban/Iban.java:263-270 | the sample with check digits 75 fixes to the sample |
| Samples.ChangedByFixFails | src/main/java/sk/antons/iban/Iban.java:129-171 | an IBAN with check digits in 2..98 that the fix changes does not pass the check |
| Samples.SlovakVariant15Digits | src/main/java/sk/antons/iban/Iban.java:134-141 | the variant with check digits 15 is checkable and its digits read 15 |
| Samples.SlovakVariant15Fails | src/main/java/sk/antons/iban/Iban.java:263-266 | `ibanCheck` refuses `SK1509000000000024041632` |
| Samples.SlovakVariant75Digits | src/main/java/sk/antons/iban/Iban.java:134-141 | the variant with check digits 75 is checkable and its digits read 75 |
| Samples.SlovakVariant75Fails | src/main/java/sk/antons/iban/Iban.java:267-270 | `ibanCheck` refuses `SK7509000000000024041632` |


## Left out

- `Ibans.Iban.PatternPart` and the getters `AccountNumber`, `AccountNumberPrefix`, `NationalBankNumber`, `Bic`, `Currency`, `Branch`, `AccountType`, `CheckDigitsPart` require a coherent cache. If `pattern(v)` is called on a configuration after some symbol was cached, Java keeps answering with the stale resolver compiled against the old pattern; that behaviour is not modelled. Every configuration created through `Iban.InstanceOf` is coherent.
- `synchronized` on `IbanConfig.resolver`: concurrency is not modelled; the cache is a single-threaded class.
- Sharing of the static catalogue `IbanConfig` objects (and so of their caches) between IBANs: `Iban.InstanceOf` builds a fresh configuration object from the entry's data, so cross-IBAN cache reuse is not captured.
- The catalogue's builder chains (`instance(..).length(..).pattern(..).numeric(..)`) are entered as `ConfigData` values; the builder methods themselves are modelled on `IbanConfig`, and their `return this` chaining is dropped.
- A pattern that was never set is `null` in Java (and `resolveResolver` would throw); the model starts it as the empty string.
- The clause list is `null` until the first clause is added; the model uses the empty sequence, since both give the same answers.
- `Checksum.Numeral`, `Ibans.IbanCheck`, `Ibans.IbanFix`: characters below `'0'` (which give a `-` inside the Java numeral, so `BigInteger` would throw or read a negative number) are excluded by precondition rather than modelled.
- Java `char` is a UTF-16 code unit; Dafny `char` is a Unicode scalar value. Only the arithmetic `c - 55` on characters at or above `'0'` is modelled.
- `toString` of the resolvers, the getters `id()`, `length()`, `pattern()`, `substringChecks()`, `Iban.iban()` and `Iban.toString` are plain field reads or text; `Configs.IbanConfig.Data`, `Ibans.Iban.Pattern` and the `iban` field stand for them.
- `Iban.main`, the demo printing to standard output, is I/O. Its three IBAN samples (check digits 17, 15 and 75) are covered by the `Samples` lemmas: the check's answer and the fix of each.
- `Catalogue.WellFormedPart1` … `WellFormedPart8`: the entry shape is proved entry by entry, not as one quantified fact over everything `parse` can return. The shape also does not state that each pattern starts with its country code and `kk`.
- The tools outside the library's core (the registry scraper and the checker utilities) are not part of this model.
