/** Character-class clauses of an IBAN format: a clause `(class, start, end)`
    says that every character in the half-open range `[start, end)` belongs to
    the class. */
module Checks {
  import opened Wrappers
  import opened Decimal
  import opened Seqs

  /** The three predicates a clause can test; `Alphanumeric` is the one the
      factory `letters` builds. */
  datatype CharClass = Digit | Capital | Alphanumeric

  datatype Check = Check(kind: CharClass, start: int, end: int)

  predicate Accepts(kind: CharClass, c: char) {
    match kind
    case Digit => '0' <= c <= '9'
    case Capital => 'A' <= c <= 'Z'
    case Alphanumeric => ('A' <= c <= 'Z') || ('a' <= c <= 'z') || ('0' <= c <= '9')
  }

  /** The type tag a clause prints. */
  function TypeName(kind: CharClass): string {
    match kind
    case Digit => "0"
    case Capital => "A"
    case Alphanumeric => "Aa0"
  }

  /** Clause over digits. */
  function Numeric(start: int, end: int): (chk: Check)
    ensures chk.start == start && chk.end == end && TypeName(chk.kind) == "0"
    ensures forall c :: Accepts(chk.kind, c) <==> '0' <= c <= '9'
  {
    Check(Digit, start, end)
  }

  /** Clause over capital letters. */
  function Capitals(start: int, end: int): (chk: Check)
    ensures chk.start == start && chk.end == end && TypeName(chk.kind) == "A"
    ensures forall c :: Accepts(chk.kind, c) <==> 'A' <= c <= 'Z'
  {
    Check(Capital, start, end)
  }

  /** Clause over letters of either case and digits. */
  function Letters(start: int, end: int): (chk: Check)
    ensures chk.start == start && chk.end == end && TypeName(chk.kind) == "Aa0"
    ensures forall c :: Accepts(chk.kind, c) <==> ('A' <= c <= 'Z' || 'a' <= c <= 'z' || '0' <= c <= '9')
  {
    Check(Alphanumeric, start, end)
  }

  /** Every position of `[start, end)` exists in `s` and holds a character of the class. */
  predicate Holds(chk: Check, s: string) {
    chk.start >= chk.end ||
    (0 <= chk.start && chk.end <= |s| && forall i :: chk.start <= i < chk.end ==> Accepts(chk.kind, s[i]))
  }

  /** `validate` returns without an exception: the scan either stays inside `s`
      or meets a rejected character before it leaves `s`. An empty range reads
      nothing. */
  predicate Defined(chk: Check, s: string) {
    chk.start >= chk.end ||
    (0 <= chk.start &&
     (chk.end <= |s| || exists i :: chk.start <= i < chk.end && i < |s| && !Accepts(chk.kind, s[i])))
  }

  /** The scan of `validate`, stopping at the first rejected character. */
  method Validate(chk: Check, s: string) returns (ok: bool)
    requires Defined(chk, s)
    ensures ok == Holds(chk, s)
  {
    var i := chk.start;
    while i < chk.end
      invariant chk.start <= i
      invariant chk.start < chk.end ==> 0 <= chk.start && i <= chk.end
      invariant forall j :: chk.start <= j < i ==> 0 <= j < |s| && Accepts(chk.kind, s[j])
    {
      if !Accepts(chk.kind, s[i]) {
        return false;
      }
      i := i + 1;
    }
    return true;
  }

  /** An empty range is satisfied by every string. */
  lemma EmptyRangeHolds(chk: Check, s: string)
    requires chk.start >= chk.end
    ensures Defined(chk, s) && Holds(chk, s)
  {
  }

  /** A clause that holds on a range holds on every sub-range. */
  lemma HoldsOnSubrange(chk: Check, start: int, end: int, s: string)
    requires Holds(chk, s)
    requires chk.start <= start <= end <= chk.end
    ensures Holds(Check(chk.kind, start, end), s)
  {
  }

  /** Digits and capitals are both alphanumeric. */
  lemma NarrowerClassesImplyLetters(start: int, end: int, s: string)
    ensures Holds(Numeric(start, end), s) ==> Holds(Letters(start, end), s)
    ensures Holds(Capitals(start, end), s) ==> Holds(Letters(start, end), s)
  {
    if Holds(Numeric(start, end), s) && start < end {
      forall i | start <= i < end ensures Accepts(Alphanumeric, s[i]) {
        assert Accepts(Digit, s[i]);
      }
    }
    if Holds(Capitals(start, end), s) && start < end {
      forall i | start <= i < end ensures Accepts(Alphanumeric, s[i]) {
        assert Accepts(Capital, s[i]);
      }
    }
  }

  /** The text of `toString`: type tag, then `[start-end]`. */
  function ClauseString(chk: Check): string {
    TypeName(chk.kind) + "[" + IntToString(chk.start) + "-" + IntToString(chk.end) + "]"
  }

  /** First index at or after `from` that holds `c`, or `|s|`. */
  function IndexFrom(s: string, c: char, from: nat): (k: nat)
    requires from <= |s|
    ensures from <= k <= |s|
    ensures k < |s| ==> s[k] == c
    ensures forall j :: from <= j < k ==> s[j] != c
    decreases |s| - from
  {
    if from == |s| || s[from] == c then from else IndexFrom(s, c, from + 1)
  }

  /** Splits the text after a type tag and `[`: the tag's class and the rest. */
  function ParseTag(t: string): Option<(CharClass, string)> {
    if |t| >= 4 && t[..4] == "Aa0[" then Some((Alphanumeric, t[4..]))
    else if |t| >= 2 && t[..2] == "A[" then Some((Capital, t[2..]))
    else if |t| >= 2 && t[..2] == "0[" then Some((Digit, t[2..]))
    else Option.None
  }

  /** Reads `start-end`, where either bound may carry a minus sign. */
  function ParseRange(body: string): Option<(int, int)> {
    var signLen := if |body| > 0 && body[0] == '-' then 1 else 0;
    var dash := IndexFrom(body, '-', signLen);
    if dash == |body| then Option.None
    else
      match (ParseInt(body[..dash]), ParseInt(body[dash + 1..]))
      case (Some(a), Some(b)) => Some((a, b))
      case _ => Option.None
  }

  /** Reads a clause back from its text; the partner of ClauseString. */
  function ParseClause(t: string): Option<Check> {
    match ParseTag(t)
    case None => Option.None
    case Some((kind, rest)) =>
      if |rest| == 0 || rest[|rest| - 1] != ']' then Option.None
      else
        match ParseRange(rest[..|rest| - 1])
        case None => Option.None
        case Some((a, b)) => Some(Check(kind, a, b))
  }

  lemma ParseTagString(kind: CharClass, rest: string)
    ensures ParseTag(TypeName(kind) + "[" + rest) == Some((kind, rest))
  {
    var tag := TypeName(kind) + "[";
    var t := tag + rest;
    PrefixOfAppend(tag, rest);
    match kind {
      case Alphanumeric =>
        assert tag == "Aa0[";
      case Capital =>
        assert tag == "A[";
        assert t[1] == '[';
      case Digit =>
        assert tag == "0[";
        assert t[0] == '0';
    }
  }

  /** Past its sign, the text of an integer holds digits only. */
  lemma DigitsAfterSign(i: int)
    ensures forall j :: (if i < 0 then 1 else 0) <= j < |IntToString(i)| ==> IsDigit(IntToString(i)[j])
  {
    var r := IntToString(i);
    if i < 0 {
      assert forall j :: 1 <= j < |r| ==> r[j] == r[1..][j - 1];
    }
  }

  lemma ParseRangeString(a: int, b: int)
    ensures ParseRange(IntToString(a) + "-" + IntToString(b)) == Some((a, b))
  {
    var sa, sb := IntToString(a), IntToString(b);
    var body := sa + "-" + sb;
    var signLen := if a < 0 then 1 else 0;
    assert body[0] == sa[0];
    DigitsAfterSign(a);
    assert forall j :: signLen <= j < |sa| ==> body[j] == sa[j];
    assert body[|sa|] == '-';
    var dash := IndexFrom(body, '-', signLen);
    assert dash == |sa|;
    assert body[..dash] == sa && body[dash + 1..] == sb;
    ParseIntToString(a);
    ParseIntToString(b);
  }

  /** The text of a clause determines the clause. */
  lemma ParseClauseString(chk: Check)
    ensures ParseClause(ClauseString(chk)) == Some(chk)
  {
    var body := IntToString(chk.start) + "-" + IntToString(chk.end);
    var rest := body + "]";
    ClauseStringSplit(chk);
    ParseTagString(chk.kind, rest);
    PrefixOfAppend(body, "]");
    ParseRangeString(chk.start, chk.end);
  }

  lemma ClauseStringSplit(chk: Check)
    ensures ClauseString(chk) ==
      TypeName(chk.kind) + "[" + (IntToString(chk.start) + "-" + IntToString(chk.end) + "]")
  {
    var body := IntToString(chk.start) + "-" + IntToString(chk.end);
    AppendAssoc(TypeName(chk.kind) + "[", body, "]");
    AppendAssoc(TypeName(chk.kind) + "[" + IntToString(chk.start), "-", IntToString(chk.end));
    AppendAssoc(TypeName(chk.kind) + "[", IntToString(chk.start), "-" + IntToString(chk.end));
    AppendAssoc(TypeName(chk.kind) + "[", IntToString(chk.start) + "-", IntToString(chk.end));
    AppendAssoc(TypeName(chk.kind) + "[", IntToString(chk.start), "-");
  }

  /** The text of an integer has no `,`. */
  lemma IntTextHasNoComma(i: int)
    ensures ',' !in IntToString(i)
  {
    var a := IntToString(i);
    assert forall j :: 0 <= j < |a| ==> a[j] != ',' by {
      if i < 0 {
        assert forall j :: 1 <= j < |a| ==> a[j] == a[1..][j - 1];
      }
    }
  }

  /** A clause's text never contains the `,` that `format` joins clauses with. */
  lemma ClauseStringHasNoComma(chk: Check)
    ensures ',' !in ClauseString(chk)
  {
    IntTextHasNoComma(chk.start);
    IntTextHasNoComma(chk.end);
  }
}
