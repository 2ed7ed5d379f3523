/** Country configuration: expected length, symbol pattern, ordered format
    clauses, and the per-configuration cache of compiled field resolvers. */
module Configs {
  import opened Wrappers
  import opened Checks
  import opened Resolvers
  import opened Seqs

  /** The data a catalogue entry fixes for one country. */
  datatype ConfigData = ConfigData(id: string, length: int, pattern: string, checks: seq<Check>)

  /** `c` occurs in `p`, then something else, then `c` again: more than one run. */
  predicate SeveralRuns(p: string, c: char) {
    exists i, j, k :: 0 <= i < j < k < |p| && p[i] == c && p[j] != c && p[k] == c
  }

  /** The resolver the compiler must produce for symbol `c` of pattern `p`:
      `None` when `c` is absent, `Substring(a, b)` when the occurrences are
      exactly `[a, b)`, and `Pattern(c, p)` when they form several runs. */
  predicate Compiles(p: string, c: char, r: SubstringResolver) {
    match r
    case None => c !in p
    case Substring(a, b) =>
      0 <= a < b <= |p| && forall i :: 0 <= i < |p| ==> (p[i] == c <==> a <= i < b)
    case Pattern(c', p') => c' == c && p' == p && SeveralRuns(p, c)
  }

  /** Compilation is deterministic: at most one resolver fits a pattern and symbol. */
  lemma CompilesUnique(p: string, c: char, r1: SubstringResolver, r2: SubstringResolver)
    requires Compiles(p, c, r1) && Compiles(p, c, r2)
    ensures r1 == r2
  {
    if r1.Substring? {
      assert p[r1.start] == c && p[r1.end - 1] == c;
    }
    if r2.Substring? {
      assert p[r2.start] == c && p[r2.end - 1] == c;
    }
    if r1.Pattern? {
      var i, j, k :| 0 <= i < j < k < |p| && p[i] == c && p[j] != c && p[k] == c;
    }
    if r2.Pattern? {
      var i, j, k :| 0 <= i < j < k < |p| && p[i] == c && p[j] != c && p[k] == c;
    }
  }

  /** Projecting onto one run `[a, b)` is slicing, prefix by prefix. */
  lemma {:induction false} ProjectRun(s: string, p: string, c: char, a: int, b: int, n: nat)
    requires 0 <= a < b <= |p| <= |s| && n <= |p|
    requires forall i :: 0 <= i < |p| ==> (p[i] == c <==> a <= i < b)
    ensures Covers(s, p[..n], c)
    ensures Project(s, p[..n], c) == s[if n < a then 0 else a..if n < a then 0 else if n < b then n else b]
  {
    if n > 0 {
      ProjectRun(s, p, c, a, b, n - 1);
      PrefixOfPrefix(p, n, n - 1);
      assert p[..n][n - 1] == p[n - 1];
      if a <= n - 1 < b {
        SliceSnoc(s, a, n);
      }
    }
  }

  /** THE CENTRAL PROPERTY: whichever variant the compiler chooses, resolving
      an IBAN with it gives the projection of the IBAN onto the positions of
      the symbol, or nothing when the symbol is absent. */
  lemma CompiledResolvesProjection(p: string, c: char, r: SubstringResolver, s: string)
    requires Compiles(p, c, r)
    requires Covers(s, p, c)
    ensures CanResolve(r, s)
    ensures Resolved(r, s) == if c in p then Some(Project(s, p, c)) else Option.None
  {
    ProjectLength(s, p, c);
    match r {
      case None =>
      case Substring(a, b) =>
        assert p[b - 1] == c;
        var s' := s + seq(|p|, _ => ' ');
        assert Covers(s', p, c);
        ProjectRun(s', p, c, a, b, |p|);
        assert p[..|p|] == p;
        forall i | 0 <= i < |p| && p[i] == c ensures s[i] == s'[i] { }
        ProjectLocal(s, s', p, c);
        assert s[a..b] == s'[a..b];
      case Pattern(_, _) =>
    }
  }

  /** A configuration object. The builder setters and clause builders change
      it while the catalogue is set up; `Resolver` fills its cache later. */
  class IbanConfig {
    const id: string
    var length: int
    var pattern: string
    var checks: seq<Check>
    var cacheSize: nat
    var cacheChars: array<char>
    var cacheResolvers: array<SubstringResolver>

    /** The cache's shape: parallel arrays of one capacity, `cacheSize` of
        their slots in use, no symbol cached twice. */
    ghost predicate Valid()
      reads this, cacheChars
    {
      cacheSize <= cacheChars.Length == cacheResolvers.Length &&
      forall i, j :: 0 <= i < j < cacheSize ==> cacheChars[i] != cacheChars[j]
    }

    /** Every cached resolver is the compilation of its symbol against the
        current pattern. */
    ghost predicate Coherent()
      reads this, cacheChars, cacheResolvers
      requires Valid()
    {
      forall i :: 0 <= i < |Keys()| ==> Compiles(pattern, Keys()[i], Values()[i])
    }

    ghost function Keys(): seq<char>
      reads this, cacheChars
      requires Valid()
    {
      cacheChars[..cacheSize]
    }

    ghost function Values(): seq<SubstringResolver>
      reads this, cacheChars, cacheResolvers
      requires Valid()
    {
      cacheResolvers[..cacheSize]
    }

    /** `IbanConfig.instance(countryCode)`: no length, no pattern (Java
        `null`, here empty), no clauses, empty cache. */
    constructor (countryCode: string)
      ensures id == countryCode && length == 0 && pattern == "" && checks == []
      ensures Valid() && Coherent() && Keys() == []
    {
      id := countryCode;
      length := 0;
      pattern := "";
      checks := [];
      cacheSize := 0;
      cacheChars := new char[0];
      cacheResolvers := new SubstringResolver[0];
    }

    /** A configuration holding a catalogue entry, as its builder chain leaves it. */
    constructor Of(d: ConfigData)
      ensures id == d.id && length == d.length && pattern == d.pattern && checks == d.checks
      ensures Valid() && Coherent() && Keys() == []
    {
      id := d.id;
      length := d.length;
      pattern := d.pattern;
      checks := d.checks;
      cacheSize := 0;
      cacheChars := new char[0];
      cacheResolvers := new SubstringResolver[0];
    }

    /** The catalogue entry this configuration describes. */
    function Data(): (d: ConfigData)
      reads this
      ensures d.id == id && d.length == length && d.pattern == pattern && d.checks == checks
    {
      ConfigData(id, length, pattern, checks)
    }

    /** Setter `length(value)`. */
    method SetLength(value: int)
      modifies this`length
      ensures length == value
    {
      length := value;
    }

    /** Setter `pattern(value)`. Resolvers cached for an earlier pattern stay
        in the cache, so the cache stays coherent only if it was empty. */
    method SetPattern(value: string)
      requires Valid()
      modifies this`pattern
      ensures pattern == value && Valid()
      ensures old(cacheSize) == 0 ==> Coherent()
    {
      pattern := value;
    }

    /** `substringCheck(value)`: appends a clause; a `null` clause is ignored. */
    method SubstringCheck(value: Option<Check>)
      modifies this`checks
      ensures checks == old(checks) + (if value.Some? then [value.value] else [])
    {
      if value.Some? {
        checks := checks + [value.value];
      }
    }

    /** Builder `numeric(startPos, endPos)`. */
    method Numeric(startPos: int, endPos: int)
      modifies this`checks
      ensures checks == old(checks) + [Checks.Numeric(startPos, endPos)]
    {
      SubstringCheck(Some(Checks.Numeric(startPos, endPos)));
    }

    /** Builder `capitals(startPos, endPos)`. */
    method Capitals(startPos: int, endPos: int)
      modifies this`checks
      ensures checks == old(checks) + [Checks.Capitals(startPos, endPos)]
    {
      SubstringCheck(Some(Checks.Capitals(startPos, endPos)));
    }

    /** Builder `letters(startPos, endPos)`. */
    method Letters(startPos: int, endPos: int)
      modifies this`checks
      ensures checks == old(checks) + [Checks.Letters(startPos, endPos)]
    {
      SubstringCheck(Some(Checks.Letters(startPos, endPos)));
    }

    /** `resolveResolver(c)`: one left-to-right scan of the pattern that notes
        where the first run of `c` starts and ends, and gives up on a
        substring as soon as `c` appears again after the run closed. */
    method ResolveResolver(c: char) returns (r: SubstringResolver)
      ensures Compiles(pattern, c, r)
    {
      var startPos := -1;
      var endPos := -1;
      var len := |pattern|;
      var i := 0;
      while i < len
        invariant 0 <= i <= len
        invariant startPos == -1 ==> endPos == -1 && c !in pattern[..i]
        invariant startPos != -1 ==> 0 <= startPos < i && pattern[startPos] == c
        invariant startPos != -1 ==> forall j :: 0 <= j < startPos ==> pattern[j] != c
        invariant startPos != -1 && endPos == -1 ==> forall j :: startPos <= j < i ==> pattern[j] == c
        invariant endPos != -1 ==> startPos != -1 && startPos < endPos < i
        invariant endPos != -1 ==> forall j :: startPos <= j < endPos ==> pattern[j] == c
        invariant endPos != -1 ==> forall j :: endPos <= j < i ==> pattern[j] != c
      {
        var cc := pattern[i];
        if cc == c {
          if startPos == -1 {
            startPos := i;
          } else if endPos != -1 {
            assert pattern[endPos] != c;
            return Pattern(c, pattern);
          }
        } else {
          if startPos != -1 && endPos == -1 {
            endPos := i;
          }
        }
        assert pattern[..i + 1] == pattern[..i] + [cc];
        i := i + 1;
      }
      assert pattern[..len] == pattern;
      if startPos != -1 && endPos == -1 {
        endPos := len;
      }
      if startPos != -1 {
        return Substring(startPos, endPos);
      }
      return SubstringResolver.None;
    }

    /** `System.arraycopy(src, 0, dst, 0, n)`. */
    static method CopyPrefix<T>(src: array<T>, dst: array<T>, n: nat)
      requires n <= src.Length && n <= dst.Length && src != dst
      modifies dst
      ensures dst[..n] == src[..n]
    {
      var i := 0;
      while i < n
        invariant 0 <= i <= n
        invariant dst[..i] == src[..i]
      {
        dst[i] := src[i];
        assert dst[..i + 1] == dst[..i] + [dst[i]];
        assert src[..i + 1] == src[..i] + [src[i]];
        i := i + 1;
      }
    }

    /** A full cache moves to arrays 30 slots longer, keeping its entries. */
    method Grow()
      requires Valid() && cacheSize == cacheChars.Length
      modifies this`cacheChars, this`cacheResolvers
      ensures Valid() && Keys() == old(Keys()) && Values() == old(Values())
      ensures cacheChars.Length == old(cacheChars.Length) + 30
      ensures fresh(cacheChars) && fresh(cacheResolvers)
    {
      var newChars := new char[cacheSize + 30];
      var newResolvers := new SubstringResolver[cacheSize + 30];
      CopyPrefix(cacheChars, newChars, cacheSize);
      CopyPrefix(cacheResolvers, newResolvers, cacheSize);
      cacheChars := newChars;
      cacheResolvers := newResolvers;
    }

    /** The search loop of `resolver`: the slot caching `c`, or `cacheSize`. */
    method FindKey(c: char) returns (i: nat)
      requires Valid()
      ensures i <= cacheSize
      ensures i < cacheSize ==> cacheChars[i] == c
      ensures i == cacheSize <==> c !in Keys()
    {
      i := 0;
      while i < cacheSize
        invariant 0 <= i <= cacheSize
        invariant c !in cacheChars[..i]
      {
        if cacheChars[i] == c {
          assert Keys()[i] == c;
          return;
        }
        assert cacheChars[..i + 1] == cacheChars[..i] + [cacheChars[i]];
        i := i + 1;
      }
    }

    /** `resolver(c)`: the cached resolver of `c`, compiling and appending it
        on a miss. The arrays are allocated with 30 slots on first use and grow
        by 30 whenever they are full on entry. */
    method Resolver(c: char) returns (r: SubstringResolver)
      requires Valid()
      modifies this`cacheSize, this`cacheChars, this`cacheResolvers, cacheChars, cacheResolvers
      ensures Valid()
      ensures old(Coherent()) ==> Coherent() && Compiles(pattern, c, r)
      ensures c in old(Keys()) ==> Keys() == old(Keys()) && Values() == old(Values())
      ensures forall i :: 0 <= i < |old(Keys())| && old(Keys())[i] == c ==> r == old(Values())[i]
      ensures c !in old(Keys()) ==> Keys() == old(Keys()) + [c] && Values() == old(Values()) + [r]
      ensures c !in old(Keys()) ==> Compiles(pattern, c, r)
      ensures c in Keys()
      ensures cacheChars.Length ==
        if old(cacheSize) == 0 then 30
        else if old(cacheSize) == old(cacheChars.Length) then old(cacheChars.Length) + 30
        else old(cacheChars.Length)
    {
      Reserve();
      var i := FindKey(c);
      if i < cacheSize {
        r := cacheResolvers[i];
        assert Keys()[i] == c && Values()[i] == r;
        return;
      }
      r := ResolveResolver(c);
      Append(c, r);
    }

    /** The allocation at the start of `resolver`: 30 slots on first use, 30
        more when full, so that a free slot is left for a new entry. */
    method Reserve()
      requires Valid()
      modifies this`cacheChars, this`cacheResolvers
      ensures Valid() && Keys() == old(Keys()) && Values() == old(Values())
      ensures cacheSize < cacheChars.Length
      ensures cacheChars.Length ==
        if old(cacheSize) == 0 then 30
        else if old(cacheSize) == old(cacheChars.Length) then old(cacheChars.Length) + 30
        else old(cacheChars.Length)
      ensures cacheChars == old(cacheChars) || fresh(cacheChars)
      ensures cacheResolvers == old(cacheResolvers) || fresh(cacheResolvers)
    {
      if cacheSize == 0 {
        cacheChars := new char[30];
        cacheResolvers := new SubstringResolver[30];
      }
      if cacheSize == cacheChars.Length {
        Grow();
      }
    }

    /** The store at the end of `resolver`: the next free slot takes the new entry. */
    method Append(c: char, r: SubstringResolver)
      requires Valid() && cacheSize < cacheChars.Length && c !in Keys()
      modifies this`cacheSize, cacheChars, cacheResolvers
      ensures Valid()
      ensures Keys() == old(Keys()) + [c] && Values() == old(Values()) + [r]
    {
      cacheChars[cacheSize] := c;
      cacheResolvers[cacheSize] := r;
      cacheSize := cacheSize + 1;
      assert Keys() == old(Keys()) + [c];
      assert Values() == old(Values()) + [r];
    }

    /** `formatCheck(iban)`: the clauses in list order, stopping at the first
        that fails. */
    method FormatCheck(iban: string) returns (ok: bool)
      requires FormatDefined(checks, iban)
      ensures ok == AllHold(checks, iban)
    {
      var i := 0;
      while i < |checks|
        invariant 0 <= i <= |checks|
        invariant forall k :: 0 <= k < i ==> Holds(checks[k], iban)
        invariant FormatDefined(checks[i..], iban)
      {
        var v := Validate(checks[i], iban);
        if !v {
          return false;
        }
        assert checks[i..][1..] == checks[i + 1..];
        i := i + 1;
      }
      return true;
    }

    /** `format()`: nothing without clauses, else their texts joined by `,`. */
    method Format() returns (r: Option<string>)
      ensures checks == [] ==> r == Option.None
      ensures checks != [] ==> r == Some(JoinClauses(checks))
    {
      if checks == [] {
        return Option.None;
      }
      var cs := checks;
      var sb := "";
      var i := 0;
      while i < |cs|
        invariant 0 <= i <= |cs|
        invariant sb == JoinClauses(cs[..i])
        invariant i > 0 ==> |sb| > 0
      {
        var text := ClauseString(cs[i]);
        JoinClausesSnoc(cs, i);
        if |sb| > 0 {
          sb := sb + ",";
        }
        sb := sb + text;
        i := i + 1;
      }
      assert i == |cs|;
      TakeAll(cs);
      r := Some(sb);
    }
  }

  /** Every clause holds: the conjunction `formatCheck` computes. */
  predicate AllHold(cs: seq<Check>, s: string) {
    forall k :: 0 <= k < |cs| ==> Holds(cs[k], s)
  }

  /** `formatCheck` returns without an exception: each clause it reaches is
      one `validate` can run. */
  predicate FormatDefined(cs: seq<Check>, s: string) {
    |cs| == 0 || (Defined(cs[0], s) && (Holds(cs[0], s) ==> FormatDefined(cs[1..], s)))
  }

  /** The text of each clause, in order. */
  function ClauseTexts(cs: seq<Check>): seq<string> {
    seq(|cs|, k requires 0 <= k < |cs| => ClauseString(cs[k]))
  }

  /** Texts separated by `,`. */
  function Join(ts: seq<string>): string {
    if |ts| == 0 then ""
    else if |ts| == 1 then ts[0]
    else Join(ts[..|ts| - 1]) + "," + ts[|ts| - 1]
  }

  /** Clause texts separated by `,`: the text of `format()`. */
  function JoinClauses(cs: seq<Check>): string {
    Join(ClauseTexts(cs))
  }

  /** Index of the last `,` in `s`, or `-1`. */
  function LastComma(s: string): (k: int)
    ensures -1 <= k < |s|
    ensures k >= 0 ==> s[k] == ','
    ensures forall j :: k < j < |s| ==> s[j] != ','
  {
    if |s| == 0 then -1 else if s[|s| - 1] == ',' then |s| - 1 else LastComma(s[..|s| - 1])
  }

  /** Cuts a string at every `,`. */
  function SplitCommas(s: string): seq<string>
    decreases |s|
  {
    var k := LastComma(s);
    if k < 0 then [s] else SplitCommas(s[..k]) + [s[k + 1..]]
  }

  /** One more clause: one more `,` and its text. */
  lemma JoinClausesSnoc(cs: seq<Check>, n: nat)
    requires n < |cs|
    ensures |ClauseString(cs[n])| > 0
    ensures JoinClauses(cs[..n + 1]) ==
      if n == 0 then ClauseString(cs[n]) else JoinClauses(cs[..n]) + "," + ClauseString(cs[n])
  {
    var ts := ClauseTexts(cs[..n + 1]);
    assert ts[..n] == ClauseTexts(cs[..n]);
  }

  lemma SplitNoComma(s: string)
    requires ',' !in s
    ensures SplitCommas(s) == [s]
  {
    assert LastComma(s) == -1;
  }

  lemma SplitSnoc(head: string, last: string)
    requires ',' !in last
    ensures SplitCommas(head + "," + last) == SplitCommas(head) + [last]
  {
    var t := head + "," + last;
    assert t[|head|] == ',';
    assert forall j :: |head| < j < |t| ==> t[j] == last[j - |head| - 1];
    assert LastComma(t) == |head|;
    assert t[..|head|] == head && t[|head| + 1..] == last;
  }

  /** Cutting a `,`-joined list of comma-free texts at its commas gives the list back. */
  lemma {:induction false} SplitJoin(ts: seq<string>)
    requires |ts| > 0
    requires forall k :: 0 <= k < |ts| ==> ',' !in ts[k]
    ensures SplitCommas(Join(ts)) == ts
  {
    if |ts| == 1 {
      SplitNoComma(ts[0]);
    } else {
      var init := ts[..|ts| - 1];
      SplitSnoc(Join(init), ts[|ts| - 1]);
      SplitJoin(init);
      assert init + [ts[|ts| - 1]] == ts;
    }
  }

  /** The text of `format()` gives back the text of each clause, in order. */
  lemma SplitJoinClauses(cs: seq<Check>)
    requires |cs| > 0
    ensures SplitCommas(JoinClauses(cs)) == ClauseTexts(cs)
  {
    forall k | 0 <= k < |cs| ensures ',' !in ClauseTexts(cs)[k] {
      ClauseStringHasNoComma(cs[k]);
    }
    SplitJoin(ClauseTexts(cs));
  }

  /** Without clauses the format is unchecked. */
  lemma NoClausesHold(s: string)
    ensures FormatDefined([], s) && AllHold([], s)
  {
  }
}
