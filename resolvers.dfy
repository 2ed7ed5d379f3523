/** Field resolvers: given an IBAN, return the characters of one field of the
    country pattern, or nothing. */
module Resolvers {
  import opened Wrappers
  import opened Seqs

  /** `None`: the symbol is absent; `Substring`: it occupies one run
      `[start, end)`; `Pattern`: it occupies several runs of `pattern`. */
  datatype SubstringResolver = None | Substring(start: int, end: int) | Pattern(c: char, pattern: string)

  /** Every position of `p` that holds `c` is a position of `s`. */
  predicate Covers(s: string, p: string, c: char) {
    forall i :: 0 <= i < |p| && p[i] == c ==> i < |s|
  }

  /** The characters of `s` at the positions where `p` holds `c`, left to right. */
  function Project(s: string, p: string, c: char): string
    requires Covers(s, p, c)
  {
    if |p| == 0 then ""
    else
      var q := p[..|p| - 1];
      assert Covers(s, q, c) by {
        forall i | 0 <= i < |q| && q[i] == c ensures i < |s| {
          assert p[i] == q[i];
        }
      }
      Project(s, q, c) + (if p[|p| - 1] == c then [s[|p| - 1]] else "")
  }

  /** The positions of `p` that hold `c`, in increasing order. */
  function Positions(p: string, c: char): seq<nat> {
    if |p| == 0 then []
    else Positions(p[..|p| - 1], c) + (if p[|p| - 1] == c then [|p| - 1] else [])
  }

  /** What `resolve` needs of its argument to stay inside it. */
  predicate CanResolve(r: SubstringResolver, s: string) {
    match r
    case None => true
    case Substring(start, end) => 0 <= start <= end <= |s|
    case Pattern(c, p) => Covers(s, p, c)
  }

  /** The answer of `resolve`: absent, the slice, or the projection (absent
      when it is empty). */
  function Resolved(r: SubstringResolver, s: string): Option<string>
    requires CanResolve(r, s)
  {
    match r
    case None => Option.None
    case Substring(start, end) => Some(s[start..end])
    case Pattern(c, p) => var t := Project(s, p, c); if |t| == 0 then Option.None else Some(t)
  }

  /** `resolve` of the three resolver classes; `Pattern` scans the pattern and
      the IBAN in lock-step. */
  method Resolve(r: SubstringResolver, s: string) returns (res: Option<string>)
    requires CanResolve(r, s)
    ensures res == Resolved(r, s)
  {
    match r {
      case None =>
        res := Option.None;
      case Substring(start, end) =>
        res := Some(s[start..end]);
      case Pattern(c, p) =>
        var sb := "";
        var i := 0;
        while i < |p|
          invariant 0 <= i <= |p|
          invariant Covers(s, p[..i], c)
          invariant sb == Project(s, p[..i], c)
        {
          assert p[..i + 1][..i] == p[..i];
          if p[i] == c {
            sb := sb + [s[i]];
          }
          i := i + 1;
        }
        assert p[..|p|] == p;
        res := if |sb| == 0 then Option.None else Some(sb);
    }
  }

  /** The positions are indices of `p` holding `c`. */
  lemma {:induction false} PositionsHoldSymbol(p: string, c: char)
    ensures forall k :: 0 <= k < |Positions(p, c)| ==> Positions(p, c)[k] < |p| && p[Positions(p, c)[k]] == c
  {
    if |p| > 0 {
      var q := p[..|p| - 1];
      PositionsHoldSymbol(q, c);
      forall k | 0 <= k < |Positions(q, c)| ensures p[Positions(q, c)[k]] == c {
        assert q[Positions(q, c)[k]] == p[Positions(q, c)[k]];
      }
    }
  }

  /** The positions strictly increase, each below `|p|`. */
  lemma {:induction false} PositionsIncrease(p: string, c: char)
    ensures forall k :: 0 <= k < |Positions(p, c)| ==> Positions(p, c)[k] < |p|
    ensures forall k, l :: 0 <= k < l < |Positions(p, c)| ==> Positions(p, c)[k] < Positions(p, c)[l]
  {
    if |p| > 0 {
      PositionsIncrease(p[..|p| - 1], c);
    }
  }

  /** Every index of `p` holding `c` is a position. */
  lemma {:induction false} PositionsComplete(p: string, c: char)
    ensures forall i :: 0 <= i < |p| && p[i] == c ==> i in Positions(p, c)
  {
    if |p| > 0 {
      var q := p[..|p| - 1];
      PositionsComplete(q, c);
      forall i | 0 <= i < |p| && p[i] == c ensures i in Positions(p, c) {
        if i < |q| {
          assert q[i] == c;
        }
      }
    }
  }

  /** There is one position per occurrence of `c`. */
  lemma {:induction false} PositionsCount(p: string, c: char)
    ensures |Positions(p, c)| == multiset(p)[c]
  {
    if |p| > 0 {
      var q := p[..|p| - 1];
      PositionsCount(q, c);
      DropLast(p);
      assert multiset(p) == multiset(q) + multiset{p[|p| - 1]};
    }
  }

  /** The projection picks `s` at the positions, one character per position. */
  lemma {:induction false} ProjectAtPositions(s: string, p: string, c: char)
    requires Covers(s, p, c)
    ensures |Project(s, p, c)| == |Positions(p, c)|
    ensures forall k :: 0 <= k < |Positions(p, c)| ==> Positions(p, c)[k] < |s| && Project(s, p, c)[k] == s[Positions(p, c)[k]]
  {
    if |p| > 0 {
      var q := p[..|p| - 1];
      assert Covers(s, q, c) by {
        forall i | 0 <= i < |q| && q[i] == c ensures i < |s| {
          assert p[i] == q[i];
        }
      }
      ProjectAtPositions(s, q, c);
    }
  }

  /** The projection is empty exactly when `c` does not occur in `p`; otherwise
      it has one character per occurrence. */
  lemma ProjectLength(s: string, p: string, c: char)
    requires Covers(s, p, c)
    ensures |Project(s, p, c)| == multiset(p)[c]
    ensures |Project(s, p, c)| == 0 <==> c !in p
  {
    PositionsCount(p, c);
    ProjectAtPositions(s, p, c);
  }

  /** Characters of `s` outside the positions holding `c` do not matter. */
  lemma {:induction false} ProjectLocal(s: string, t: string, p: string, c: char)
    requires Covers(s, p, c) && Covers(t, p, c)
    requires forall i :: 0 <= i < |p| && p[i] == c ==> s[i] == t[i]
    ensures Project(s, p, c) == Project(t, p, c)
  {
    if |p| > 0 {
      var q := p[..|p| - 1];
      assert Covers(s, q, c) && Covers(t, q, c) by {
        forall i | 0 <= i < |q| && q[i] == c ensures i < |s| && i < |t| {
          assert p[i] == q[i];
        }
      }
      ProjectLocal(s, t, q, c);
    }
  }

  /** A `None` resolver answers nothing, whatever the IBAN. */
  lemma NoneResolvesNothing(s: string)
    ensures Resolved(SubstringResolver.None, s) == Option.None
  {
  }

  /** A `Substring` resolver answers `end - start` characters. */
  lemma SubstringLength(start: int, end: int, s: string)
    requires 0 <= start <= end <= |s|
    ensures Resolved(Substring(start, end), s).Some?
    ensures |Resolved(Substring(start, end), s).value| == end - start
  {
  }

  /** A `Pattern` resolver answers nothing exactly when its symbol is absent
      from its pattern, and otherwise one character per occurrence. */
  lemma PatternResolves(c: char, p: string, s: string)
    requires Covers(s, p, c)
    ensures Resolved(Pattern(c, p), s).None? <==> c !in p
    ensures c in p ==> Resolved(Pattern(c, p), s) == Some(Project(s, p, c))
    ensures c in p ==> |Resolved(Pattern(c, p), s).value| == multiset(p)[c]
  {
    ProjectLength(s, p, c);
  }

  /** Characters of the IBAN at positions `>= |p|` never reach a `Pattern` answer. */
  lemma PatternIgnoresTail(c: char, p: string, s: string, t: string)
    requires |s| >= |p| && |t| >= |p| && s[..|p|] == t[..|p|]
    ensures Resolved(Pattern(c, p), s) == Resolved(Pattern(c, p), t)
  {
    forall i | 0 <= i < |p| && p[i] == c ensures s[i] == t[i] {
      assert s[i] == s[..|p|][i];
    }
    ProjectLocal(s, t, p, c);
  }
}
