/** The IBAN check digits: ISO 7064 MOD 97-10 as ISO 13616 applies it. The
    first four characters move to the end, every character becomes its
    numeral, and the resulting decimal number is taken modulo 97. */
module Checksum {
  import opened Decimal
  import opened Seqs

  /** Characters whose numeral has no minus sign: digits and every character
      from `:` on. */
  predicate NumeralSafe(s: string) {
    forall i :: 0 <= i < |s| ==> s[i] >= '0'
  }

  /** `addIbanCharAsNumber`: a digit stands for itself, any other character
      for the decimal text of `c - 'A' + 10`, so `A`..`Z` become 10..35. */
  function CharNumeral(c: char): (r: string)
    requires c >= '0'
    ensures AllDigits(r) && |r| >= 1
    ensures IsDigit(c) ==> r == [c]
    ensures !IsDigit(c) ==> Value(r) == c as int - 'A' as int + 10
    ensures 'A' <= c <= 'Z' ==> |r| == 2 && 10 <= Value(r) <= 35
  {
    if IsDigit(c) then [c] else NatToString(c as int - 'A' as int + 10)
  }

  /** The numerals of all characters of `s`, in order. */
  function Numeral(s: string): (r: string)
    requires NumeralSafe(s)
    ensures AllDigits(r)
  {
    if |s| == 0 then ""
    else
      var init := s[..|s| - 1];
      assert NumeralSafe(init) by {
        forall i | 0 <= i < |init| ensures init[i] >= '0' {
          assert init[i] == s[i];
        }
      }
      Numeral(init) + CharNumeral(s[|s| - 1])
  }

  lemma NumeralSafeAppend(a: string, b: string)
    requires NumeralSafe(a) && NumeralSafe(b)
    ensures NumeralSafe(a + b)
  {
    forall i | 0 <= i < |a + b| ensures (a + b)[i] >= '0' {
      if i >= |a| {
        assert (a + b)[i] == b[i - |a|];
      }
    }
  }

  lemma NumeralSafePrefix(s: string, n: nat)
    requires NumeralSafe(s) && n <= |s|
    ensures NumeralSafe(s[..n])
  {
    forall i | 0 <= i < n ensures s[..n][i] >= '0' {
      assert s[..n][i] == s[i];
    }
  }

  lemma SplitCheckDigits(s: string)
    requires |s| >= 4
    ensures s[..4] == s[..2] + s[2..4]
    ensures s == s[..2] + s[2..4] + s[4..]
  {
  }

  lemma NumeralSnoc(x: string, c: char)
    requires NumeralSafe(x) && c >= '0'
    ensures NumeralSafe(x + [c])
    ensures Numeral(x + [c]) == Numeral(x) + CharNumeral(c)
  {
    assert (x + [c])[..|x|] == x;
  }

  lemma {:induction false} NumeralAppend(a: string, b: string)
    requires NumeralSafe(a) && NumeralSafe(b)
    ensures NumeralSafe(a + b)
    ensures Numeral(a + b) == Numeral(a) + Numeral(b)
  {
    NumeralSafeAppend(a, b);
    if |b| == 0 {
      assert a + b == a;
    } else {
      var b' := b[..|b| - 1];
      var last := b[|b| - 1];
      NumeralSafePrefix(b, |b| - 1);
      NumeralSafeAppend(a, b');
      assert b == b' + [last];
      assert a + b == (a + b') + [last];
      calc {
        Numeral(a + b);
        == { NumeralSnoc(a + b', last); }
        Numeral(a + b') + CharNumeral(last);
        == { NumeralAppend(a, b'); }
        Numeral(a) + Numeral(b') + CharNumeral(last);
        == { AppendAssoc(Numeral(a), Numeral(b'), CharNumeral(last)); }
        Numeral(a) + (Numeral(b') + CharNumeral(last));
        == { NumeralSnoc(b', last); }
        Numeral(a) + Numeral(b);
      }
    }
  }

  /** A string of digits is its own numeral. */
  lemma {:induction false} NumeralOfDigits(s: string)
    requires AllDigits(s)
    ensures NumeralSafe(s) && Numeral(s) == s
  {
    if |s| > 0 {
      var init := s[..|s| - 1];
      assert AllDigits(init) by {
        forall i | 0 <= i < |init| ensures IsDigit(init[i]) {
          assert init[i] == s[i];
        }
      }
      NumeralOfDigits(init);
      PrefixSnoc(s, |s|);
      assert s[..|s|] == s;
    }
  }

  /** The number `ibanCheck` reduces: the numeral of `s[4..] + s[..4]`. */
  function CheckValue(s: string): nat
    requires |s| >= 4 && NumeralSafe(s)
  {
    var rotated := s[4..] + s[..4];
    assert NumeralSafe(rotated) by {
      forall i | 0 <= i < |rotated| ensures rotated[i] >= '0' {
        if i < |s| - 4 {
          assert rotated[i] == s[i + 4];
        } else {
          assert rotated[i] == s[i - (|s| - 4)];
        }
      }
    }
    Value(Numeral(rotated))
  }

  /** The check `ibanCheck` performs: the value is 1 modulo 97. */
  predicate CheckHolds(s: string)
    requires |s| >= 4 && NumeralSafe(s)
  {
    CheckValue(s) % 97 == 1
  }

  /** What `ibanFix` reads: the country code and everything after the check digits. */
  predicate FixSafe(s: string) {
    |s| >= 4 && NumeralSafe(s[..2]) && NumeralSafe(s[4..])
  }

  /** The numerals of `s[4..i]`, one character at a time, as the first loop
      of `ibanCheck` and `ibanFix` builds them. */
  function BodyNumeral(s: string, i: int): string
    requires 4 <= i <= |s| && NumeralSafe(s[4..])
    decreases i
  {
    if i == 4 then ""
    else
      assert s[4..][i - 5] == s[i - 1];
      BodyNumeral(s, i - 1) + CharNumeral(s[i - 1])
  }

  /** The numerals of `s[..i]` for `i <= n`, as the second loop builds them. */
  function HeadNumeral(s: string, n: nat, i: nat): string
    requires n <= |s| && NumeralSafe(s[..n]) && i <= n
  {
    if i == 0 then ""
    else
      assert s[..n][i - 1] == s[i - 1];
      HeadNumeral(s, n, i - 1) + CharNumeral(s[i - 1])
  }

  lemma {:induction false} BodyNumeralIsNumeral(s: string, i: int)
    requires 4 <= i <= |s| && NumeralSafe(s[4..])
    ensures NumeralSafe(s[4..i]) && BodyNumeral(s, i) == Numeral(s[4..i])
    decreases i
  {
    assert s[4..i] == s[4..][..i - 4];
    NumeralSafePrefix(s[4..], i - 4);
    if i > 4 {
      BodyNumeralIsNumeral(s, i - 1);
      SliceSnoc(s, 4, i);
      NumeralSnoc(s[4..i - 1], s[i - 1]);
    }
  }

  lemma {:induction false} HeadNumeralIsNumeral(s: string, n: nat, i: nat)
    requires n <= |s| && NumeralSafe(s[..n]) && i <= n
    ensures NumeralSafe(s[..i]) && HeadNumeral(s, n, i) == Numeral(s[..i])
  {
    if i > 0 {
      HeadNumeralIsNumeral(s, n, i - 1);
      HeadNumeralSnoc(s, n, i);
    }
  }

  lemma HeadNumeralSnoc(s: string, n: nat, i: nat)
    requires 0 < i <= n <= |s| && NumeralSafe(s[..n])
    requires NumeralSafe(s[..i - 1]) && HeadNumeral(s, n, i - 1) == Numeral(s[..i - 1])
    ensures NumeralSafe(s[..i]) && HeadNumeral(s, n, i) == Numeral(s[..i])
  {
    assert s[..n][i - 1] == s[i - 1];
    PrefixSnoc(s, i);
    NumeralSnoc(s[..i - 1], s[i - 1]);
  }

  /** The body loop's last character, and the numeral it extends. */
  lemma BodyStep(s: string, i: int)
    requires 4 <= i < |s| && NumeralSafe(s[4..])
    ensures s[i] >= '0'
    ensures BodyNumeral(s, i + 1) == BodyNumeral(s, i) + CharNumeral(s[i])
  {
    assert s[4..][i - 4] == s[i];
  }

  /** The front loop's next character, and the numeral it extends. */
  lemma HeadStep(s: string, n: nat, i: nat, body: string)
    requires n <= |s| && NumeralSafe(s[..n]) && i < n
    ensures s[i] >= '0'
    ensures body + HeadNumeral(s, n, i + 1) == body + HeadNumeral(s, n, i) + CharNumeral(s[i])
  {
    assert s[..n][i] == s[i];
    AppendAssoc(body, HeadNumeral(s, n, i), CharNumeral(s[i]));
  }

  lemma RotationSplit(s: string)
    requires |s| >= 4 && NumeralSafe(s)
    ensures NumeralSafe(s[..4]) && NumeralSafe(s[4..])
  {
    NumeralSafeSuffix(s, 4);
    NumeralSafePrefix(s, 4);
  }

  /** The numeral the loops of `ibanCheck` build gives the check value. */
  lemma RotationNumeral(s: string)
    requires |s| >= 4 && NumeralSafe(s[..4]) && NumeralSafe(s[4..])
    ensures NumeralSafe(s)
    ensures AllDigits(BodyNumeral(s, |s|) + HeadNumeral(s, 4, 4))
    ensures CheckValue(s) == Value(BodyNumeral(s, |s|) + HeadNumeral(s, 4, 4))
  {
    BodyNumeralIsNumeral(s, |s|);
    HeadNumeralIsNumeral(s, 4, 4);
    SliceToEnd(s, 4);
    NumeralAppend(s[4..], s[..4]);
    SplitAt(s, 4);
    NumeralSafeAppend(s[..4], s[4..]);
  }

  /** The numeral the loops of `ibanFix` build, with its two appended zeros,
      gives the check digits. */
  lemma FixNumeral(s: string)
    requires FixSafe(s)
    ensures AllDigits(BodyNumeral(s, |s|) + HeadNumeral(s, 2, 2) + "00")
    ensures CheckDigits(s) == 98 - Value(BodyNumeral(s, |s|) + HeadNumeral(s, 2, 2) + "00") % 97
  {
    BodyNumeralIsNumeral(s, |s|);
    HeadNumeralIsNumeral(s, 2, 2);
    SliceToEnd(s, 4);
    NumeralAppend(s[4..], s[..2]);
    var t := BodyNumeral(s, |s|) + HeadNumeral(s, 2, 2) + "00";
    forall i | 0 <= i < |t| ensures IsDigit(t[i]) {
      if i >= |t| - 2 {
        assert t[i] == '0';
      }
    }
  }

  /** The number `ibanFix` reduces: the numeral of `s[4..] + s[..2]`, then `00`. */
  function BodyValue(s: string): nat
    requires FixSafe(s)
  {
    NumeralAppend(s[4..], s[..2]);
    Value(Numeral(s[4..] + s[..2]) + "00")
  }

  /** The check digits `ibanFix` computes: `98 - N mod 97`. */
  function CheckDigits(s: string): (d: nat)
    requires FixSafe(s)
    ensures 2 <= d <= 98
  {
    98 - BodyValue(s) % 97
  }

  /** A number below 100 as two digits, with a leading `0` when below 10. */
  function TwoDigits(n: nat): (r: string)
    requires n < 100
    ensures |r| == 2 && AllDigits(r) && Value(r) == n
  {
    var r := if n < 10 then "0" + NatToString(n) else NatToString(n);
    assert n < 10 ==> r[..1] == "0" && r[1..] == NatToString(n);
    if n < 10 then ValueAppend("0", NatToString(n)); r else r
  }

  /** The answer of `ibanFix`: positions 2 and 3 replaced by the check digits. */
  function Fixed(s: string): string
    requires FixSafe(s)
  {
    s[..2] + TwoDigits(CheckDigits(s)) + s[4..]
  }

  lemma {:induction false} Mod97Steps(n: nat, d: nat)
    ensures ((n % 97) * 10 + d) % 97 == (n * 10 + d) % 97
  {
    var q, r := n / 97, n % 97;
    assert n * 10 + d == (r * 10 + d) + 97 * (q * 10);
  }

  /** `ibanFix` keeps the length and every character except the check digits,
      which become two digits whose value is in 2..98. */
  lemma FixedShape(s: string)
    requires FixSafe(s)
    ensures |Fixed(s)| == |s|
    ensures Fixed(s)[..2] == s[..2] && Fixed(s)[4..] == s[4..]
    ensures AllDigits(Fixed(s)[2..4]) && Value(Fixed(s)[2..4]) == CheckDigits(s)
    ensures 2 <= CheckDigits(s) <= 98
    ensures FixSafe(Fixed(s))
  {
    var f := Fixed(s);
    assert f[2..4] == TwoDigits(CheckDigits(s));
  }

  /** With digits at positions 2 and 3, the checked number is the fixed body
      number plus the value of those two digits. */
  lemma CheckValueSplit(s: string)
    requires |s| >= 4 && NumeralSafe(s) && AllDigits(s[2..4])
    ensures FixSafe(s)
    ensures CheckValue(s) == BodyValue(s) + Value(s[2..4])
  {
    NumeralSafePrefix(s, 2);
    NumeralSafeSuffix(s, 4);
    var cd := s[2..4];
    var head := s[4..] + s[..2];
    assert s[4..] + s[..4] == head + cd by {
      SplitCheckDigits(s);
      AppendAssoc(s[4..], s[..2], cd);
    }
    NumeralOfDigits(cd);
    NumeralAppend(s[4..], s[..2]);
    NumeralAppend(head, cd);
    var x := Numeral(head);
    assert CheckValue(s) == Value(x + cd);
    ValueAppend(x, cd);
    assert Pow10(2) == 100;
    BodyValueShift(s);
  }

  /** The `00` ibanFix appends multiplies by 100. */
  lemma BodyValueShift(s: string)
    requires FixSafe(s)
    ensures NumeralSafe(s[4..] + s[..2])
    ensures BodyValue(s) == Value(Numeral(s[4..] + s[..2])) * 100
  {
    NumeralAppend(s[4..], s[..2]);
    ShiftByZeros(Numeral(s[4..] + s[..2]));
  }

  lemma ShiftByZeros(x: string)
    requires AllDigits(x)
    ensures AllDigits(x + "00") && Value(x + "00") == Value(x) * 100
  {
    ValueOfZeros();
    ValueAppend(x, "00");
    assert Pow10(2) == 100;
  }

  lemma ValueOfZeros()
    ensures AllDigits("00") && Value("00") == 0
  {
    assert "00"[..1] == "0" && "0"[..0] == "";
  }

  lemma NumeralSafeSuffix(s: string, n: nat)
    requires NumeralSafe(s) && n <= |s|
    ensures NumeralSafe(s[n..])
  {
    forall i | 0 <= i < |s| - n ensures s[n..][i] >= '0' {
      assert s[n..][i] == s[i + n];
    }
  }

  /** ROUND TRIP: the output of `ibanFix` always passes `ibanCheck`. */
  lemma FixedPassesCheck(s: string)
    requires FixSafe(s)
    ensures NumeralSafe(Fixed(s)) && CheckHolds(Fixed(s))
  {
    var f := Fixed(s);
    FixedShape(s);
    assert NumeralSafe(f) by {
      forall i | 0 <= i < |f| ensures f[i] >= '0' {
        if i < 2 {
          assert f[i] == f[..2][i];
        } else if i < 4 {
          assert f[i] == f[2..4][i - 2];
        } else {
          assert f[i] == f[4..][i - 4];
        }
      }
    }
    CheckValueSplit(f);
    assert f[4..] + f[..2] == s[4..] + s[..2];
    assert BodyValue(f) == BodyValue(s);
    CheckDigitsComplete(BodyValue(s));
  }

  /** Adding `98 - n mod 97` to `n` leaves 1 modulo 97. */
  lemma CheckDigitsComplete(n: nat)
    ensures (n + (98 - n % 97)) % 97 == 1
  {
    assert n - n % 97 == 97 * (n / 97);
    assert n + (98 - n % 97) == 97 * (n / 97 + 1) + 1;
  }

  /** The fix reads only the country code and the part after the check digits. */
  lemma FixedDependsOnBody(s: string, t: string)
    requires FixSafe(s) && FixSafe(t)
    requires s[..2] == t[..2] && s[4..] == t[4..]
    ensures Fixed(s) == Fixed(t)
  {
  }

  /** Fixing a fixed IBAN changes nothing. */
  lemma FixedIdempotent(s: string)
    requires FixSafe(s)
    ensures FixSafe(Fixed(s)) && Fixed(Fixed(s)) == Fixed(s)
  {
    FixedShape(s);
    FixedDependsOnBody(Fixed(s), s);
  }

  /** A two-digit string is the zero-padded text of its value. */
  lemma TwoDigitsOfValue(t: string)
    requires |t| == 2 && AllDigits(t)
    ensures Value(t) < 100 && TwoDigits(Value(t)) == t
  {
    var v := Value(t);
    assert t[..1] == [t[0]] && t[..1][..0] == [];
    assert Value(t[..1]) == DigitValue(t[0]);
    assert v == DigitValue(t[0]) * 10 + DigitValue(t[1]);
    assert DigitChar(DigitValue(t[0])) == t[0] && DigitChar(DigitValue(t[1])) == t[1];
    if v >= 10 {
      assert NatToString(v) == NatToString(v / 10) + [DigitChar(v % 10)];
      assert v / 10 == DigitValue(t[0]) && v % 10 == DigitValue(t[1]);
    }
  }

  /** With digits at positions 2 and 3: the fix leaves an IBAN unchanged
      exactly when it passes the check and its check digits are in 2..98. */
  lemma FixedIffValid(s: string)
    requires |s| >= 4 && NumeralSafe(s) && AllDigits(s[2..4])
    ensures FixSafe(s)
    ensures Fixed(s) == s <==> CheckHolds(s) && 2 <= Value(s[2..4]) <= 98
  {
    CheckValueSplit(s);
    var n, d := BodyValue(s), Value(s[2..4]);
    if Fixed(s) == s {
      FixedShape(s);
      FixedPassesCheck(s);
    }
    if CheckHolds(s) && 2 <= d <= 98 {
      CheckDigitsUnique(n, d);
      TwoDigitsOfValue(s[2..4]);
      SplitCheckDigits(s);
    }
  }

  /** Only one pair of check digits in 2..98 makes the sum 1 modulo 97. */
  lemma CheckDigitsUnique(n: nat, d: nat)
    requires (n + d) % 97 == 1 && 2 <= d <= 98
    ensures d == 98 - n % 97
  {
    var q, r := n / 97, n % 97;
    assert n + d == 97 * q + (r + d);
    assert (r + d) % 97 == 1;
  }

  /** Reducing digit by digit, `acc = (acc * 10 + digit) mod 97`. */
  function Mod97(d: string): nat
    requires AllDigits(d)
  {
    if |d| == 0 then 0 else (Mod97(d[..|d| - 1]) * 10 + DigitValue(d[|d| - 1])) % 97
  }

  /** The streaming reduction equals the remainder of the whole number. */
  lemma {:induction false} Mod97IsValueMod(d: string)
    requires AllDigits(d)
    ensures Mod97(d) == Value(d) % 97
  {
    if |d| > 0 {
      var init := d[..|d| - 1];
      Mod97IsValueMod(init);
      Mod97Steps(Value(init), DigitValue(d[|d| - 1]));
    }
  }
}
