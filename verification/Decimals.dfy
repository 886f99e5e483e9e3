/** Canonical text of a decimal numeral (src/creditlens/agents/auditor.py:846-854). */
module Decimals {

  predicate IsDigit(c: char) {
    '0' <= c <= '9'
  }

  predicate AllDigits(s: string) {
    forall i :: 0 <= i < |s| ==> IsDigit(s[i])
  }

  predicate IsSeparator(c: char) {
    c in {' ', '\t', '\n', '\r', ','}
  }

  /** The text without separators. */
  function Compact(raw: string): (s: string)
    ensures forall c :: c in s <==> c in raw && !IsSeparator(c)
    ensures |s| <= |raw| && (|s| == |raw| ==> s == raw)
  {
    if raw == "" then ""
    else
      assert raw == [raw[0]] + raw[1..];
      (if IsSeparator(raw[0]) then "" else [raw[0]]) + Compact(raw[1..])
  }

  /** Where the first dot is, or the length of the text. */
  function Dot(s: string): (k: nat)
    ensures k <= |s| && (k < |s| ==> s[k] == '.') && '.' !in s[..k]
  {
    if s == "" || s[0] == '.' then 0
    else
      var k := Dot(s[1..]);
      assert s[..k + 1] == [s[0]] + s[1..][..k];
      k + 1
  }

  function IntegerText(s: string): string {
    s[..Dot(s)]
  }

  function FractionText(s: string): string {
    if Dot(s) == |s| then "" else s[Dot(s) + 1..]
  }

  function TrimLeft(s: string): (t: string)
    ensures t == "" || t[0] != '0'
    ensures AllDigits(s) ==> AllDigits(t)
  {
    if s != "" && s[0] == '0' then TrimLeft(s[1..]) else s
  }

  function TrimRight(s: string): (t: string)
    ensures t == "" || t[|t| - 1] != '0'
    ensures AllDigits(s) ==> AllDigits(t)
  {
    if s != "" && s[|s| - 1] == '0' then TrimRight(s[..|s| - 1]) else s
  }

  function IntegerForm(s: string): string {
    if TrimLeft(s) == "" then "0" else TrimLeft(s)
  }

  function Assemble(integer: string, fraction: string): string {
    if fraction == "" then integer else integer + "." + fraction
  }

  /** _canonical_decimal. */
  function Canonical(raw: string): string {
    var compact := Compact(raw);
    Assemble(IntegerForm(IntegerText(compact)), TrimRight(FractionText(compact)))
  }

  // ---------------------------------------------------------------- what a numeral denotes

  function DigitValue(c: char): (d: nat)
    requires IsDigit(c)
    ensures d <= 9
  {
    c as int - '0' as int
  }

  function IntegerValue(s: string): nat
    requires AllDigits(s)
  {
    if s == "" then 0 else 10 * IntegerValue(s[..|s| - 1]) + DigitValue(s[|s| - 1])
  }

  function FractionValue(s: string): real
    requires AllDigits(s)
  {
    if s == "" then 0.0 else (DigitValue(s[0]) as real + FractionValue(s[1..])) / 10.0
  }

  /** A digit string with at most one dot in it, once separators are dropped. */
  predicate IsNumeral(raw: string) {
    AllDigits(IntegerText(Compact(raw))) && AllDigits(FractionText(Compact(raw)))
  }

  function Value(raw: string): real
    requires IsNumeral(raw)
  {
    IntegerValue(IntegerText(Compact(raw))) as real + FractionValue(FractionText(Compact(raw)))
  }

  // ---------------------------------------------------------------- trimming keeps the value

  lemma {:induction false} LeadingDigit(s: string)
    requires AllDigits(s) && s != ""
    ensures s[0] == '0' ==> IntegerValue(s) == IntegerValue(s[1..])
    ensures s[0] != '0' ==> IntegerValue(s) > 0
  {
    if |s| > 1 {
      LeadingDigit(s[..|s| - 1]);
      assert s[..|s| - 1][1..] == s[1..][..|s| - 2];
    }
  }

  lemma {:induction false} TrimLeftKeeps(s: string)
    requires AllDigits(s)
    ensures IntegerValue(TrimLeft(s)) == IntegerValue(s)
  {
    if s != "" && s[0] == '0' {
      LeadingDigit(s);
      TrimLeftKeeps(s[1..]);
    }
  }

  lemma {:induction false} TrailingZero(s: string)
    requires AllDigits(s) && s != "" && s[|s| - 1] == '0'
    ensures FractionValue(s[..|s| - 1]) == FractionValue(s)
  {
    if |s| > 1 {
      TrailingZero(s[1..]);
      assert s[1..][..|s| - 2] == s[..|s| - 1][1..];
    }
  }

  lemma {:induction false} TrimRightKeeps(s: string)
    requires AllDigits(s)
    ensures FractionValue(TrimRight(s)) == FractionValue(s)
  {
    if s != "" && s[|s| - 1] == '0' {
      TrailingZero(s);
      TrimRightKeeps(s[..|s| - 1]);
    }
  }

  lemma {:induction false} FractionBelowOne(s: string)
    requires AllDigits(s)
    ensures 0.0 <= FractionValue(s) < 1.0
  {
    if s != "" { FractionBelowOne(s[1..]); }
  }

  // ---------------------------------------------------------------- assembling and taking apart again

  lemma {:induction false} NothingToDrop(s: string)
    requires forall c :: c in s ==> !IsSeparator(c)
    ensures Compact(s) == s
  {
    if s != "" {
      assert forall c :: c in s[1..] ==> c in s;
      NothingToDrop(s[1..]);
    }
  }

  lemma {:induction false} DotAfterDigits(s: string, rest: string)
    requires AllDigits(s) && (rest == "" || rest[0] == '.')
    ensures Dot(s + rest) == |s|
  {
    if s != "" {
      assert (s + rest)[1..] == s[1..] + rest;
      DotAfterDigits(s[1..], rest);
    } else {
      assert s + rest == rest;
    }
  }

  lemma {:induction false} Reassembled(integer: string, fraction: string)
    requires AllDigits(integer) && AllDigits(fraction)
    ensures var s := Assemble(integer, fraction);
            Compact(s) == s && IntegerText(s) == integer && FractionText(s) == fraction && IsNumeral(s)
  {
    var s, rest := Assemble(integer, fraction), if fraction == "" then "" else "." + fraction;
    assert s == integer + rest;
    forall c | c in s ensures !IsSeparator(c) {
      var i :| 0 <= i < |s| && s[i] == c;
      if i < |integer| { assert IsDigit(integer[i]); }
      else if i > |integer| { assert c == fraction[i - |integer| - 1]; }
    }
    NothingToDrop(s);
    DotAfterDigits(integer, rest);
  }

  /** The canonical text in its two parts. */
  lemma {:induction false} CanonicalParts(raw: string)
    requires IsNumeral(raw)
    ensures var c := Canonical(raw);
            && Compact(c) == c && IsNumeral(c)
            && IntegerText(c) == IntegerForm(IntegerText(Compact(raw)))
            && FractionText(c) == TrimRight(FractionText(Compact(raw)))
  {
    Reassembled(IntegerForm(IntegerText(Compact(raw))), TrimRight(FractionText(Compact(raw))));
  }

  // ---------------------------------------------------------------- the normal form

  /** The canonical text is a numeral of the same value. */
  lemma {:induction false} CanonicalKeepsValue(raw: string)
    requires IsNumeral(raw)
    ensures IsNumeral(Canonical(raw)) && Value(Canonical(raw)) == Value(raw)
  {
    CanonicalParts(raw);
    TrimLeftKeeps(IntegerText(Compact(raw)));
    TrimRightKeeps(FractionText(Compact(raw)));
    assert IntegerValue("0") == 10 * IntegerValue("") + 0;
  }

  /** Digits without a leading zero: the number of digits and the digits follow from the value. */
  lemma {:induction false} SameInteger(s: string, t: string)
    requires AllDigits(s) && AllDigits(t) && IntegerValue(s) == IntegerValue(t)
    requires (s == "" || s[0] != '0') && (t == "" || t[0] != '0')
    ensures s == t
  {
    if s == "" || t == "" {
      if s != "" { LeadingDigit(s); }
      if t != "" { LeadingDigit(t); }
    } else {
      var front, back := s[..|s| - 1], t[..|t| - 1];
      assert IntegerValue(front) == IntegerValue(back);
      SameInteger(front, back);
      assert s == front + [s[|s| - 1]] && t == back + [t[|t| - 1]];
    }
  }

  /** Digits without a trailing zero: they follow from the value. */
  lemma {:induction false} SameFraction(s: string, t: string)
    requires AllDigits(s) && AllDigits(t) && FractionValue(s) == FractionValue(t)
    requires (s == "" || s[|s| - 1] != '0') && (t == "" || t[|t| - 1] != '0')
    ensures s == t
  {
    if s == "" || t == "" {
      if s != "" { PositiveFraction(s); }
      if t != "" { PositiveFraction(t); }
    } else {
      FractionBelowOne(s[1..]);
      FractionBelowOne(t[1..]);
      assert DigitValue(s[0]) as real + FractionValue(s[1..]) == DigitValue(t[0]) as real + FractionValue(t[1..]);
      assert DigitValue(s[0]) == DigitValue(t[0]);
      SameFraction(s[1..], t[1..]);
      assert s == [s[0]] + s[1..] && t == [t[0]] + t[1..];
    }
  }

  lemma {:induction false} PositiveFraction(s: string)
    requires AllDigits(s) && s != "" && s[|s| - 1] != '0'
    ensures FractionValue(s) > 0.0
  {
    if |s| > 1 { PositiveFraction(s[1..]); }
  }

  lemma {:induction false} WholeAndFraction(m: nat, n: nat, x: real, y: real)
    requires 0.0 <= x < 1.0 && 0.0 <= y < 1.0 && m as real + x == n as real + y
    ensures m == n && x == y
  {
    assert -1.0 < (m - n) as real < 1.0;
  }

  lemma {:induction false} SameForms(i: string, j: string, f: string, g: string)
    requires AllDigits(i) && AllDigits(j) && AllDigits(f) && AllDigits(g)
    requires IntegerValue(i) == IntegerValue(j) && FractionValue(f) == FractionValue(g)
    ensures IntegerForm(i) == IntegerForm(j) && TrimRight(f) == TrimRight(g)
  {
    TrimLeftKeeps(i);
    TrimLeftKeeps(j);
    TrimRightKeeps(f);
    TrimRightKeeps(g);
    SameInteger(TrimLeft(i), TrimLeft(j));
    SameFraction(TrimRight(f), TrimRight(g));
  }

  /** Two numerals get the same canonical text exactly when they denote the same value. */
  lemma {:induction false} CanonicalDecidesEquality(a: string, b: string)
    requires IsNumeral(a) && IsNumeral(b)
    ensures Canonical(a) == Canonical(b) <==> Value(a) == Value(b)
  {
    CanonicalKeepsValue(a);
    CanonicalKeepsValue(b);
    if Value(a) == Value(b) {
      var i, j := IntegerText(Compact(a)), IntegerText(Compact(b));
      var f, g := FractionText(Compact(a)), FractionText(Compact(b));
      FractionBelowOne(f);
      FractionBelowOne(g);
      WholeAndFraction(IntegerValue(i), IntegerValue(j), FractionValue(f), FractionValue(g));
      SameForms(i, j, f, g);
    }
  }

  lemma {:induction false} CanonicalIsIdempotent(raw: string)
    requires IsNumeral(raw)
    ensures Canonical(Canonical(raw)) == Canonical(raw)
  {
    CanonicalKeepsValue(raw);
    CanonicalDecidesEquality(Canonical(raw), raw);
  }

  // ---------------------------------------------------------------- natural numbers as text

  function DigitChar(d: nat): (c: char)
    requires d <= 9
    ensures IsDigit(c) && DigitValue(c) == d
  {
    d as char + '0'
  }

  lemma {:induction false} OneDigitMore(s: string, d: nat)
    requires AllDigits(s) && d <= 9
    ensures AllDigits(s + [DigitChar(d)]) && IntegerValue(s + [DigitChar(d)]) == 10 * IntegerValue(s) + d
  {
    assert (s + [DigitChar(d)])[..|s|] == s;
  }

  /** str(n). */
  function ToText(n: nat): (s: string)
    ensures s != "" && AllDigits(s) && IntegerValue(s) == n
  {
    var front := if n < 10 then "" else ToText(n / 10);
    OneDigitMore(front, n % 10);
    front + [DigitChar(n % 10)]
  }

  lemma {:induction false} WholeNumberParts(s: string)
    requires AllDigits(s)
    ensures IsNumeral(s) && Value(s) == IntegerValue(s) as real && Compact(s) == s && IntegerText(s) == s
            && FractionText(s) == ""
  {
    Reassembled(s, "");
  }
}
