/** Reading Chinese numerals (src/creditlens/agents/auditor.py:771-787, 863-899). */
module ChineseNumerals {
  import opened Common
  import opened Decimals

  // ---------------------------------------------------------------- the characters

  const ZERO := '\U{96F6}'
  const POINT := '\U{70B9}'
  const TEN := '\U{5341}'
  const HUNDRED := '\U{767E}'
  const THOUSAND := '\U{5343}'

  /** _CHINESE_DIGITS: three ways to write 0, two ways to write 2. */
  const DIGITS: map<char, nat> := map[
    ZERO := 0, '\U{3007}' := 0, '\U{25CB}' := 0, '\U{4E00}' := 1, '\U{4E8C}' := 2, '\U{4E24}' := 2, '\U{4E09}' := 3,
    '\U{56DB}' := 4, '\U{4E94}' := 5, '\U{516D}' := 6, '\U{4E03}' := 7, '\U{516B}' := 8, '\U{4E5D}' := 9]

  /** _CHINESE_SMALL_UNITS. */
  const UNITS: map<char, nat> := map[TEN := 10, HUNDRED := 100, THOUSAND := 1000]

  predicate IsHanDigit(c: char) {
    c in DIGITS
  }

  predicate IsUnit(c: char) {
    c in UNITS
  }

  function Digit(c: char): (d: nat)
    requires IsHanDigit(c)
    ensures d <= 9
  {
    DIGITS[c]
  }

  function Unit(c: char): (u: nat)
    requires IsUnit(c)
    ensures u == 10 || u == 100 || u == 1000
    ensures !IsHanDigit(c)
  {
    UNITS[c]
  }

  // ---------------------------------------------------------------- what the automaton tallies and what a text denotes

  /** Digits and units only; units strictly decrease; a digit right before a digit is a zero. */
  ghost predicate Grammatical(s: string) {
    && (forall i :: 0 <= i < |s| ==> IsHanDigit(s[i]) || IsUnit(s[i]))
    && (forall i, j :: 0 <= i < j < |s| && IsUnit(s[i]) && IsUnit(s[j]) ==> Unit(s[i]) > Unit(s[j]))
    && (forall i, j :: 0 <= i < j < |s| && j == i + 1 && IsHanDigit(s[i]) && IsHanDigit(s[j]) ==> Digit(s[i]) == 0)
  }

  /** What the last character says as a digit. */
  function Trailing(s: string): nat {
    if s != "" && IsHanDigit(s[|s| - 1]) then Digit(s[|s| - 1]) else 0
  }

  /** How often the automaton counts the unit that follows s: as the digit before it says, a zero included, or once. */
  function Coefficient(s: string): nat {
    if s != "" && IsHanDigit(s[|s| - 1]) then Digit(s[|s| - 1]) else 1
  }

  /** Every unit times its coefficient. */
  function UnitsValue(s: string): nat {
    if s == "" then 0
    else
      var front, last := s[..|s| - 1], s[|s| - 1];
      UnitsValue(front) + if IsUnit(last) then Coefficient(front) * Unit(last) else 0
  }

  /** The value the automaton arrives at. */
  function Tally(s: string): nat {
    UnitsValue(s) + Trailing(s)
  }

  /** How often the unit that follows s is meant to count: a zero before it only marks an empty place. */
  function Meant(s: string): nat {
    if s != "" && IsHanDigit(s[|s| - 1]) && Digit(s[|s| - 1]) != 0 then Digit(s[|s| - 1]) else 1
  }

  function MeantUnits(s: string): nat {
    if s == "" then 0
    else
      var front, last := s[..|s| - 1], s[|s| - 1];
      MeantUnits(front) + if IsUnit(last) then Meant(front) * Unit(last) else 0
  }

  /** What the last character is meant as: right after a unit it counts the next smaller place, so that one hundred, two
      is 120; after a zero it counts ones. */
  function Ones(s: string): nat {
    if |s| >= 2 && IsHanDigit(s[|s| - 1]) && IsUnit(s[|s| - 2]) then Digit(s[|s| - 1]) * (Unit(s[|s| - 2]) / 10)
    else Trailing(s)
  }

  /** What the text denotes. */
  function Denotes(s: string): nat {
    MeantUnits(s) + Ones(s)
  }

  /** The text ends in a digit, other than zero, right after a hundred or a thousand: its place is left out. */
  predicate Elliptic(s: string) {
    && |s| >= 2 && IsHanDigit(s[|s| - 1]) && Digit(s[|s| - 1]) != 0
    && IsUnit(s[|s| - 2]) && Unit(s[|s| - 2]) > 10
  }

  /** The i-th character is a unit, right after a zero. */
  predicate ZeroBefore(s: string, i: nat) {
    0 < i < |s| && IsUnit(s[i]) && IsHanDigit(s[i - 1]) && Digit(s[i - 1]) == 0
  }

  predicate NoZeroBeforeUnit(s: string) {
    forall i: nat :: i < |s| ==> !ZeroBefore(s, i)
  }

  lemma {:induction false} OneMoreIsZeroFree(s: string)
    requires s != ""
    ensures NoZeroBeforeUnit(s) <==> NoZeroBeforeUnit(s[..|s| - 1]) && !ZeroBefore(s, |s| - 1)
  {
    var front := s[..|s| - 1];
    forall i: nat | i < |front| ensures ZeroBefore(front, i) <==> ZeroBefore(s, i) {
    }
  }

  /** The automaton never overcounts a unit, and counts all of them right exactly if none comes right after a zero. */
  lemma {:induction false} UnitsAreRight(s: string)
    ensures UnitsValue(s) <= MeantUnits(s)
    ensures UnitsValue(s) == MeantUnits(s) <==> NoZeroBeforeUnit(s)
  {
    if s != "" {
      var front, last := s[..|s| - 1], s[|s| - 1];
      UnitsAreRight(front);
      OneMoreIsZeroFree(s);
      if IsUnit(last) { UnitCountedRight(front, last); }
      assert front != "" ==> s[|s| - 2] == front[|front| - 1];
    }
  }

  lemma {:induction false} OnesAreRight(s: string)
    ensures Trailing(s) <= Ones(s)
    ensures Trailing(s) == Ones(s) <==> !Elliptic(s)
  {
  }

  /** The automaton never arrives at more than the text denotes, and arrives at just that exactly if no unit comes right
      after a zero and no place is left out at the end. */
  lemma {:induction false} TallyIsRight(s: string)
    ensures Tally(s) <= Denotes(s)
    ensures Tally(s) == Denotes(s) <==> NoZeroBeforeUnit(s) && !Elliptic(s)
  {
    UnitsAreRight(s);
    OnesAreRight(s);
  }

  lemma {:induction false} UnitCountedRight(front: string, last: char)
    requires IsUnit(last)
    ensures Coefficient(front) * Unit(last) <= Meant(front) * Unit(last)
    ensures Coefficient(front) * Unit(last) == Meant(front) * Unit(last)
       <==> !(front != "" && IsHanDigit(front[|front| - 1]) && Digit(front[|front| - 1]) == 0)
  {
  }

  /** The last unit of s, or 10000 before the first. */
  function LastUnit(s: string): (u: nat)
    ensures u == 10 || u == 100 || u == 1000 || u == 10000
  {
    if s == "" then 10000
    else if IsUnit(s[|s| - 1]) then Unit(s[|s| - 1])
    else LastUnit(s[..|s| - 1])
  }

  lemma {:induction false} LastUnitIsLeast(s: string)
    requires Grammatical(s)
    ensures forall i :: 0 <= i < |s| && IsUnit(s[i]) ==> Unit(s[i]) >= LastUnit(s)
    ensures LastUnit(s) != 10000 ==> exists i :: 0 <= i < |s| && IsUnit(s[i]) && Unit(s[i]) == LastUnit(s)
  {
    if s != "" {
      GrammaticalPrefix(s);
      LastUnitIsLeast(s[..|s| - 1]);
      if IsUnit(s[|s| - 1]) { assert Unit(s[|s| - 1]) == LastUnit(s); }
    }
  }

  lemma {:induction false} GrammaticalPrefix(s: string)
    requires Grammatical(s) && s != ""
    ensures Grammatical(s[..|s| - 1])
  {
    var front := s[..|s| - 1];
    forall i, j | 0 <= i < j < |front| && IsUnit(front[i]) && IsUnit(front[j]) ensures Unit(front[i]) > Unit(front[j]) {
      assert front[i] == s[i] && front[j] == s[j];
    }
    forall i, j | 0 <= i < j < |front| && j == i + 1 && IsHanDigit(front[i]) && IsHanDigit(front[j])
      ensures Digit(front[i]) == 0
    {
      assert front[i] == s[i] && front[j] == s[j];
    }
  }

  /** What one character more needs: a digit no digit but zero before it, a unit to be below the last one. */
  predicate MayFollow(front: string, c: char) {
    && (IsHanDigit(c) || IsUnit(c))
    && (IsHanDigit(c) && front != "" && IsHanDigit(front[|front| - 1]) ==> Digit(front[|front| - 1]) == 0)
    && (IsUnit(c) ==> Unit(c) < LastUnit(front))
  }

  lemma {:induction false} LastMayFollow(s: string)
    requires Grammatical(s) && s != ""
    ensures MayFollow(s[..|s| - 1], s[|s| - 1])
  {
    GrammaticalPrefix(s);
    LastUnitIsLeast(s[..|s| - 1]);
  }

  lemma {:induction false} FollowedIsGrammatical(front: string, c: char)
    requires Grammatical(front) && MayFollow(front, c)
    ensures Grammatical(front + [c])
  {
    LastUnitIsLeast(front);
    var s := front + [c];
    forall i, j | 0 <= i < j < |s| && IsUnit(s[i]) && IsUnit(s[j]) ensures Unit(s[i]) > Unit(s[j]) {
      if j == |front| { assert Unit(front[i]) >= LastUnit(front); }
    }
  }

  lemma {:induction false} OneCharacterMore(s: string)
    requires s != ""
    ensures Grammatical(s) <==> Grammatical(s[..|s| - 1]) && MayFollow(s[..|s| - 1], s[|s| - 1])
  {
    var front, last := s[..|s| - 1], s[|s| - 1];
    if Grammatical(s) {
      GrammaticalPrefix(s);
      LastMayFollow(s);
    }
    if Grammatical(front) && MayFollow(front, last) {
      FollowedIsGrammatical(front, last);
      assert s == front + [last];
    }
  }

  /** The units of a numeral leave room below the last one: the integer part stays below 10000 at any length. */
  lemma {:induction false} UnitsAreBounded(s: string)
    requires Grammatical(s)
    ensures UnitsValue(s) + LastUnit(s) <= 10000
  {
    if s != "" {
      OneCharacterMore(s);
      UnitsAreBounded(s[..|s| - 1]);
    }
  }

  lemma {:induction false} TallyBelowTenThousand(s: string)
    requires Grammatical(s)
    ensures (exists c :: c in s && IsUnit(c)) ==> Tally(s) < 10000
  {
    UnitsAreBounded(s);
    LastUnitIsLeast(s);
    if c :| c in s && IsUnit(c) {
      var i :| 0 <= i < |s| && s[i] == c;
      assert LastUnit(s) <= Unit(c);
    }
  }

  // ---------------------------------------------------------------- reading

  predicate HasUnit(s: string) {
    exists c :: c in s && IsUnit(c)
  }

  predicate AllHanDigits(s: string) {
    forall i :: 0 <= i < |s| ==> IsHanDigit(s[i])
  }

  /** The digits in ASCII. */
  function Ascii(s: string): (t: string)
    requires AllHanDigits(s)
    ensures |t| == |s| && AllDigits(t)
  {
    seq(|s|, i requires 0 <= i < |s| => DigitChar(Digit(s[i])))
  }

  ghost function ReadInteger(s: string): Option<nat> {
    if HasUnit(s) then if Grammatical(s) then Some(Tally(s)) else None
    else if AllHanDigits(s) then Some(IntegerValue(Ascii(s)))
    else None
  }

  function PointAt(s: string): (k: nat)
    ensures k <= |s| && (k < |s| ==> s[k] == POINT) && POINT !in s[..k]
  {
    if s == "" || s[0] == POINT then 0
    else
      var k := PointAt(s[1..]);
      assert s[..k + 1] == [s[0]] + s[1..][..k];
      k + 1
  }

  /** A text without a point. */
  ghost function ReadWhole(s: string): Option<string> {
    if s == "" || ReadInteger(s).None? then None else Some(ToText(ReadInteger(s).value))
  }

  /** The canonical text of a number with a fraction. */
  function Pointed(n: nat, fraction: string): string {
    Canonical(ToText(n) + "." + fraction)
  }

  /** The two sides of a point. */
  ghost function ReadParts(integer: string, fraction: string): Option<string> {
    if integer == "" || fraction == "" || ReadInteger(integer).None? || !AllHanDigits(fraction) then None
    else Some(Pointed(ReadInteger(integer).value, Ascii(fraction)))
  }

  /** What _canonical_chinese_number returns. */
  ghost function Read(raw: string): Option<string> {
    var k := PointAt(raw);
    if k == |raw| then ReadWhole(raw) else ReadParts(raw[..k], raw[k + 1..])
  }

  // ---------------------------------------------------------------- the automaton

  /** The state of the unit loop after i characters. */
  ghost predicate Tracks(s: string, i: nat, total: nat, pending: Option<nat>, previous: nat)
    requires i <= |s|
  {
    && Grammatical(s[..i]) && total == UnitsValue(s[..i]) && previous == LastUnit(s[..i])
    && pending == if i > 0 && IsHanDigit(s[i - 1]) then Some(Digit(s[i - 1])) else None
  }

  /** One turn of the loop: a character that may not follow ends it, a digit waits, a unit is added. */
  lemma {:induction false} OneTurn(s: string, i: nat, total: nat, pending: Option<nat>, previous: nat)
    requires i < |s| && Tracks(s, i, total, pending, previous)
    ensures var c := s[i];
            var refused := if IsHanDigit(c) then pending.Some? && pending.value != 0
                else !IsUnit(c) || Unit(c) >= previous;
            && (refused ==> !Grammatical(s))
            && (!refused && IsHanDigit(c) ==> Tracks(s, i + 1, total, Some(Digit(c)), previous))
            && (!refused && !IsHanDigit(c) ==>
                  Tracks(s, i + 1, total + (if pending.None? then 1 else pending.value) * Unit(c), None, Unit(c)))
  {
    assert s[..i + 1][..i] == s[..i];
    OneCharacterMore(s[..i + 1]);
    if !MayFollow(s[..i], s[i]) { NotGrammatical(s, i + 1); }
  }

  lemma {:induction false} SettingOut(s: string)
    ensures Tracks(s, 0, 0, None, 10000)
  {
    assert s[..0] == "";
  }

  lemma {:induction false} Arrived(s: string, total: nat, pending: Option<nat>, previous: nat)
    requires Tracks(s, |s|, total, pending, previous)
    ensures Grammatical(s) && Tally(s) == total + if pending.Some? then pending.value else 0
  {
    assert s[..|s|] == s;
  }

  /** The unit loop: it stops at the first character that breaks the grammar. */
  method ReadWithUnits(s: string) returns (r: Option<nat>)
    ensures r == if Grammatical(s) then Some(Tally(s)) else None
  {
    var total: nat, pending: Option<nat>, previous: nat := 0, None, 10000;
    SettingOut(s);
    for i := 0 to |s|
      invariant Tracks(s, i, total, pending, previous)
    {
      var c := s[i];
      OneTurn(s, i, total, pending, previous);
      if IsHanDigit(c) {
        if pending.Some? && pending.value != 0 { return None; }
        pending := Some(Digit(c));
      } else {
        if !IsUnit(c) || Unit(c) >= previous { return None; }
        total := total + (if pending.None? then 1 else pending.value) * Unit(c);
        pending, previous := None, Unit(c);
      }
    }
    Arrived(s, total, pending, previous);
    r := Some(total + if pending.Some? then pending.value else 0);
  }

  lemma {:induction false} NotGrammatical(s: string, k: nat)
    requires k <= |s| && !Grammatical(s[..k])
    ensures !Grammatical(s)
  {
    if Grammatical(s) { PrefixIsGrammatical(s, k); }
  }

  lemma {:induction false} PrefixIsGrammatical(s: string, k: nat)
    requires k <= |s| && Grammatical(s)
    ensures Grammatical(s[..k])
    decreases |s|
  {
    if k < |s| {
      GrammaticalPrefix(s);
      assert s[..|s| - 1][..k] == s[..k];
      PrefixIsGrammatical(s[..|s| - 1], k);
    } else {
      assert s[..k] == s;
    }
  }

  /** Digit by digit, without units. */
  method ReadDigits(s: string) returns (r: Option<string>)
    ensures r == if AllHanDigits(s) then Some(Ascii(s)) else None
  {
    var text := "";
    for i := 0 to |s|
      invariant AllHanDigits(s[..i]) && text == Ascii(s[..i])
    {
      if !IsHanDigit(s[i]) { return None; }
      text := text + [DigitChar(Digit(s[i]))];
    }
    assert s[..|s|] == s;
    r := Some(text);
  }

  method ReadIntegerPart(s: string) returns (r: Option<nat>)
    ensures r == ReadInteger(s)
  {
    if exists c :: c in s && IsUnit(c) {
      r := ReadWithUnits(s);
    } else {
      var digits := ReadDigits(s);
      r := if digits.Some? then Some(IntegerValue(digits.value)) else None;
    }
  }

  lemma {:induction false} SideMissing(raw: string)
    requires raw == "" || PointAt(raw) == 0 || PointAt(raw) == |raw| - 1
    ensures Read(raw) == None
  {
  }

  lemma {:induction false} IntegerIsThere(raw: string)
    requires raw != "" && PointAt(raw) > 0
    ensures ReadInteger(raw[..PointAt(raw)]).None? ==> Read(raw) == None
    ensures PointAt(raw) == |raw| && ReadInteger(raw[..|raw|]).Some?
            ==> Read(raw) == Some(ToText(ReadInteger(raw[..|raw|]).value))
  {
    assert raw[..|raw|] == raw;
  }

  lemma {:induction false} FractionIsThere(raw: string, n: nat)
    requires 0 < PointAt(raw) < |raw| - 1 && ReadInteger(raw[..PointAt(raw)]) == Some(n)
    ensures var fraction := raw[PointAt(raw) + 1..];
            Read(raw) == if AllHanDigits(fraction) then Some(Pointed(n, Ascii(fraction))) else None
  {
    AtPoint(raw);
    PartsAreThere(raw[..PointAt(raw)], raw[PointAt(raw) + 1..], n);
  }

  lemma {:induction false} AtPoint(raw: string)
    requires PointAt(raw) < |raw|
    ensures Read(raw) == ReadParts(raw[..PointAt(raw)], raw[PointAt(raw) + 1..])
  {
  }

  lemma {:induction false} PartsAreThere(integer: string, fraction: string, n: nat)
    requires integer != "" && fraction != "" && ReadInteger(integer) == Some(n)
    ensures ReadParts(integer, fraction) == if AllHanDigits(fraction) then Some(Pointed(n, Ascii(fraction))) else None
  {
  }

  /** _canonical_chinese_number. */
  method CanonicalChineseNumber(raw: string) returns (r: Option<string>)
    ensures r == Read(raw)
  {
    var k := PointAt(raw);
    if raw == "" || k == 0 || k == |raw| - 1 {
      SideMissing(raw);
      return None;
    }
    var integer := ReadIntegerPart(raw[..k]);
    IntegerIsThere(raw);
    if integer.None? { return None; }
    if k == |raw| { return Some(ToText(integer.value)); }
    var fraction := ReadDigits(raw[k + 1..]);
    FractionIsThere(raw, integer.value);
    if fraction.None? { return None; }
    r := Some(Pointed(integer.value, fraction.value));
  }

  // ---------------------------------------------------------------- what an accepted text denotes

  lemma {:induction false} FractionReads(n: nat, fraction: string)
    requires AllDigits(fraction) && fraction != ""
    ensures var text := Pointed(n, fraction);
            IsNumeral(text) && Value(text) == n as real + FractionValue(fraction)
  {
    Reassembled(ToText(n), fraction);
    assert Assemble(ToText(n), fraction) == ToText(n) + "." + fraction;
    CanonicalKeepsValue(ToText(n) + "." + fraction);
  }

  /** What an integer part denotes: with units as above, else digit by digit. */
  ghost function IntegerDenotes(s: string): nat {
    if HasUnit(s) then Denotes(s) else if AllHanDigits(s) then IntegerValue(Ascii(s)) else 0
  }

  /** Nothing in the text is misread: no unit comes right after a zero, and no place is left out at the end. */
  predicate Plain(s: string) {
    NoZeroBeforeUnit(s) && !Elliptic(s)
  }

  /** An integer part that is accepted is read as what it denotes exactly if it is plain; it is never read as more. */
  lemma {:induction false} IntegerReadRight(s: string)
    requires ReadInteger(s).Some?
    ensures ReadInteger(s).value <= IntegerDenotes(s)
    ensures ReadInteger(s).value == IntegerDenotes(s) <==> Plain(s)
  {
    if HasUnit(s) {
      TallyIsRight(s);
    } else {
      forall i: nat | i < |s| ensures !IsUnit(s[i]) { assert s[i] in s; }
    }
  }

  /** A text without a point that is accepted is read as the number it denotes, exactly if it is plain. */
  lemma {:induction false} WholeDenotes(raw: string)
    requires Read(raw).Some? && PointAt(raw) == |raw|
    ensures IsNumeral(Read(raw).value)
    ensures Value(Read(raw).value) <= IntegerDenotes(raw) as real
    ensures Value(Read(raw).value) == IntegerDenotes(raw) as real <==> Plain(raw)
    ensures ReadInteger(raw).Some? && Value(Read(raw).value) == ReadInteger(raw).value as real
    ensures HasUnit(raw) ==> ReadInteger(raw).value < 10000
  {
    WholeNumberParts(ToText(ReadInteger(raw).value));
    IntegerReadRight(raw);
    if HasUnit(raw) { TallyBelowTenThousand(raw); }
  }

  /** A text with a point is accepted exactly if both parts are there and can be read. */
  lemma {:induction false} FractionParts(raw: string)
    requires Read(raw).Some? && PointAt(raw) < |raw|
    ensures var k := PointAt(raw);
            && ReadInteger(raw[..k]).Some? && AllHanDigits(raw[k + 1..]) && raw[k + 1..] != ""
            && Read(raw).value == Pointed(ReadInteger(raw[..k]).value, Ascii(raw[k + 1..]))
  {
  }

  /** The text is the sum of what the integer part is read as and of the fraction, which is what the two sides denote
      exactly if the integer part is plain; with units the integer part is below 10000. */
  ghost predicate SumsUp(integer: string, fraction: string, text: string)
    requires AllHanDigits(fraction)
  {
    match ReadInteger(integer)
    case Some(n) =>
      && IsNumeral(text) && Value(text) == n as real + FractionValue(Ascii(fraction))
      && (Value(text) == IntegerDenotes(integer) as real + FractionValue(Ascii(fraction)) <==> Plain(integer))
      && (HasUnit(integer) ==> n < 10000)
    case None => false
  }

  lemma {:induction false} PartsDenote(integer: string, fraction: string, text: string)
    requires ReadInteger(integer).Some? && AllHanDigits(fraction) && fraction != ""
    requires text == Pointed(ReadInteger(integer).value, Ascii(fraction))
    ensures SumsUp(integer, fraction, text)
  {
    FractionReads(ReadInteger(integer).value, Ascii(fraction));
    IntegerReadRight(integer);
    UnitsStayBelow(integer);
  }

  /** A text with a point that is accepted is read as what its integer part denotes plus its decimal fraction, exactly
      if the integer part is plain. */
  lemma {:induction false} FractionDenotes(raw: string)
    requires Read(raw).Some? && PointAt(raw) < |raw|
    ensures AllHanDigits(raw[PointAt(raw) + 1..])
    ensures SumsUp(raw[..PointAt(raw)], raw[PointAt(raw) + 1..], Read(raw).value)
  {
    FractionParts(raw);
    PartsDenote(raw[..PointAt(raw)], raw[PointAt(raw) + 1..], Read(raw).value);
  }

  lemma {:induction false} UnitsStayBelow(s: string)
    requires ReadInteger(s).Some?
    ensures HasUnit(s) ==> ReadInteger(s).value < 10000
  {
    if HasUnit(s) { TallyBelowTenThousand(s); }
  }

  // ---------------------------------------------------------------- writing and reading back

  function HanDigit(d: nat): (c: char)
    requires d <= 9
    ensures IsHanDigit(c) && Digit(c) == d && !IsUnit(c) && c != POINT
  {
    match d
    case 0 => ZERO
    case 1 => '\U{4E00}'
    case 2 => '\U{4E8C}'
    case 3 => '\U{4E09}'
    case 4 => '\U{56DB}'
    case 5 => '\U{4E94}'
    case 6 => '\U{516D}'
    case 7 => '\U{4E03}'
    case 8 => '\U{516B}'
    case _ => '\U{4E5D}'
  }

  /** ASCII digits written in Chinese. */
  function Han(t: string): (s: string)
    requires AllDigits(t)
    ensures |s| == |t| && AllHanDigits(s) && Ascii(s) == t && !HasUnit(s) && POINT !in s
  {
    seq(|t|, i requires 0 <= i < |t| => HanDigit(DigitValue(t[i])))
  }

  lemma {:induction false} NoPoint(s: string, rest: string)
    requires POINT !in s && (rest == "" || rest[0] == POINT)
    ensures PointAt(s + rest) == |s|
  {
    if s != "" {
      assert (s + rest)[1..] == s[1..] + rest;
      assert s[0] in s && forall c :: c in s[1..] ==> c in s;
      NoPoint(s[1..], rest);
    } else {
      assert s + rest == rest;
    }
  }

  lemma {:induction false} ReadAtPoint(s: string, fraction: string)
    requires POINT !in s
    ensures Read(s + [POINT] + fraction) == ReadParts(s, fraction)
  {
    var raw := s + [POINT] + fraction;
    NoPoint(s, [POINT] + fraction);
    assert raw == s + ([POINT] + fraction);
    assert raw[..|s|] == s && raw[|s| + 1..] == fraction;
  }

  /** A text for an integer, alone or followed by a point and digits. */
  lemma {:induction false} TextReadsBack(s: string, n: nat, fraction: string)
    requires s != "" && POINT !in s && ReadInteger(s) == Some(n) && AllDigits(fraction)
    ensures Read(s) == Some(ToText(n))
    ensures fraction != "" ==> Read(s + [POINT] + Han(fraction)) == Some(Pointed(n, fraction))
  {
    NoPoint(s, "");
    assert s + "" == s;
    if fraction != "" {
      ReadAtPoint(s, Han(fraction));
    }
  }

  /** Any natural number written digit by digit, with any decimal fraction, is read back as itself. */
  lemma {:induction false} DigitByDigitReadsBack(n: nat, fraction: string)
    requires AllDigits(fraction)
    ensures Read(Han(ToText(n))) == Some(ToText(n))
    ensures fraction != ""
            ==> Read(Han(ToText(n)) + [POINT] + Han(fraction)) == Some(Pointed(n, fraction))
  {
    TextReadsBack(Han(ToText(n)), n, fraction);
  }

  /** d times a unit; in front of everything else a single ten may stand alone. */
  function WithUnit(s: string, d: nat, unit: char, short: bool): string
    requires d <= 9
  {
    if d == 1 && s == "" && short then [unit] else s + [HanDigit(d), unit]
  }

  function Hundreds(a: nat, b: nat, rest: nat): string
    requires a <= 9 && b <= 9
  {
    ThenHundreds(Thousands(a), b, rest)
  }

  function Thousands(a: nat): string
    requires a <= 9
  {
    if a > 0 then WithUnit("", a, THOUSAND, false) else ""
  }

  function ThenHundreds(s: string, b: nat, rest: nat): string
    requires b <= 9
  {
    if b > 0 then WithUnit(s, b, HUNDRED, false) else if s != "" && rest > 0 then s + [ZERO] else s
  }

  function Tens(s: string, b: nat, c: nat, d: nat, short: bool): string
    requires c <= 9
  {
    if c > 0 then WithUnit(s, c, TEN, short) else if b > 0 && d > 0 then s + [ZERO] else s
  }

  /** A number below 10000 with its units: one zero for a gap, none at the end. */
  function Spell(n: nat, short: bool): string
    requires n < 10000
  {
    var (a, b, c, d) := Places(n);
    FromPlaces(a, b, c, d, short)
  }

  function FromPlaces(a: nat, b: nat, c: nat, d: nat, short: bool): string
    requires a <= 9 && b <= 9 && c <= 9 && d <= 9
  {
    WithDigit(UpToTens(a, b, c, d, short), d)
  }

  function UpToTens(a: nat, b: nat, c: nat, d: nat, short: bool): string
    requires a <= 9 && b <= 9 && c <= 9
  {
    Tens(Hundreds(a, b, c + d), b, c, d, short)
  }

  /** The decimal places of n: thousands, hundreds, tens, ones. */
  function Places(n: nat): (p: (nat, nat, nat, nat))
    requires n < 10000
    ensures p.0 <= 9 && p.1 <= 9 && p.2 <= 9 && p.3 <= 9 && n == p.0 * 1000 + p.1 * 100 + p.2 * 10 + p.3
  {
    var tens := n / 10;
    var hundreds := tens / 10;
    (hundreds / 10, hundreds % 10, tens % 10, n % 10)
  }

  function WithDigit(s: string, d: nat): string
    requires d <= 9
  {
    if d > 0 || s == "" then s + [HanDigit(d)] else s
  }

  /** A grammatical text that a digit or unit may follow, with the value it has so far. */
  ghost predicate Stands(s: string, value: nat, room: nat) {
    && Grammatical(s) && Trailing(s) == 0 && UnitsValue(s) == MeantUnits(s) == value && LastUnit(s) >= room
    && POINT !in s
  }

  lemma {:induction false} AddZero(s: string, value: nat, room: nat)
    requires Stands(s, value, room)
    ensures Stands(s + [ZERO], value, room)
  {
    var t := s + [ZERO];
    assert t[..|t| - 1] == s;
    OneCharacterMore(t);
  }

  lemma {:induction false} AddDigit(s: string, d: nat, value: nat, room: nat)
    requires Stands(s, value, room) && d <= 9
    ensures var t := s + [HanDigit(d)];
            && Grammatical(t) && Trailing(t) == d && UnitsValue(t) == MeantUnits(t) == value
            && LastUnit(t) == LastUnit(s) && POINT !in t && Tally(t) == value + d
  {
    var t := s + [HanDigit(d)];
    assert t[..|t| - 1] == s;
    OneCharacterMore(t);
  }

  lemma {:induction false} AddUnit(s: string, d: nat, unit: char, short: bool, value: nat, room: nat)
    requires Stands(s, value, room) && 0 < d <= 9 && IsUnit(unit) && Unit(unit) < room
    ensures Stands(WithUnit(s, d, unit, short), value + d * Unit(unit), Unit(unit))
  {
    var t := WithUnit(s, d, unit, short);
    if d == 1 && s == "" && short {
      assert t[..|t| - 1] == "";
      OneCharacterMore(t);
    } else {
      AddDigit(s, d, value, room);
      assert t[..|t| - 1] == s + [HanDigit(d)];
      OneCharacterMore(t);
    }
  }

  lemma {:induction false} HundredsStand(a: nat, b: nat, rest: nat)
    requires a <= 9 && b <= 9
    ensures Stands(Hundreds(a, b, rest), a * 1000 + b * 100, 100)
    ensures a > 0 || b > 0 ==> HasUnit(Hundreds(a, b, rest))
  {
    ThousandsStand(a);
    HundredsAfter(Thousands(a), a * 1000, b, rest);
  }

  lemma {:induction false} ThousandsStand(a: nat)
    requires a <= 9
    ensures Stands(Thousands(a), a * 1000, 1000) && (a > 0 ==> HasUnit(Thousands(a)))
  {
    NothingStands();
    if a > 0 {
      AddUnit("", a, THOUSAND, false, 0, 10000);
      assert Thousands(a)[1] == THOUSAND && IsUnit(THOUSAND);
    }
  }

  lemma {:induction false} NothingStands()
    ensures Stands("", 0, 10000)
  {
  }

  lemma {:induction false} HundredsAfter(s: string, value: nat, b: nat, rest: nat)
    requires Stands(s, value, 1000) && b <= 9
    ensures Stands(ThenHundreds(s, b, rest), value + b * 100, 100)
    ensures b > 0 || HasUnit(s) ==> HasUnit(ThenHundreds(s, b, rest))
  {
    var t := ThenHundreds(s, b, rest);
    if b > 0 {
      AddUnit(s, b, HUNDRED, false, value, 1000);
      assert t[|t| - 1] == HUNDRED && IsUnit(HUNDRED);
    } else if s != "" && rest > 0 {
      AddZero(s, value, 1000);
      assert forall x :: x in s ==> x in t;
    }
  }

  lemma {:induction false} TensStand(s: string, b: nat, c: nat, d: nat, short: bool, value: nat)
    requires Stands(s, value, 100) && c <= 9
    ensures Stands(Tens(s, b, c, d, short), value + c * 10, 10)
    ensures c > 0 || HasUnit(s) ==> HasUnit(Tens(s, b, c, d, short))
  {
    var t := Tens(s, b, c, d, short);
    if c > 0 {
      AddUnit(s, c, TEN, short, value, 100);
      assert t[|t| - 1] == TEN && IsUnit(TEN);
    } else if b > 0 && d > 0 {
      AddZero(s, value, 100);
      assert forall x :: x in s ==> x in t;
    }
  }

  lemma {:induction false} WithDigitTallies(s: string, d: nat, value: nat)
    requires Stands(s, value, 10) && d <= 9
    ensures var t := WithDigit(s, d);
            t != "" && POINT !in t && Grammatical(t) && Tally(t) == value + d && (HasUnit(s) ==> HasUnit(t))
  {
    AddDigit(s, d, value, 10);
    assert forall x :: x in s ==> x in WithDigit(s, d);
  }

  lemma {:induction false} UpToTensStand(a: nat, b: nat, c: nat, d: nat, short: bool)
    requires a <= 9 && b <= 9 && c <= 9 && d <= 9
    ensures Stands(UpToTens(a, b, c, d, short), a * 1000 + b * 100 + c * 10, 10)
    ensures a > 0 || b > 0 || c > 0 ==> HasUnit(UpToTens(a, b, c, d, short))
  {
    HundredsStand(a, b, c + d);
    TensStand(Hundreds(a, b, c + d), b, c, d, short, a * 1000 + b * 100);
  }

  lemma {:induction false} PlacesTally(a: nat, b: nat, c: nat, d: nat, short: bool)
    requires a <= 9 && b <= 9 && c <= 9 && d <= 9
    ensures var s := FromPlaces(a, b, c, d, short);
            && s != "" && POINT !in s && Grammatical(s) && Tally(s) == a * 1000 + b * 100 + c * 10 + d
            && (a > 0 || b > 0 || c > 0 ==> HasUnit(s))
  {
    UpToTensStand(a, b, c, d, short);
    WithDigitTallies(UpToTens(a, b, c, d, short), d, a * 1000 + b * 100 + c * 10);
  }

  lemma {:induction false} OneDigit(d: nat, short: bool)
    requires d <= 9
    ensures Spell(d, short) == [HanDigit(d)]
  {
  }

  /** The spelled text denotes n and, from ten on, has a unit. */
  lemma {:induction false} SpellTallies(n: nat, short: bool)
    requires n < 10000
    ensures var s := Spell(n, short);
            s != "" && POINT !in s && Grammatical(s) && Tally(s) == n && (n >= 10 ==> HasUnit(s))
  {
    var (a, b, c, d) := Places(n);
    PlacesTally(a, b, c, d, short);
  }

  lemma {:induction false} SpellReadsInteger(n: nat, short: bool)
    requires n < 10000
    ensures ReadInteger(Spell(n, short)) == Some(n)
  {
    if n < 10 {
      OneDigit(n, short);
      OneDigitReads(n);
    } else {
      SpellTallies(n, short);
    }
  }

  lemma {:induction false} OneDigitReads(d: nat)
    requires d <= 9
    ensures ReadInteger([HanDigit(d)]) == Some(d)
  {
    assert Ascii([HanDigit(d)]) == [DigitChar(d)];
    assert IntegerValue([DigitChar(d)]) == 10 * IntegerValue("") + d;
  }

  /** Any number below 10000 spelled with units, a leading ten long or short, with any decimal fraction, is read
      back. */
  lemma {:induction false} SpellingReadsBack(n: nat, short: bool, fraction: string)
    requires n < 10000 && AllDigits(fraction)
    ensures Read(Spell(n, short)) == Some(ToText(n))
    ensures fraction != ""
            ==> Read(Spell(n, short) + [POINT] + Han(fraction)) == Some(Pointed(n, fraction))
  {
    SpellTallies(n, short);
    SpellReadsInteger(n, short);
    TextReadsBack(Spell(n, short), n, fraction);
  }

  /** In front of a last digit the spelling has a ten, a zero or nothing. */
  predicate ReadyForOnes(s: string) {
    s == "" || s[|s| - 1] == TEN || s[|s| - 1] == ZERO
  }

  lemma {:induction false} TensAreReady(a: nat, b: nat, c: nat, d: nat, short: bool)
    requires a <= 9 && b <= 9 && c <= 9 && 0 < d <= 9
    ensures ReadyForOnes(UpToTens(a, b, c, d, short))
  {
  }

  lemma {:induction false} WithDigitIsPlain(s: string, d: nat, value: nat)
    requires Stands(s, value, 10) && d <= 9 && (d > 0 ==> ReadyForOnes(s))
    ensures Plain(WithDigit(s, d))
  {
    AddDigit(s, d, value, 10);
    UnitsAreRight(WithDigit(s, d));
    if d == 0 { TrailingZeroIsPlain(WithDigit(s, d)); }
  }

  lemma {:induction false} PlacesArePlain(a: nat, b: nat, c: nat, d: nat, short: bool)
    requires a <= 9 && b <= 9 && c <= 9 && d <= 9
    ensures Plain(FromPlaces(a, b, c, d, short))
  {
    UpToTensStand(a, b, c, d, short);
    if d > 0 { TensAreReady(a, b, c, d, short); }
    WithDigitIsPlain(UpToTens(a, b, c, d, short), d, a * 1000 + b * 100 + c * 10);
  }

  lemma {:induction false} TrailingZeroIsPlain(s: string)
    requires Trailing(s) == 0
    ensures !Elliptic(s)
  {
  }

  /** The spelling of a number below 10000 denotes that number, and is plain. */
  lemma {:induction false} SpellingDenotes(n: nat, short: bool)
    requires n < 10000
    ensures IntegerDenotes(Spell(n, short)) == n && Plain(Spell(n, short))
  {
    var (a, b, c, d) := Places(n);
    PlacesArePlain(a, b, c, d, short);
    SpellReadsInteger(n, short);
    IntegerReadRight(Spell(n, short));
  }

  // ---------------------------------------------------------------- texts that are misread

  /** Two thousand, zero, ten. */
  const TWO_THOUSAND_ZERO_TEN := [HanDigit(2), THOUSAND, ZERO, TEN]

  lemma {:induction false} OneMore(front: string, c: char)
    requires Grammatical(front) && MayFollow(front, c)
    ensures Grammatical(front + [c])
    ensures UnitsValue(front + [c]) == UnitsValue(front) + if IsUnit(c) then Coefficient(front) * Unit(c) else 0
    ensures MeantUnits(front + [c]) == MeantUnits(front) + if IsUnit(c) then Meant(front) * Unit(c) else 0
    ensures LastUnit(front + [c]) == if IsUnit(c) then Unit(c) else LastUnit(front)
  {
    FollowedIsGrammatical(front, c);
    assert (front + [c])[..|front|] == front;
  }

  /** Where the tally and the meaning of a text stand, and its last unit. */
  ghost predicate StandsAt(s: string, tallied: nat, meant: nat, unit: nat) {
    Grammatical(s) && UnitsValue(s) == tallied && MeantUnits(s) == meant && LastUnit(s) == unit
  }

  lemma {:induction false} ThenZero(s: string, tallied: nat, meant: nat)
    requires s != "" && !IsHanDigit(s[|s| - 1]) && StandsAt(s, tallied, meant, 1000)
    ensures StandsAt(s + [ZERO], tallied, meant, 1000)
  {
    OneMore(s, ZERO);
  }

  lemma {:induction false} ThenTen(s: string, tallied: nat, meant: nat)
    requires s != "" && s[|s| - 1] == ZERO && StandsAt(s, tallied, meant, 1000)
    ensures StandsAt(s + [TEN], tallied, meant + 10, 10)
  {
    OneMore(s, TEN);
  }

  lemma {:induction false} ZeroTenTallied()
    ensures StandsAt(TWO_THOUSAND_ZERO_TEN, 2000, 2010, 10) && HasUnit(TWO_THOUSAND_ZERO_TEN)
  {
    var thousand, zero := [HanDigit(2), THOUSAND], [HanDigit(2), THOUSAND, ZERO];
    JustDigit(2);
    ThenUnit([HanDigit(2)], 2, THOUSAND);
    assert [HanDigit(2)] + [THOUSAND] == thousand && thousand + [ZERO] == zero && zero + [TEN] == TWO_THOUSAND_ZERO_TEN;
    ThenZero(thousand, 2000, 2000);
    ThenTen(zero, 2000, 2000);
    assert TEN in TWO_THOUSAND_ZERO_TEN && IsUnit(TEN);
  }

  lemma {:induction false} ReadByTally(s: string)
    requires HasUnit(s) && Grammatical(s) && POINT !in s && s != ""
    ensures PointAt(s) == |s| && ReadInteger(s) == Some(Tally(s)) && Read(s) == Some(ToText(Tally(s)))
  {
    NoPoint(s, "");
    assert s + "" == s;
  }

  /** It denotes 2010 and is read as 2000. */
  lemma {:induction false} ZeroTenIsLost()
    ensures Denotes(TWO_THOUSAND_ZERO_TEN) == 2010
    ensures Read(TWO_THOUSAND_ZERO_TEN) == Some(ToText(2000))
  {
    ZeroTenTallied();
    ReadByTally(TWO_THOUSAND_ZERO_TEN);
  }

  /** A digit, a unit and another digit. */
  function Short(d: nat, unit: char, e: nat): string
    requires 0 < d <= 9 && 0 < e <= 9 && IsUnit(unit)
  {
    [HanDigit(d), unit, HanDigit(e)]
  }

  lemma {:induction false} JustDigit(d: nat)
    requires d <= 9
    ensures StandsAt([HanDigit(d)], 0, 0, 10000)
  {
    OneMore("", HanDigit(d));
    assert "" + [HanDigit(d)] == [HanDigit(d)];
  }

  lemma {:induction false} ThenUnit(s: string, d: nat, unit: char)
    requires 0 < d <= 9 && IsUnit(unit) && s != "" && s[|s| - 1] == HanDigit(d) && StandsAt(s, 0, 0, 10000)
    ensures StandsAt(s + [unit], d * Unit(unit), d * Unit(unit), Unit(unit))
  {
    OneMore(s, unit);
  }

  lemma {:induction false} ThenDigit(s: string, e: nat, tallied: nat, meant: nat, unit: nat)
    requires s != "" && !IsHanDigit(s[|s| - 1]) && e <= 9 && StandsAt(s, tallied, meant, unit)
    ensures StandsAt(s + [HanDigit(e)], tallied, meant, unit)
  {
    OneMore(s, HanDigit(e));
  }

  lemma {:induction false} ShortTallied(d: nat, unit: char, e: nat)
    requires 0 < d <= 9 && 0 < e <= 9 && IsUnit(unit)
    ensures StandsAt(Short(d, unit, e), d * Unit(unit), d * Unit(unit), Unit(unit)) && HasUnit(Short(d, unit, e))
  {
    var first, second := [HanDigit(d)], [HanDigit(d), unit];
    JustDigit(d);
    ThenUnit(first, d, unit);
    assert first + [unit] == second && second + [HanDigit(e)] == Short(d, unit, e);
    ThenDigit(second, e, d * Unit(unit), d * Unit(unit), Unit(unit));
    assert unit in Short(d, unit, e);
  }

  /** d hundred, e denotes d * 100 + e * 10 and is read as d * 100 + e; likewise with a thousand. */
  lemma {:induction false} PlaceIsLost(d: nat, unit: char, e: nat)
    requires 0 < d <= 9 && 0 < e <= 9 && (unit == HUNDRED || unit == THOUSAND)
    ensures Denotes(Short(d, unit, e)) == d * Unit(unit) + e * (Unit(unit) / 10)
    ensures Read(Short(d, unit, e)) == Some(ToText(d * Unit(unit) + e))
  {
    ShortTallied(d, unit, e);
    ShortValues(d, unit, e);
    ReadByTally(Short(d, unit, e));
  }

  lemma {:induction false} ShortValues(d: nat, unit: char, e: nat)
    requires 0 < d <= 9 && 0 < e <= 9 && IsUnit(unit)
    requires StandsAt(Short(d, unit, e), d * Unit(unit), d * Unit(unit), Unit(unit))
    ensures Denotes(Short(d, unit, e)) == d * Unit(unit) + e * (Unit(unit) / 10)
    ensures Tally(Short(d, unit, e)) == d * Unit(unit) + e && POINT !in Short(d, unit, e)
  {
  }

  lemma {:induction false} PlaceIsLostAs(s: string, d: nat, unit: char, e: nat, denoted: nat, tallied: nat)
    requires 0 < d <= 9 && 0 < e <= 9 && (unit == HUNDRED || unit == THOUSAND) && s == Short(d, unit, e)
    requires denoted == d * Unit(unit) + e * (Unit(unit) / 10) && tallied == d * Unit(unit) + e
    ensures Denotes(s) == denoted && Read(s) == Some(ToText(tallied))
  {
    PlaceIsLost(d, unit, e);
  }

  /** One hundred, two denotes 120 and is read as 102. */
  lemma {:induction false} OneHundredTwoIsMisread()
    ensures Denotes([HanDigit(1), HUNDRED, HanDigit(2)]) == 120
    ensures Read([HanDigit(1), HUNDRED, HanDigit(2)]) == Some(ToText(102))
  {
    assert UNITS[HUNDRED] == 100;
    PlaceIsLostAs([HanDigit(1), HUNDRED, HanDigit(2)], 1, HUNDRED, 2, 120, 102);
  }
}
