/** Selecting numeric spans from the matches of four passes over a statement
    (src/creditlens/agents/auditor.py:902-1034). */
module NumericSpans {
  import opened Common

  /** A number or date in comparable form. */
  datatype Span = Span(display: string, key: seq<string>)

  /** A match of one pass: where it is, and what it reads as, if it can be read. */
  datatype Match = Match(start: nat, end: nat, span: Option<Span>)

  predicate Overlaps(a: Match, b: Match) {
    a.start < b.end && a.end > b.start
  }

  predicate Disjoint(ms: seq<Match>) {
    forall i, j :: 0 <= i < j < |ms| ==> !Overlaps(ms[i], ms[j])
  }

  predicate NotEmpty(ms: seq<Match>) {
    forall m :: m in ms ==> m.start < m.end
  }

  /** The matches of one regular expression pass over a text: in order, none empty, none overlapping. */
  predicate IsPass(ms: seq<Match>) {
    NotEmpty(ms) && forall i, j :: 0 <= i < j < |ms| ==> ms[i].end <= ms[j].start
  }

  predicate AllRead(ms: seq<Match>) {
    forall m :: m in ms ==> m.span.Some?
  }

  predicate Blocked(m: Match, kept: seq<Match>) {
    exists k :: k in kept && Overlaps(m, k)
  }

  // ---------------------------------------------------------------- the selection, pass by pass

  /** The readable matches of a pass that overlap nothing kept before it. */
  function Free(ms: seq<Match>, kept: seq<Match>): seq<Match> {
    if ms == [] then []
    else
      var last := ms[|ms| - 1];
      Free(ms[..|ms| - 1], kept) + if last.span.Some? && !Blocked(last, kept) then [last] else []
  }

  function Selected(passes: seq<seq<Match>>): seq<Match> {
    if passes == [] then []
    else
      var kept := Selected(passes[..|passes| - 1]);
      kept + Free(passes[|passes| - 1], kept)
  }

  lemma {:induction false} FreeMembers(ms: seq<Match>, kept: seq<Match>, m: Match)
    ensures m in Free(ms, kept) <==> m in ms && m.span.Some? && !Blocked(m, kept)
  {
    if ms != [] {
      FreeMembers(ms[..|ms| - 1], kept, m);
      assert ms == ms[..|ms| - 1] + [ms[|ms| - 1]];
    }
  }

  /** Match m of pass p can be read and overlaps nothing selected from the passes before it. */
  predicate Chosen(passes: seq<seq<Match>>, p: nat, m: Match) {
    p < |passes| && m in passes[p] && m.span.Some? && !Blocked(m, Selected(passes[..p]))
  }

  lemma {:induction false} ChosenInFront(passes: seq<seq<Match>>, p: nat, m: Match)
    requires passes != [] && p < |passes| - 1
    ensures Chosen(passes[..|passes| - 1], p, m) <==> Chosen(passes, p, m)
  {
    assert passes[..|passes| - 1][..p] == passes[..p];
  }

  lemma {:induction false} LastPass(passes: seq<seq<Match>>, m: Match)
    requires passes != []
    ensures var last := |passes| - 1;
            m in Selected(passes) <==> m in Selected(passes[..last]) || Chosen(passes, last, m)
  {
    FreeMembers(passes[|passes| - 1], Selected(passes[..|passes| - 1]), m);
  }

  lemma {:induction false} SelectedIsChosen(passes: seq<seq<Match>>, m: Match) returns (p: nat)
    requires m in Selected(passes)
    ensures Chosen(passes, p, m)
  {
    var last := |passes| - 1;
    LastPass(passes, m);
    if Chosen(passes, last, m) {
      p := last;
    } else {
      p := SelectedIsChosen(passes[..last], m);
      ChosenInFront(passes, p, m);
    }
  }

  lemma {:induction false} ChosenIsSelected(passes: seq<seq<Match>>, p: nat, m: Match)
    requires Chosen(passes, p, m)
    ensures m in Selected(passes)
  {
    LastPass(passes, m);
    if p < |passes| - 1 {
      ChosenInFront(passes, p, m);
      ChosenIsSelected(passes[..|passes| - 1], p, m);
    }
  }

  /** A match is selected exactly if it is chosen in some pass: it is dropped only if it cannot be read or overlaps
      a match kept from an earlier pass. */
  lemma {:induction false} SelectedMembers(passes: seq<seq<Match>>, m: Match)
    ensures m in Selected(passes) <==> exists p :: Chosen(passes, p, m)
  {
    if m in Selected(passes) {
      var p := SelectedIsChosen(passes, m);
    } else if p: nat :| Chosen(passes, p, m) {
      ChosenIsSelected(passes, p, m);
    }
  }

  lemma {:induction false} FreeAvoidsNext(ms: seq<Match>, i: nat, kept: seq<Match>)
    requires IsPass(ms) && i < |ms|
    ensures forall m :: m in Free(ms[..i], kept) ==> m.end <= ms[i].start
  {
    forall m | m in Free(ms[..i], kept) ensures m.end <= ms[i].start {
      FreeMembers(ms[..i], kept, m);
      var j :| 0 <= j < i && ms[j] == m;
      assert ms[j].end <= ms[i].start;
    }
  }

  lemma {:induction false} FreeIsDisjoint(ms: seq<Match>, i: nat, kept: seq<Match>)
    requires IsPass(ms) && i <= |ms| && Disjoint(kept)
    ensures Disjoint(kept + Free(ms[..i], kept))
  {
    if i > 0 {
      var front, last := ms[..i - 1], ms[i - 1];
      assert ms[..i][..i - 1] == front;
      FreeIsDisjoint(ms, i - 1, kept);
      FreeAvoidsNext(ms, i - 1, kept);
      if last.span.Some? && !Blocked(last, kept) {
        AppendDisjoint(kept + Free(front, kept), last);
        assert kept + Free(front, kept) + [last] == kept + Free(ms[..i], kept);
      } else {
        assert Free(ms[..i], kept) == Free(front, kept);
      }
    }
  }

  lemma {:induction false} AppendDisjoint(ms: seq<Match>, m: Match)
    requires Disjoint(ms) && forall k :: k in ms ==> !Overlaps(m, k)
    ensures Disjoint(ms + [m])
  {
    forall i | 0 <= i < |ms| ensures !Overlaps(ms[i], m) { assert ms[i] in ms; }
  }

  /** The selected spans are pairwise disjoint. */
  lemma {:induction false} SelectedIsDisjoint(passes: seq<seq<Match>>)
    requires forall p :: 0 <= p < |passes| ==> IsPass(passes[p])
    ensures Disjoint(Selected(passes))
  {
    if passes != [] {
      SelectedIsDisjoint(passes[..|passes| - 1]);
      var last := passes[|passes| - 1];
      FreeIsDisjoint(last, |last|, Selected(passes[..|passes| - 1]));
      assert last[..|last|] == last;
    }
  }

  // ---------------------------------------------------------------- the selection, position by position

  /** The match covers this position of the text. */
  predicate Covers(m: Match, p: nat) {
    m.start <= p < m.end
  }

  /** The two matches have a position in common. */
  ghost predicate Share(a: Match, b: Match) {
    exists p: nat :: Covers(a, p) && Covers(b, p)
  }

  lemma {:induction false} OverlapIsShared(a: Match, b: Match)
    requires a.start < a.end && b.start < b.end
    ensures Overlaps(a, b) <==> Share(a, b)
  {
    if Overlaps(a, b) {
      var p := if a.start < b.start then b.start else a.start;
      assert Covers(a, p) && Covers(b, p);
    }
  }

  lemma {:induction false} SelectedNotEmpty(passes: seq<seq<Match>>)
    requires forall p :: 0 <= p < |passes| ==> IsPass(passes[p])
    ensures NotEmpty(Selected(passes))
  {
    forall m | m in Selected(passes) ensures m.start < m.end {
      var p := SelectedIsChosen(passes, m);
    }
  }

  /** No position of the text is covered by two selected spans. */
  lemma {:induction false} SelectedShareNothing(passes: seq<seq<Match>>)
    requires forall p :: 0 <= p < |passes| ==> IsPass(passes[p])
    ensures var kept := Selected(passes);
            forall i, j :: 0 <= i < j < |kept| ==> !Share(kept[i], kept[j])
  {
    var kept := Selected(passes);
    SelectedIsDisjoint(passes);
    SelectedNotEmpty(passes);
    forall i, j | 0 <= i < j < |kept| ensures !Share(kept[i], kept[j]) {
      assert kept[i] in kept && kept[j] in kept;
      OverlapIsShared(kept[i], kept[j]);
    }
  }

  /** Match m of pass p can be read and has no position in common with what is kept of the passes before. */
  ghost predicate IsKept(passes: seq<seq<Match>>, p: nat, m: Match) {
    && p < |passes| && m in passes[p] && m.span != None
    && forall k :: k in Selected(passes[..p]) ==> !Share(m, k)
  }

  lemma {:induction false} ChosenIsKept(passes: seq<seq<Match>>, p: nat, m: Match)
    requires forall p :: 0 <= p < |passes| ==> IsPass(passes[p])
    ensures Chosen(passes, p, m) <==> IsKept(passes, p, m)
  {
    if p < |passes| && m in passes[p] {
      var before := Selected(passes[..p]);
      SelectedNotEmpty(passes[..p]);
      forall k | k in before ensures Overlaps(m, k) <==> Share(m, k) { OverlapIsShared(m, k); }
    }
  }

  /** A match is selected exactly if it can be read and has no position in common with any match selected from a pass
      before its own. */
  lemma {:induction false} SelectedExactly(passes: seq<seq<Match>>, m: Match)
    requires forall p :: 0 <= p < |passes| ==> IsPass(passes[p])
    ensures m in Selected(passes) <==> exists p :: IsKept(passes, p, m)
  {
    SelectedMembers(passes, m);
    forall p: nat ensures Chosen(passes, p, m) <==> IsKept(passes, p, m) { ChosenIsKept(passes, p, m); }
  }

  // ---------------------------------------------------------------- the selection, match by match

  /** One pass as the extractor runs it: each match is held against everything kept so far, its own pass included. */
  method RunPass(ms: seq<Match>, before: seq<Match>) returns (kept: seq<Match>)
    requires IsPass(ms)
    ensures kept == before + Free(ms, before)
  {
    kept := before;
    for i := 0 to |ms|
      invariant kept == before + Free(ms[..i], before)
    {
      var m := ms[i];
      assert ms[..i + 1][..i] == ms[..i];
      SamePassDoesNotBlock(ms, i, before);
      if !exists k :: k in kept && Overlaps(m, k) {
        if m.span.Some? { kept := kept + [m]; }
      }
    }
    assert ms[..|ms|] == ms;
  }

  lemma {:induction false} SamePassDoesNotBlock(ms: seq<Match>, i: nat, before: seq<Match>)
    requires IsPass(ms) && i < |ms|
    ensures Blocked(ms[i], before + Free(ms[..i], before)) <==> Blocked(ms[i], before)
  {
    FreeAvoidsNext(ms, i, before);
    if k :| k in before && Overlaps(ms[i], k) { assert k in before + Free(ms[..i], before); }
  }

  lemma {:induction false} AllFree(ms: seq<Match>)
    requires AllRead(ms)
    ensures Free(ms, []) == ms
  {
    if ms != [] {
      assert ms == ms[..|ms| - 1] + [ms[|ms| - 1]];
      AllFree(ms[..|ms| - 1]);
    }
  }

  // ---------------------------------------------------------------- source order

  /** sorted(positioned, key=start): stable insertion. */
  function Insert(ms: seq<Match>, m: Match): (r: seq<Match>)
    ensures multiset(r) == multiset(ms) + multiset{m}
  {
    if ms == [] || ms[|ms| - 1].start <= m.start then ms + [m]
    else
      assert ms == ms[..|ms| - 1] + [ms[|ms| - 1]];
      Insert(ms[..|ms| - 1], m) + [ms[|ms| - 1]]
  }

  function SortByStart(ms: seq<Match>): (r: seq<Match>)
    ensures multiset(r) == multiset(ms)
  {
    if ms == [] then []
    else
      assert ms == ms[..|ms| - 1] + [ms[|ms| - 1]];
      Insert(SortByStart(ms[..|ms| - 1]), ms[|ms| - 1])
  }

  predicate InOrder(ms: seq<Match>) {
    forall i, j :: 0 <= i < j < |ms| ==> ms[i].start <= ms[j].start
  }

  lemma {:induction false} InsertKeepsOrder(ms: seq<Match>, m: Match)
    requires InOrder(ms)
    ensures InOrder(Insert(ms, m))
    ensures forall x :: x in Insert(ms, m) <==> x in ms || x == m
  {
    if ms != [] && ms[|ms| - 1].start > m.start {
      var front, last := ms[..|ms| - 1], ms[|ms| - 1];
      InsertKeepsOrder(front, m);
      assert ms == front + [last];
      forall x | x in Insert(front, m) ensures x.start <= last.start {
        if x in front {
          var i :| 0 <= i < |front| && front[i] == x;
          assert ms[i].start <= last.start;
        }
      }
      AppendInOrder(Insert(front, m), last);
    } else {
      forall x | x in ms ensures x.start <= m.start {
        var i :| 0 <= i < |ms| && ms[i] == x;
        assert ms[i].start <= ms[|ms| - 1].start;
      }
      AppendInOrder(ms, m);
    }
  }

  lemma {:induction false} AppendInOrder(ms: seq<Match>, m: Match)
    requires InOrder(ms) && forall x :: x in ms ==> x.start <= m.start
    ensures InOrder(ms + [m])
    ensures forall x :: x in ms + [m] <==> x in ms || x == m
  {
    forall i | 0 <= i < |ms| ensures ms[i].start <= m.start { assert ms[i] in ms; }
  }

  lemma {:induction false} SortIsOrdered(ms: seq<Match>)
    ensures InOrder(SortByStart(ms))
  {
    if ms != [] {
      SortIsOrdered(ms[..|ms| - 1]);
      InsertKeepsOrder(SortByStart(ms[..|ms| - 1]), ms[|ms| - 1]);
    }
  }

  function Spans(ms: seq<Match>): seq<Span>
    requires AllRead(ms)
  {
    seq(|ms|, i requires 0 <= i < |ms| => ms[i].span.value)
  }

  // ---------------------------------------------------------------- first mentions

  /** Where each value first occurs. */
  function Firsts(s: seq<Span>): seq<nat> {
    if s == [] then []
    else
      var front, last := s[..|s| - 1], s[|s| - 1];
      Firsts(front) + if last in front then [] else [|s| - 1]
  }

  /** d lists the values of s at the increasing positions `at`, each its first occurrence. */
  predicate ListsFirsts(s: seq<Span>, d: seq<Span>, at: seq<nat>) {
    && |d| == |at|
    && (forall i :: 0 <= i < |at| ==> at[i] < |s| && d[i] == s[at[i]] && s[at[i]] !in s[..at[i]])
    && (forall i, j :: 0 <= i < j < |at| ==> at[i] < at[j])
  }

  lemma {:induction false} LongerText(s: seq<Span>, more: Span, d: seq<Span>, at: seq<nat>)
    requires ListsFirsts(s, d, at)
    ensures ListsFirsts(s + [more], d, at)
    ensures more !in s ==> ListsFirsts(s + [more], d + [more], at + [|s|])
  {
    var t := s + [more];
    assert t[..|s|] == s;
    forall i | 0 <= i < |at| ensures t[at[i]] == s[at[i]] && t[..at[i]] == s[..at[i]] {}
  }

  /** Dedup lists the values at their first occurrences, in order. */
  lemma {:induction false} DedupListsFirsts(s: seq<Span>)
    ensures ListsFirsts(s, Dedup(s), Firsts(s))
  {
    if s != [] {
      var front, last := s[..|s| - 1], s[|s| - 1];
      DedupListsFirsts(front);
      LongerText(front, last, Dedup(front), Firsts(front));
      assert s == front + [last];
      if last in front {
        assert Dedup(s) == Dedup(front) && Firsts(s) == Firsts(front);
      } else {
        assert Dedup(s) == Dedup(front) + [last] && Firsts(s) == Firsts(front) + [|front|];
      }
    }
  }

  // ---------------------------------------------------------------- the extractor

  lemma {:induction false} SelectedAreRead(passes: seq<seq<Match>>)
    ensures AllRead(Selected(passes))
  {
    forall m | m in Selected(passes) ensures m.span.Some? { SelectedMembers(passes, m); }
  }

  lemma {:induction false} SortedAreRead(ms: seq<Match>)
    requires AllRead(ms)
    ensures AllRead(SortByStart(ms))
  {
    forall m | m in SortByStart(ms) ensures m in ms { assert m in multiset(SortByStart(ms)) && m in multiset(ms); }
  }

  function Extracted(passes: seq<seq<Match>>): seq<Span> {
    SelectedAreRead(passes);
    SortedAreRead(Selected(passes));
    Dedup(Spans(SortByStart(Selected(passes))))
  }

  /** _answer_numeric_spans, given the matches of its four expressions: dates, numbers, percentages, Chinese numbers. */
  method AnswerNumericSpans(dates: seq<Match>, numbers: seq<Match>, percents: seq<Match>, chinese: seq<Match>)
    returns (spans: seq<Span>)
    requires IsPass(dates) && IsPass(numbers) && IsPass(percents) && IsPass(chinese)
    requires AllRead(dates) && AllRead(numbers)
    ensures spans == Extracted([dates, numbers, percents, chinese])
  {
    var kept := RunPass(numbers, dates);
    kept := RunPass(percents, kept);
    kept := RunPass(chinese, kept);
    FourPasses(dates, numbers, percents, chinese);
    SelectedAreRead([dates, numbers, percents, chinese]);
    SortedAreRead(kept);
    spans := Dedup(Spans(SortByStart(kept)));
  }

  /** A text as the four expressions see it. */
  datatype Scan = Scan(dates: seq<Match>, numbers: seq<Match>, percents: seq<Match>, chinese: seq<Match>)

  predicate IsScan(s: Scan) {
    && IsPass(s.dates) && IsPass(s.numbers) && IsPass(s.percents) && IsPass(s.chinese)
    && AllRead(s.dates) && AllRead(s.numbers)
  }

  type Scanned = s: Scan | IsScan(s) witness Scan([], [], [], [])

  /** The spans of a text. */
  function SpansOf(s: Scanned): seq<Span> {
    Extracted([s.dates, s.numbers, s.percents, s.chinese])
  }

  function KeysOf(s: Scanned): set<seq<string>> {
    set span | span in SpansOf(s) :: span.key
  }

  lemma {:induction false} OnePassMore(passes: seq<seq<Match>>, ms: seq<Match>)
    ensures Selected(passes + [ms]) == Selected(passes) + Free(ms, Selected(passes))
  {
    assert (passes + [ms])[..|passes|] == passes;
  }

  lemma {:induction false} FourPasses(a: seq<Match>, b: seq<Match>, c: seq<Match>, d: seq<Match>)
    requires AllRead(a)
    ensures var ab := a + Free(b, a);
            var abc := ab + Free(c, ab);
            Selected([a, b, c, d]) == abc + Free(d, abc)
  {
    OnePassMore([], a);
    AllFree(a);
    assert [] + [a] == [a] && [] + a == a;
    OnePassMore([a], b);
    assert [a] + [b] == [a, b];
    OnePassMore([a, b], c);
    assert [a, b] + [c] == [a, b, c];
    OnePassMore([a, b, c], d);
    assert [a, b, c] + [d] == [a, b, c, d];
  }

  /** A text in which nothing matches has no spans. */
  lemma {:induction false} NothingScanned()
    ensures SpansOf(Scan([], [], [], [])) == []
  {
    FourPasses([], [], [], []);
    assert Selected([[], [], [], []]) == [];
  }

  /** The result lists the selected spans in the order of the text, each value once, at its first mention. */
  lemma {:induction false} ExtractedInSourceOrder(passes: seq<seq<Match>>)
    ensures var sorted := SortByStart(Selected(passes));
            && InOrder(sorted) && AllRead(sorted) && multiset(sorted) == multiset(Selected(passes))
            && ListsFirsts(Spans(sorted), Extracted(passes), Firsts(Spans(sorted))) && NoDuplicates(Extracted(passes))
            && forall span :: span in Extracted(passes) <==> span in Spans(sorted)
  {
    var sorted := SortByStart(Selected(passes));
    SelectedAreRead(passes);
    SortedAreRead(Selected(passes));
    SortIsOrdered(Selected(passes));
    DedupListsFirsts(Spans(sorted));
  }
}
