/** What a crash of a QA execution loses, and how its log numbers rejections
    (src/creditlens/application/qa_service.py:814-893, 1143-1179). */
module QAStages {
  import opened QARun
  import opened QARecords
  import opened QABounds

  // ---------------------------------------------------------------- how far the committed rows lag behind

  /** Writes since the last checkpoint, n of them before. */
  function Lag(acts: seq<Act>, n: nat): nat {
    if acts == [] then n
    else if acts[|acts| - 1].Checkpoint? then 0 else Lag(acts[..|acts| - 1], n) + 1
  }

  predicate Within(acts: seq<Act>, n: nat) {
    forall k :: 0 <= k <= |acts| ==> Lag(acts[..k], n) <= 3
  }

  /** From n uncommitted writes to m, never with more than three. */
  predicate Lags(acts: seq<Act>, n: nat, m: nat) {
    Within(acts, n) && Lag(acts, n) == m
  }

  lemma {:induction false} LagJoined(first: seq<Act>, second: seq<Act>, n: nat)
    ensures Lag(first + second, n) == Lag(second, Lag(first, n))
    decreases |second|
  {
    if second == [] {
      assert first + second == first;
    } else {
      assert (first + second)[..|first + second| - 1] == first + second[..|second| - 1];
      LagJoined(first, second[..|second| - 1], n);
    }
  }

  lemma {:induction false} Joined(first: seq<Act>, second: seq<Act>, n: nat, m: nat, l: nat)
    requires Lags(first, n, m) && Lags(second, m, l)
    ensures Lags(first + second, n, l)
  {
    var all := first + second;
    LagJoined(first, second, n);
    forall k | 0 <= k <= |all| ensures Lag(all[..k], n) <= 3 {
      if k <= |first| {
        assert all[..k] == first[..k];
      } else {
        assert all[..k] == first + second[..k - |first|];
        LagJoined(first, second[..k - |first|], n);
      }
    }
  }

  lemma {:induction false} NoWrites(n: nat)
    requires n <= 3
    ensures Lags([], n, n)
  {
    var none: seq<Act> := [];
    assert none[..0] == none;
  }

  lemma {:induction false} OneWrite(act: Act, n: nat)
    requires n < 3
    ensures Lags([act], n, if act.Checkpoint? then 0 else n + 1)
  {
    assert [act][..0] == [] && [act][..1] == [act];
  }

  lemma {:induction false} TwoWrites(first: Act, second: Act, n: nat)
    requires n < 2
    ensures Lags([first, second], n,
                 if second.Checkpoint? then 0 else if first.Checkpoint? then 1 else n + 2)
  {
    OneWrite(first, n);
    OneWrite(second, if first.Checkpoint? then 0 else n + 1);
    Joined([first], [second], n, if first.Checkpoint? then 0 else n + 1,
           if second.Checkpoint? then 0 else if first.Checkpoint? then 1 else n + 2);
    assert [first] + [second] == [first, second];
  }

  // ---------------------------------------------------------------- the parts of an execution

  lemma {:induction false} TracesLag(traced: seq<Trace>)
    ensures Lags(TraceActs(traced), 0, 0)
  {
    NoWrites(0);
    TwoWrites(Ledger(TraceIds(traced)), Checkpoint, 0);
  }

  lemma {:induction false} RejectionLags(traced: seq<Trace>, attempt: nat, terminal: bool)
    ensures Lags(TraceActs(traced) + Rejection(attempt, terminal), 0, 0)
  {
    TracesLag(traced);
    TwoWrites(Note(GenerationRejected(attempt, terminal)), Checkpoint, 0);
    Joined(TraceActs(traced), Rejection(attempt, terminal), 0, 0, 0);
  }

  lemma {:induction false} GenerationLags(script: Script, call: nat, repairs: nat, g: GenRun)
    requires repairs <= script.maxRepairs && g == Generate(script, call, repairs)
    ensures Lags(g.acts, 0, if g.result.Ready? then 1 else 0)
    decreases script.maxRepairs - repairs
  {
    match script.generations(call)
    case GenThrows(exc, traced) => TracesLag(traced);
    case LedgerThrows(exc) => NoWrites(0);
    case Generated(answer, mode, traces) => OneWrite(Ledger(TraceIds(traces)), 0);
    case GenRejected(code, traced) =>
      if repairs >= script.maxRepairs {
        RejectionLags(traced, repairs, true);
      } else {
        var rest := Generate(script, call + 1, repairs + 1);
        GenerationLags(script, call + 1, repairs + 1, rest);
        RejectionLags(traced, repairs + 1, false);
        Joined(TraceActs(traced) + Rejection(repairs + 1, false), rest.acts, 0, 0, if rest.result.Ready? then 1 else 0);
      }
  }

  lemma {:induction false} RepairLags(attempt: nat, g: GenRun)
    requires Lags(g.acts, 0, if g.result.Ready? then 1 else 0)
    ensures Lags(RepairActs(attempt, g), 0, if g.result.Ready? then 1 else 0)
  {
    var first := [Note(AnswerAuditRejected(attempt, false)), Move(Generating)];
    TwoWrites(first[0], first[1], 0);
    OneWrite(Checkpoint, 2);
    Joined(first, [Checkpoint], 0, 2, 0);
    Joined(first + [Checkpoint], g.acts, 0, 0, if g.result.Ready? then 1 else 0);
    assert RepairActs(attempt, g) == first + [Checkpoint] + g.acts;
  }

  lemma {:induction false} LastRoundLags(script: Script, c: Candidate, calls: nat, rounds: nat, p: AuditRun)
    requires rounds <= script.maxRepairs && p == AuditRounds(script, c, calls, rounds)
    requires !Rejects(script.audits(rounds, c.answer)) || rounds == script.maxRepairs
    ensures Lags(p.acts, 0, 0)
  {
    NoWrites(0);
    TwoWrites(Note(AnswerAuditRejected(rounds, true)), Checkpoint, 0);
  }

  /** A rejected audit sends the run back, and generation g follows. */
  predicate Repairs(script: Script, c: Candidate, calls: nat, rounds: nat, p: AuditRun, g: GenRun) {
    if rounds >= script.maxRepairs then false
    else
      && Rejects(script.audits(rounds, c.answer)) && p == AuditRounds(script, c, calls, rounds)
      && g == Generate(script, calls, 0)
  }

  lemma {:induction false} FailedRepairLags(
      script: Script, c: Candidate, calls: nat, rounds: nat, p: AuditRun, g: GenRun)
    requires Repairs(script, c, calls, rounds, p, g) && g.result.GenFailed?
    ensures Lags(p.acts, 0, 0)
  {
    RoundFields(script, c, calls, rounds, g);
    GenerationLags(script, calls, 0, g);
    RepairLags(rounds + 1, g);
  }

  lemma {:induction false} ReadyRepairLags(script: Script, calls: nat, attempt: nat, g: GenRun)
    requires g == Generate(script, calls, 0) && g.result.Ready?
    ensures Lags(RepairActs(attempt, g), 0, 1)
  {
    GenerationLags(script, calls, 0, g);
    RepairLags(attempt, g);
  }

  lemma {:induction false} RepairRoundLags(
      script: Script, c: Candidate, calls: nat, rounds: nat, p: AuditRun, g: GenRun, rest: AuditRun)
    requires Repairs(script, c, calls, rounds, p, g) && g.result.Ready? && Lags(rest.acts, 0, 0)
    requires rest == AuditRounds(script, g.result.candidate, calls + g.calls, rounds + 1)
    ensures Lags(p.acts, 0, 0)
  {
    ReadyRepairLags(script, calls, rounds + 1, g);
    RepairedLags(RepairActs(rounds + 1, g), rest.acts);
    RoundFields(script, c, calls, rounds, g);
  }

  lemma {:induction false} RoundsLag(script: Script, c: Candidate, calls: nat, rounds: nat, p: AuditRun)
    requires rounds <= script.maxRepairs && p == AuditRounds(script, c, calls, rounds)
    ensures Lags(p.acts, 0, 0)
    decreases script.maxRepairs - rounds
  {
    if !Rejects(script.audits(rounds, c.answer)) || rounds == script.maxRepairs {
      LastRoundLags(script, c, calls, rounds, p);
    } else {
      var g := Generate(script, calls, 0);
      if g.result.GenFailed? {
        FailedRepairLags(script, c, calls, rounds, p, g);
      } else {
        var rest := AuditRounds(script, g.result.candidate, calls + g.calls, rounds + 1);
        RoundsLag(script, g.result.candidate, calls + g.calls, rounds + 1, rest);
        RepairRoundLags(script, c, calls, rounds, p, g, rest);
      }
    }
  }

  lemma {:induction false} RepairedLags(repair: seq<Act>, rest: seq<Act>)
    requires Lags(repair, 0, 1) && Lags(rest, 0, 0)
    ensures Lags(repair + ([Move(Auditing), Checkpoint] + rest), 0, 0)
  {
    TwoWrites(Move(Auditing), Checkpoint, 1);
    Joined([Move(Auditing), Checkpoint], rest, 1, 0, 0);
    Joined(repair, [Move(Auditing), Checkpoint] + rest, 0, 1, 0);
  }

  /** An answer that passed but could not be stored. */
  predicate PassedInVain(end: LoopEnd, f: Finish) {
    end.Approved? && f.end.Threw?
  }

  lemma {:induction false} FinishLags(script: Script, end: LoopEnd, repairs: nat, f: Finish)
    requires script.retrieval.Retrieved? && f == Finishing(script, end, repairs)
    ensures Lags(f.acts, 0, if PassedInVain(end, f) then 1 else 0)
  {
    NoWrites(0);
    if end.Approved? {
      OneWrite(f.acts[0], 0);
      if f.end.Answered? {
        TwoWrites(f.acts[1], f.acts[2], 1);
        Joined([f.acts[0]], [f.acts[1], f.acts[2]], 0, 1, 3);
        LastCheckpoint([f.acts[0]] + [f.acts[1], f.acts[2]]);
        assert f.acts == [f.acts[0]] + [f.acts[1], f.acts[2]] + [Checkpoint];
      } else {
        assert f.acts == [f.acts[0]];
      }
    }
  }

  lemma {:induction false} LastCheckpoint(acts: seq<Act>)
    requires Within(acts, 0)
    ensures Lags(acts + [Checkpoint], 0, 0)
  {
    var all := acts + [Checkpoint];
    forall k | 0 <= k <= |all| ensures Lag(all[..k], 0) <= 3 {
      if k <= |acts| { assert all[..k] == acts[..k]; } else { assert all[..k] == all; }
    }
  }

  /** What is left uncommitted of an execution that went to its end: nothing, or the note that an answer passed which
      then could not be stored. */
  predicate EndsCommitted(acts: seq<Act>, end: End) {
    || Lags(acts, 0, 0)
    || (end.Threw? && Lags(acts, 0, 1) && acts[|acts| - 1].Note? && acts[|acts| - 1].kind.AnswerAuditCompleted?)
  }

  lemma {:induction false} CandidateLags(script: Script, c: Candidate, calls: nat, p: Plan)
    requires script.retrieval.Retrieved? && p == FromCandidate(script, c, calls)
    ensures EndsCommitted(p.acts, p.end)
  {
    var loop := AuditRounds(script, c, calls, 0);
    var f := Finishing(script, loop.verdict, if loop.audits > 0 then loop.audits - 1 else 0);
    RoundsLag(script, c, calls, 0, loop);
    FinishLags(script, loop.verdict, if loop.audits > 0 then loop.audits - 1 else 0, f);
    Joined(loop.acts, f.acts, 0, 0, if PassedInVain(loop.verdict, f) then 1 else 0);
  }

  lemma {:induction false} EndsLater(first: seq<Act>, second: seq<Act>, n: nat, end: End)
    requires Lags(first, n, 0) && n == 0 && EndsCommitted(second, end)
    ensures EndsCommitted(first + second, end)
  {
    if Lags(second, 0, 0) {
      Joined(first, second, 0, 0, 0);
    } else {
      Joined(first, second, 0, 0, 1);
    }
  }

  /** What comes before the audits commits it all. */
  lemma {:induction false} EntryLags(script: Script, g: GenRun)
    requires script.retrieval.Retrieved? && Lags(g.acts, 0, if g.result.Ready? then 1 else 0)
    ensures Lags(EnterActs(script) + g.acts, 0, if g.result.Ready? then 1 else 0)
    ensures g.result.Ready? ==> Lags(EnterActs(script) + g.acts + AuditEntry(script), 0, 0)
  {
    TwoWrites(Move(if script.retrieval.anySections then Generating else Auditing), Checkpoint, 0);
    Joined(EnterActs(script), g.acts, 0, 0, if g.result.Ready? then 1 else 0);
    if g.result.Ready? {
      TwoWrites(Move(Auditing), Checkpoint, 1);
      OneWrite(Checkpoint, 1);
      Joined(EnterActs(script) + g.acts, AuditEntry(script), 0, 1, 0);
    }
  }

  lemma {:induction false} GenerationOnLags(script: Script, p: Plan)
    requires script.retrieval.Retrieved? && p == FromGeneration(script)
    ensures EndsCommitted(p.acts, p.end)
  {
    var g := Generate(script, 0, 0);
    GenerationLags(script, 0, 0, g);
    EntryLags(script, g);
    GenerationFields(script, g, g.result, g.calls);
    if g.result.Ready? {
      var rest := FromCandidate(script, g.result.candidate, g.calls);
      CandidateLags(script, g.result.candidate, g.calls, rest);
      EndsAfterEntry(p.acts, EnterActs(script) + g.acts, AuditEntry(script), rest.acts, p.end);
    }
  }

  lemma {:induction false} EndsAfterEntry(
      all: seq<Act>, first: seq<Act>, entry: seq<Act>, rest: seq<Act>, end: End)
    requires all == first + (entry + rest) && Lags(first + entry, 0, 0) && EndsCommitted(rest, end)
    ensures EndsCommitted(all, end)
  {
    EndsLater(first + entry, rest, 0, end);
    assert all == first + entry + rest;
  }

  const OPENING := [Move(Authorized), Checkpoint, Move(Retrieving), Checkpoint]

  lemma {:induction false} OpeningLags()
    ensures Lags(OPENING, 0, 0) && Lags(OPENING + [Note(RetrievalCompleted), Checkpoint], 0, 0)
  {
    TwoWrites(Move(Authorized), Checkpoint, 0);
    TwoWrites(Move(Retrieving), Checkpoint, 0);
    Joined([Move(Authorized), Checkpoint], [Move(Retrieving), Checkpoint], 0, 0, 0);
    assert OPENING == [Move(Authorized), Checkpoint] + [Move(Retrieving), Checkpoint];
    TwoWrites(Note(RetrievalCompleted), Checkpoint, 0);
    Joined(OPENING, [Note(RetrievalCompleted), Checkpoint], 0, 0, 0);
  }

  lemma {:induction false} LaterLags(script: Script, rest: Plan)
    requires script.retrieval.Retrieved? && rest == FromGeneration(script)
    ensures EndsCommitted(OPENING + ([Note(RetrievalCompleted), Checkpoint] + rest.acts), rest.end)
  {
    OpeningLags();
    GenerationOnLags(script, rest);
    EndsLater(OPENING + [Note(RetrievalCompleted), Checkpoint], rest.acts, 0, rest.end);
    assert OPENING + ([Note(RetrievalCompleted), Checkpoint] + rest.acts)
        == OPENING + [Note(RetrievalCompleted), Checkpoint] + rest.acts;
  }

  lemma {:induction false} ExecutionLags(script: Script)
    ensures EndsCommitted(ExecutionPlan(script).acts, ExecutionPlan(script).end)
  {
    NoWrites(0);
    OpeningLags();
    if script.setup.None? && script.retrieval.Retrieved? { LaterLags(script, FromGeneration(script)); }
  }

  // ---------------------------------------------------------------- what a crash loses

  lemma {:induction false} OneMore(s: Session, acts: seq<Act>)
    requires acts != []
    ensures var before, last := Run(s, acts[..|acts| - 1]), acts[|acts| - 1];
            && Run(s, acts).committed == (if last.Checkpoint? then Run(s, acts).work else before.committed)
            && Lag(acts, 0) == if last.Checkpoint? then 0 else Lag(acts[..|acts| - 1], 0) + 1
  {
  }

  /** The committed rows are those of all but the writes since the last checkpoint. */
  predicate LagsBehind(s: Session, acts: seq<Act>) {
    var n := Lag(acts, 0);
    if n > |acts| then false else Run(s, acts).committed == Run(s, acts[..|acts| - n]).work
  }

  lemma {:induction false} BehindAtCheckpoint(s: Session, acts: seq<Act>)
    requires acts != [] && acts[|acts| - 1].Checkpoint?
    ensures LagsBehind(s, acts)
  {
    assert acts[..|acts|] == acts;
  }

  lemma {:induction false} OneBehind(s: Session, acts: seq<Act>, front: seq<Act>)
    requires acts != [] && front == acts[..|acts| - 1] && LagsBehind(s, front) && !acts[|acts| - 1].Checkpoint?
    ensures LagsBehind(s, acts)
  {
    OneMore(s, acts);
    assert acts[..|acts| - Lag(acts, 0)] == front[..|front| - Lag(front, 0)];
  }

  lemma {:induction false} CommittedUpTo(s: Session, acts: seq<Act>)
    requires s.work == s.committed
    ensures LagsBehind(s, acts)
  {
    if acts != [] {
      CommittedUpTo(s, acts[..|acts| - 1]);
      if acts[|acts| - 1].Checkpoint? { BehindAtCheckpoint(s, acts); } else { OneBehind(s, acts, acts[..|acts| - 1]); }
    } else {
      assert acts[..0] == [];
    }
  }

  /** Wherever an execution stops, at most its last three writes are lost; one that goes to its end loses none, or only
      the note of an answer that passed and could not be stored. */
  lemma {:induction false} CrashLosesLittle(script: Script, startVersion: int, k: nat) returns (m: nat)
    requires k <= |ExecutionPlan(script).acts|
    ensures m <= k <= m + 3
    ensures Survives(script, startVersion, k) == Run(Fresh(startVersion), ExecutionPlan(script).acts[..m]).work
    ensures k == |ExecutionPlan(script).acts| && m < k ==>
              && ExecutionPlan(script).end.Threw? && m == k - 1 && ExecutionPlan(script).acts[m].Note?
              && ExecutionPlan(script).acts[m].kind.AnswerAuditCompleted?
  {
    var acts := ExecutionPlan(script).acts;
    ExecutionLags(script);
    CommittedUpTo(Fresh(startVersion), acts[..k]);
    m := k - Lag(acts[..k], 0);
    assert acts[..k][..m] == acts[..m];
    assert acts[..|acts|] == acts;
  }

  // ---------------------------------------------------------------- how rejected outputs are numbered

  /** The notes on rejected output, in order. */
  function OutputNotes(acts: seq<Act>): seq<EventKind> {
    if acts == [] then []
    else
      var last := acts[|acts| - 1];
      OutputNotes(acts[..|acts| - 1]) + if last.Note? && last.kind.GenerationRejected? then [last.kind] else []
  }

  lemma {:induction false} OutputNotesJoined(first: seq<Act>, second: seq<Act>)
    ensures OutputNotes(first + second) == OutputNotes(first) + OutputNotes(second)
    decreases |second|
  {
    if second == [] {
      assert first + second == first;
    } else {
      assert (first + second)[..|first + second| - 1] == first + second[..|second| - 1];
      OutputNotesJoined(first, second[..|second| - 1]);
    }
  }

  /** Output number m + 1 to n rejected, each followed by another call. */
  function OutputsRejected(m: nat, n: nat): (r: seq<EventKind>)
    requires m <= n
    ensures |r| == n - m
  {
    seq(n - m, i requires 0 <= i < n - m => GenerationRejected(m + 1 + i, false))
  }

  lemma {:induction false} OneOutputNote(act: Act)
    ensures OutputNotes([act]) == if act.Note? && act.kind.GenerationRejected? then [act.kind] else []
  {
    assert [act][..0] == [];
  }

  lemma {:induction false} OutputNotesOf(traced: seq<Trace>, attempt: nat, terminal: bool)
    ensures OutputNotes(TraceActs(traced)) == []
    ensures OutputNotes(TraceActs(traced) + Rejection(attempt, terminal)) == [GenerationRejected(attempt, terminal)]
  {
    OneOutputNote(Checkpoint);
    OneOutputNote(Ledger(TraceIds(traced)));
    OutputNotesJoined([Ledger(TraceIds(traced))], [Checkpoint]);
    OneOutputNote(Note(GenerationRejected(attempt, terminal)));
    OutputNotesJoined([Note(GenerationRejected(attempt, terminal))], [Checkpoint]);
    assert Rejection(attempt, terminal) == [Note(GenerationRejected(attempt, terminal))] + [Checkpoint];
    assert traced != [] ==> TraceActs(traced) == [Ledger(TraceIds(traced))] + [Checkpoint];
    OutputNotesJoined(TraceActs(traced), Rejection(attempt, terminal));
  }

  /** A generation from `repairs` rejected outputs on notes every further one under its number, the last as final if
      the limit is reached. */
  predicate NotesOutputs(script: Script, call: nat, repairs: nat, g: GenRun) {
    if g.calls == 0 then false
    else
      OutputNotes(g.acts) == OutputsRejected(repairs, repairs + g.calls - 1)
        + if script.generations(call + g.calls - 1).GenRejected? then [GenerationRejected(script.maxRepairs, true)]
          else []
  }

  lemma {:induction false} LastOutput(script: Script, call: nat, repairs: nat, g: GenRun)
    requires repairs <= script.maxRepairs && g == Generate(script, call, repairs)
    requires script.generations(call).GenRejected? ==> repairs == script.maxRepairs
    ensures NotesOutputs(script, call, repairs, g)
  {
    assert OutputsRejected(repairs, repairs) == [];
    match script.generations(call)
    case GenThrows(exc, traced) => OutputNotesOf(traced, 0, false);
    case LedgerThrows(exc) =>
    case Generated(answer, mode, traces) => OneOutputNote(Ledger(TraceIds(traces)));
    case GenRejected(code, traced) => OutputNotesOf(traced, repairs, true);
  }

  lemma {:induction false} OneRejectionMore(repairs: nat, n: nat, rest: seq<EventKind>, tail: seq<EventKind>)
    requires repairs < n && rest == OutputsRejected(repairs + 1, n) + tail
    ensures [GenerationRejected(repairs + 1, false)] + rest == OutputsRejected(repairs, n) + tail
  {
    assert OutputsRejected(repairs, n) == [GenerationRejected(repairs + 1, false)] + OutputsRejected(repairs + 1, n);
  }

  lemma {:induction false} OneOutputMore(
      script: Script, call: nat, repairs: nat, g: GenRun, rest: GenRun, traced: seq<Trace>)
    requires NotesOutputs(script, call + 1, repairs + 1, rest) && g.calls == rest.calls + 1
    requires g.acts == TraceActs(traced) + Rejection(repairs + 1, false) + rest.acts
    ensures NotesOutputs(script, call, repairs, g)
  {
    OutputNotesOf(traced, repairs + 1, false);
    OutputNotesJoined(TraceActs(traced) + Rejection(repairs + 1, false), rest.acts);
    OneRejectionMore(repairs, repairs + g.calls - 1, OutputNotes(rest.acts),
        if script.generations(call + g.calls - 1).GenRejected? then [GenerationRejected(script.maxRepairs, true)]
        else []);
  }

  lemma {:induction false} OutputsAreNumbered(script: Script, call: nat, repairs: nat, g: GenRun)
    requires repairs <= script.maxRepairs && g == Generate(script, call, repairs)
    ensures NotesOutputs(script, call, repairs, g)
    decreases script.maxRepairs - repairs
  {
    if script.generations(call).GenRejected? && repairs < script.maxRepairs {
      var rest := Generate(script, call + 1, repairs + 1);
      OutputsAreNumbered(script, call + 1, repairs + 1, rest);
      OneOutputMore(script, call, repairs, g, rest, script.generations(call).traced);
    } else {
      LastOutput(script, call, repairs, g);
    }
  }

  // ---------------------------------------------------------------- how audits are numbered

  /** The notes the audits leave, in order. */
  function AuditNotes(acts: seq<Act>): seq<EventKind> {
    if acts == [] then []
    else
      var last := acts[|acts| - 1];
      AuditNotes(acts[..|acts| - 1])
      + if last.Note? && (last.kind.AnswerAuditRejected? || last.kind.AnswerAuditCompleted?) then [last.kind] else []
  }

  lemma {:induction false} NotesJoined(first: seq<Act>, second: seq<Act>)
    ensures AuditNotes(first + second) == AuditNotes(first) + AuditNotes(second)
    decreases |second|
  {
    if second == [] {
      assert first + second == first;
    } else {
      assert (first + second)[..|first + second| - 1] == first + second[..|second| - 1];
      NotesJoined(first, second[..|second| - 1]);
    }
  }

  lemma {:induction false} OneNote(act: Act)
    ensures AuditNotes([act]) ==
              if act.Note? && (act.kind.AnswerAuditRejected? || act.kind.AnswerAuditCompleted?) then [act.kind] else []
  {
    assert [act][..0] == [];
  }

  lemma {:induction false} TwoNotes(first: Act, second: Act)
    ensures AuditNotes([first, second]) == AuditNotes([first]) + AuditNotes([second])
  {
    NotesJoined([first], [second]);
    assert [first] + [second] == [first, second];
  }

  /** Audits number m + 1 to n rejected, each followed by a repair. */
  function AuditsRejected(m: nat, n: nat): (r: seq<EventKind>)
    requires m <= n
    ensures |r| == n - m
  {
    seq(n - m, i requires 0 <= i < n - m => AnswerAuditRejected(m + 1 + i, false))
  }

  lemma {:induction false} GenerationSaysNothing(script: Script, call: nat, repairs: nat, g: GenRun)
    requires repairs <= script.maxRepairs && g == Generate(script, call, repairs)
    ensures AuditNotes(g.acts) == []
    decreases script.maxRepairs - repairs
  {
    match script.generations(call)
    case GenThrows(exc, traced) => TracesSayNothing(traced, 0, false);
    case LedgerThrows(exc) =>
    case Generated(answer, mode, traces) => OneNote(Ledger(TraceIds(traces)));
    case GenRejected(code, traced) =>
      TracesSayNothing(traced, repairs, true);
      TracesSayNothing(traced, repairs + 1, false);
      if repairs < script.maxRepairs {
        var rest := Generate(script, call + 1, repairs + 1);
        GenerationSaysNothing(script, call + 1, repairs + 1, rest);
        NotesJoined(TraceActs(traced) + Rejection(repairs + 1, false), rest.acts);
      }
  }

  lemma {:induction false} TracesSayNothing(traced: seq<Trace>, attempt: nat, terminal: bool)
    ensures AuditNotes(TraceActs(traced)) == []
    ensures AuditNotes(TraceActs(traced) + Rejection(attempt, terminal)) == []
  {
    OneNote(Checkpoint);
    OneNote(Ledger(TraceIds(traced)));
    OneNote(Note(GenerationRejected(attempt, terminal)));
    TwoNotes(Ledger(TraceIds(traced)), Checkpoint);
    TwoNotes(Note(GenerationRejected(attempt, terminal)), Checkpoint);
    NotesJoined(TraceActs(traced), Rejection(attempt, terminal));
  }

  lemma {:induction false} RepairNotes(attempt: nat, g: GenRun)
    requires AuditNotes(g.acts) == []
    ensures AuditNotes(RepairActs(attempt, g)) == [AnswerAuditRejected(attempt, false)]
  {
    var first := [Note(AnswerAuditRejected(attempt, false)), Move(Generating)];
    OneNote(first[0]);
    OneNote(first[1]);
    OneNote(Checkpoint);
    TwoNotes(first[0], first[1]);
    NotesJoined(first, [Checkpoint]);
    NotesJoined(first + [Checkpoint], g.acts);
    assert RepairActs(attempt, g) == first + [Checkpoint] + g.acts;
  }

  lemma {:induction false} RepairedNotes(attempt: nat, repair: seq<Act>, rest: seq<Act>)
    requires AuditNotes(repair) == [AnswerAuditRejected(attempt, false)]
    ensures AuditNotes(repair + ([Move(Auditing), Checkpoint] + rest))
         == [AnswerAuditRejected(attempt, false)] + AuditNotes(rest)
  {
    OneNote(Move(Auditing));
    OneNote(Checkpoint);
    TwoNotes(Move(Auditing), Checkpoint);
    NotesJoined([Move(Auditing), Checkpoint], rest);
    NotesJoined(repair, [Move(Auditing), Checkpoint] + rest);
  }

  /** The audit loop from audit `rounds` on notes every audit that rejected under its number: all but the last if that
      one passed or threw, all if the repair after the last failed, and the last as final if the limit is reached. */
  predicate NotesAudits(script: Script, p: AuditRun, rounds: nat) {
    if p.audits == 0 || rounds > script.maxRepairs then false
    else
      var notes, n := AuditNotes(p.acts), rounds + p.audits;
      match p.verdict
      case Approved(_, _) => notes == AuditsRejected(rounds, n - 1)
      case Dropped(e) =>
        || notes == AuditsRejected(rounds, n - 1) || notes == AuditsRejected(rounds, n)
        || (n - 1 == script.maxRepairs && e == AUDIT_SENTINEL
            && notes == AuditsRejected(rounds, n - 1) + [AnswerAuditRejected(script.maxRepairs, true)])
  }

  lemma {:induction false} OneAuditMore(script: Script, p: AuditRun, rest: AuditRun, rounds: nat)
    requires rounds < script.maxRepairs && NotesAudits(script, rest, rounds + 1)
    requires p.audits == rest.audits + 1 && p.verdict == rest.verdict
    requires AuditNotes(p.acts) == [AnswerAuditRejected(rounds + 1, false)] + AuditNotes(rest.acts)
    ensures NotesAudits(script, p, rounds)
  {
    forall n | n >= rounds + 1
      ensures AuditsRejected(rounds, n) == [AnswerAuditRejected(rounds + 1, false)] + AuditsRejected(rounds + 1, n)
    {
    }
  }

  lemma {:induction false} AuditsStopHere(script: Script, c: Candidate, calls: nat, rounds: nat, p: AuditRun)
    requires rounds <= script.maxRepairs && p == AuditRounds(script, c, calls, rounds)
    requires !Rejects(script.audits(rounds, c.answer)) || rounds == script.maxRepairs
    ensures NotesAudits(script, p, rounds)
  {
    OneNote(Note(AnswerAuditRejected(rounds, true)));
    OneNote(Checkpoint);
    TwoNotes(Note(AnswerAuditRejected(rounds, true)), Checkpoint);
    assert AuditsRejected(rounds, rounds) == [];
  }

  lemma {:induction false} FailedRepairIsNumbered(
      script: Script, c: Candidate, calls: nat, rounds: nat, p: AuditRun, g: GenRun)
    requires Repairs(script, c, calls, rounds, p, g) && g.result.GenFailed?
    ensures NotesAudits(script, p, rounds)
  {
    RoundFields(script, c, calls, rounds, g);
    GenerationSaysNothing(script, calls, 0, g);
    RepairNotes(rounds + 1, g);
    FailedRepairIsNoted(script, p, rounds);
  }

  lemma {:induction false} RepairIsNumbered(
      script: Script, c: Candidate, calls: nat, rounds: nat, p: AuditRun, g: GenRun, rest: AuditRun)
    requires Repairs(script, c, calls, rounds, p, g) && g.result.Ready? && NotesAudits(script, rest, rounds + 1)
    requires rest == AuditRounds(script, g.result.candidate, calls + g.calls, rounds + 1)
    ensures NotesAudits(script, p, rounds)
  {
    RoundFields(script, c, calls, rounds, g);
    GenerationSaysNothing(script, calls, 0, g);
    RepairNotes(rounds + 1, g);
    RepairedIsNoted(script, p, rest, RepairActs(rounds + 1, g), rounds);
  }

  lemma {:induction false} AuditsAreNumbered(script: Script, c: Candidate, calls: nat, rounds: nat, p: AuditRun)
    requires rounds <= script.maxRepairs && p == AuditRounds(script, c, calls, rounds)
    ensures NotesAudits(script, p, rounds)
    decreases script.maxRepairs - rounds
  {
    if !Rejects(script.audits(rounds, c.answer)) || rounds == script.maxRepairs {
      AuditsStopHere(script, c, calls, rounds, p);
    } else {
      var g := Generate(script, calls, 0);
      if g.result.GenFailed? {
        FailedRepairIsNumbered(script, c, calls, rounds, p, g);
      } else {
        var rest := AuditRounds(script, g.result.candidate, calls + g.calls, rounds + 1);
        AuditsAreNumbered(script, g.result.candidate, calls + g.calls, rounds + 1, rest);
        RepairIsNumbered(script, c, calls, rounds, p, g, rest);
      }
    }
  }

  lemma {:induction false} RepairedIsNoted(script: Script, p: AuditRun, rest: AuditRun, repair: seq<Act>, rounds: nat)
    requires rounds < script.maxRepairs && NotesAudits(script, rest, rounds + 1)
    requires p.audits == rest.audits + 1 && p.verdict == rest.verdict
    requires AuditNotes(repair) == [AnswerAuditRejected(rounds + 1, false)]
    requires p.acts == repair + ([Move(Auditing), Checkpoint] + rest.acts)
    ensures NotesAudits(script, p, rounds)
  {
    RepairedNotes(rounds + 1, repair, rest.acts);
    OneAuditMore(script, p, rest, rounds);
  }

  lemma {:induction false} FailedRepairIsNoted(script: Script, p: AuditRun, rounds: nat)
    requires rounds < script.maxRepairs && p.audits == 1 && p.verdict.Dropped?
    requires AuditNotes(p.acts) == [AnswerAuditRejected(rounds + 1, false)]
    ensures NotesAudits(script, p, rounds)
  {
    assert AuditsRejected(rounds, rounds + 1) == [AnswerAuditRejected(rounds + 1, false)];
  }

  // ---------------------------------------------------------------- the log of an answered run

  lemma {:induction false} FinishActs(script: Script, end: LoopEnd, repairs: nat, f: Finish)
    requires script.retrieval.Retrieved? && f == Finishing(script, end, repairs) && f.end.Answered?
    ensures end.Approved?
    ensures var changed := end.candidate.answer.answerStatus != f.end.stored.answer.answerStatus;
            f.acts == [Note(AnswerAuditCompleted(repairs, changed))]
                + [Keep(f.end.stored), Move(Completed), Checkpoint]
  {
  }

  lemma {:induction false} FinishNotes(script: Script, end: LoopEnd, repairs: nat, f: Finish)
    requires script.retrieval.Retrieved? && f == Finishing(script, end, repairs) && f.end.Answered?
    ensures end.Approved?
    ensures AuditNotes(f.acts)
         == [AnswerAuditCompleted(repairs, end.candidate.answer.answerStatus != f.end.stored.answer.answerStatus)]
  {
    FinishActs(script, end, repairs, f);
    var note := Note(
      AnswerAuditCompleted(repairs, end.candidate.answer.answerStatus != f.end.stored.answer.answerStatus));
    OneNote(note);
    Silent([Keep(f.end.stored), Move(Completed), Checkpoint]);
    NotesJoined([note], [Keep(f.end.stored), Move(Completed), Checkpoint]);
  }

  /** The log of a run that answers counts its rejected audits from one and then says how many there were, and whether
      the answer stored is in another state than the one last generated. */
  predicate TellsAudits(script: Script, p: Plan, calls: nat) {
    if p.audits == 0 || calls + p.calls == 0 || p.end.Threw? then false
    else
      match script.generations(calls + p.calls - 1)
      case Generated(answer, _, _) =>
        AuditNotes(p.acts) == AuditsRejected(0, p.audits - 1)
          + [AnswerAuditCompleted(p.audits - 1, answer.answerStatus != p.end.stored.answer.answerStatus)]
      case _ => false
  }

  lemma {:induction false} CandidateNotes(script: Script, c: Candidate, calls: nat, p: Plan)
    requires script.retrieval.Retrieved? && Shown(script, 0, c, calls) && calls > 0
    requires p == FromCandidate(script, c, calls) && p.end.Answered?
    ensures TellsAudits(script, p, calls)
  {
    var loop := CandidateFields(script, c, calls);
    LoopApproves(script, c, calls, 0, loop);
    AuditsAreNumbered(script, c, calls, 0, loop);
    ApprovedNotes(script, loop, calls, p);
  }

  lemma {:induction false} LastCandidate(script: Script, loop: AuditRun, calls: nat)
    requires Approves(script, loop, calls, 0) && loop.verdict.Approved?
    ensures loop.audits > 0 && calls + loop.calls > 0
    ensures Made(script, calls + loop.calls - 1, loop.verdict.candidate)
  {
    TurnShowsTheLastCall(script, loop.audits - 1);
  }

  lemma {:induction false} TellsOf(script: Script, p: Plan, calls: nat, c: Candidate)
    requires p.audits > 0 && calls + p.calls > 0 && p.end.Answered? && Made(script, calls + p.calls - 1, c)
    requires AuditNotes(p.acts) == AuditsRejected(0, p.audits - 1)
               + [AnswerAuditCompleted(p.audits - 1, c.answer.answerStatus != p.end.stored.answer.answerStatus)]
    ensures TellsAudits(script, p, calls)
  {
  }

  lemma {:induction false} ApprovedNotes(script: Script, loop: AuditRun, calls: nat, p: Plan)
    requires script.retrieval.Retrieved? && Approves(script, loop, calls, 0) && p.end.Answered? && loop.audits > 0
    requires NotesAudits(script, loop, 0) && p.calls == loop.calls && p.audits == loop.audits
    requires p.acts == loop.acts + Finishing(script, loop.verdict, loop.audits - 1).acts
    requires p.end == Finishing(script, loop.verdict, loop.audits - 1).end
    ensures TellsAudits(script, p, calls)
  {
    var f := Finishing(script, loop.verdict, loop.audits - 1);
    FinishNotes(script, loop.verdict, loop.audits - 1, f);
    LastCandidate(script, loop, calls);
    NotesJoined(loop.acts, f.acts);
    TellsOf(script, p, calls, loop.verdict.candidate);
  }

  lemma {:induction false} AnsweredGenerationIsLogged(script: Script, p: Plan)
    requires script.retrieval.Retrieved? && p == FromGeneration(script) && p.end.Answered?
    ensures TellsAudits(script, p, 0)
  {
    var g := Generate(script, 0, 0);
    GenerationFields(script, g, g.result, g.calls);
    FirstTurn(script, g);
    var rest := FromCandidate(script, g.result.candidate, g.calls);
    CandidateNotes(script, g.result.candidate, g.calls, rest);
    GenerationSaysNothing(script, 0, 0, g);
    BeforeAudits(script, g);
    TellsLater(script, p, rest, EnterActs(script) + g.acts, AuditEntry(script), 0, g.calls);
  }

  lemma {:induction false} TellsLater(
      script: Script, p: Plan, rest: Plan, first: seq<Act>, entry: seq<Act>, calls: nat, more: nat)
    requires TellsAudits(script, rest, calls + more) && p.calls == more + rest.calls
    requires p.audits == rest.audits && p.end == rest.end && p.acts == first + (entry + rest.acts)
    requires AuditNotes(first) == [] && AuditNotes(entry) == []
    ensures TellsAudits(script, p, calls)
  {
    NotesJoined(entry, rest.acts);
    NotesJoined(first, entry + rest.acts);
  }

  lemma {:induction false} AnsweredRunIsLogged(script: Script)
    requires ExecutionPlan(script).end.Answered?
    ensures TellsAudits(script, ExecutionPlan(script), 0)
  {
    var rest := FromGeneration(script);
    AnsweredGenerationIsLogged(script, rest);
    Silent(OPENING);
    Silent([Note(RetrievalCompleted), Checkpoint]);
    TellsLater(script, ExecutionPlan(script), rest, OPENING, [Note(RetrievalCompleted), Checkpoint], 0, 0);
  }

  lemma {:induction false} BeforeAudits(script: Script, g: GenRun)
    requires script.retrieval.Retrieved? && AuditNotes(g.acts) == []
    ensures AuditNotes(EnterActs(script) + g.acts) == [] && AuditNotes(AuditEntry(script)) == []
  {
    Silent(EnterActs(script));
    Silent(AuditEntry(script));
    NotesJoined(EnterActs(script), g.acts);
  }

  lemma {:induction false} Silent(acts: seq<Act>)
    requires forall i :: 0 <= i < |acts| ==> !acts[i].Note? || acts[i].kind.RetrievalCompleted?
    ensures AuditNotes(acts) == []
  {
    if acts != [] { Silent(acts[..|acts| - 1]); }
  }
}
