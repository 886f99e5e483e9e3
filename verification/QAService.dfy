/** The QA service at work on one reserved run (src/creditlens/application/qa_service.py:734-941, 1143-1192, 1245-1269):
    its loops are proved to make exactly the writes of the execution plan. */
module QAService {
  import opened Common
  import opened EventLog
  import opened ClaimAudit
  import opened AnswerAgreement
  import opened QARun
  import QARecords

  class GroundedRun {
    var status: Status
    var version: int
    var events: seq<Event>
    var invocations: seq<Id>
    var answer: Option<Stored>
    /** What survives a rollback. */
    var committed: Rows
    /** How often the generator and the auditor have been called. */
    var generatorCalls: nat
    var audits: nat

    function Current(): Rows
      reads this
    {
      Rows(status, version, events, invocations, answer)
    }

    function Value(): Session
      reads this
    {
      Session(Current(), committed)
    }

    constructor (startVersion: int)
      ensures Value() == Session(NewRun(startVersion), NewRun(startVersion)) && generatorCalls == 0 && audits == 0
    {
      status, version, events, invocations, answer := Received, startVersion, [Event(1, RunCreated)], [], None;
      committed := NewRun(startVersion);
      generatorCalls, audits := 0, 0;
    }

    method EmitEvent(kind: EventKind)
      modifies this`events
      ensures Current() == WithEvent(old(Current()), kind)
    {
      events := events + [Event(MaxSequence(events) + 1, kind)];
    }

    method CheckpointCommit()
      modifies this`committed
      ensures Value() == Apply(old(Value()), Checkpoint)
    {
      committed := Current();
    }

    /** A move outside the table is refused. */
    method Transition(next: Status) returns (ok: bool)
      modifies this`status, this`version, this`events
      ensures ok == (next in Allowed(old(status)))
      ensures Value() == if ok then Apply(old(Value()), Move(next)) else old(Value())
    {
      ok := next in Allowed(status);
      if ok {
        var before := status;
        status := next;
        version := version + 1;
        EmitEvent(StateChanged(before, next));
      }
    }

    method AppendModelInvocations(traces: seq<Trace>)
      modifies this`invocations
      ensures Value() == Apply(old(Value()), Ledger(TraceIds(traces)))
    {
      var ids := TraceIds(traces);
      for i := 0 to |ids|
        invariant invocations == Appended(old(invocations), ids[..i])
      {
        assert ids[..i + 1][..i] == ids[..i];
        if ids[i] !in invocations { invocations := invocations + [ids[i]]; }
      }
      assert ids[..|ids|] == ids;
    }

    method RecordFailedCall(traced: seq<Trace>)
      modifies this`invocations, this`committed
      ensures Value() == Run(old(Value()), TraceActs(traced))
    {
      ghost var s := Value();
      if traced != [] {
        AppendModelInvocations(traced);
        CheckpointCommit();
        RunTwo(s, Ledger(TraceIds(traced)), Checkpoint);
      }
    }

    method RejectGeneration(attempt: nat, terminal: bool)
      modifies this`events, this`committed
      ensures Value() == Run(old(Value()), Rejection(attempt, terminal))
    {
      ghost var s := Value();
      EmitEvent(GenerationRejected(attempt, terminal));
      CheckpointCommit();
      RunTwo(s, Note(GenerationRejected(attempt, terminal)), Checkpoint);
    }

    /** _generate_with_output_repairs. */
    method GenerateWithRepairs(script: Script) returns (result: GenResult)
      modifies this`events, this`invocations, this`committed, this`generatorCalls
      ensures var g := Generate(script, old(generatorCalls), 0);
              && Value() == Run(old(Value()), g.acts) && result == g.result
              && generatorCalls == old(generatorCalls) + g.calls
    {
      var repairs := 0;
      ghost var s, first, whole := Value(), generatorCalls, Generate(script, generatorCalls, 0);
      while true
        invariant repairs <= script.maxRepairs
        invariant Continues(s, whole, Value(), Generate(script, generatorCalls, repairs), generatorCalls - first)
        invariant first <= generatorCalls
        decreases script.maxRepairs - repairs
      {
        ghost var before, left := Value(), Generate(script, generatorCalls, repairs);
        var outcome := script.generations(generatorCalls);
        generatorCalls := generatorCalls + 1;
        match outcome
        case GenThrows(exc, traced) =>
          RecordFailedCall(traced);
          return GenFailed(exc);
        case LedgerThrows(exc) => return GenFailed(exc);
        case Generated(candidate, mode, traces) =>
          AppendModelInvocations(traces);
          RunOne(before, Ledger(TraceIds(traces)));
          return Ready(Candidate(candidate, mode, traces));
        case GenRejected(code, traced) =>
          RecordFailedCall(traced);
          var terminal := repairs >= script.maxRepairs;
          RejectGeneration(if terminal then repairs else repairs + 1, terminal);
          RunAppend(before, TraceActs(traced), Rejection(if terminal then repairs else repairs + 1, terminal));
          if terminal { return GenFailed(Exc(false, Some(code), "GroundedQAOutputRejected")); }
          repairs := repairs + 1;
          RunAppend(before, TraceActs(traced) + Rejection(repairs, false),
              Generate(script, generatorCalls, repairs).acts);
      }
    }

    method SendBack(attempt: nat)
      requires status == Auditing
      modifies this`status, this`version, this`events, this`committed
      ensures Value() == Run(old(Value()), [Note(AnswerAuditRejected(attempt, false)), Move(Generating), Checkpoint])
      ensures status == Generating
    {
      ghost var s := Value();
      EmitEvent(AnswerAuditRejected(attempt, false));
      var sent := Transition(Generating);
      assert sent;
      CheckpointCommit();
      RunThree(s, Note(AnswerAuditRejected(attempt, false)), Move(Generating), Checkpoint);
    }

    /** A move the table allows, and its commit. */
    method MoveAndCommit(next: Status)
      requires next in Allowed(status)
      modifies this`status, this`version, this`events, this`committed
      ensures Value() == Run(old(Value()), [Move(next), Checkpoint]) && status == next
    {
      ghost var s := Value();
      var moved := Transition(next);
      assert moved;
      CheckpointCommit();
      RunTwo(s, Move(next), Checkpoint);
    }

    /** A rejected audit sends the run back to the generator; on success it is at AUDITING again. */
    method Repair(script: Script, attempt: nat) returns (result: GenResult)
      requires status == Auditing
      modifies this`status, this`version, this`events, this`invocations, this`committed, this`generatorCalls
      ensures var g := Generate(script, old(generatorCalls), 0);
              && result == g.result && generatorCalls == old(generatorCalls) + g.calls
              && Value() == Run(old(Value()),
                  if result.Ready? then RepairActs(attempt, g) + [Move(Auditing), Checkpoint]
                  else RepairActs(attempt, g))
      ensures result.Ready? ==> status == Auditing
    {
      ghost var s, g := Value(), Generate(script, generatorCalls, 0);
      SendBack(attempt);
      result := GenerateWithRepairs(script);
      RunAppend(s, [Note(AnswerAuditRejected(attempt, false)), Move(Generating), Checkpoint], g.acts);
      if result.Ready? {
        MoveAndCommit(Auditing);
        RunAppend(s, RepairActs(attempt, g), [Move(Auditing), Checkpoint]);
      }
    }

    /** After the audit loop: downgrade, provenance, storage and completion. */
    method FinishAnswer(script: Script, c: Candidate, f: Findings, repairs: nat) returns (end: End)
      requires status == Auditing && script.retrieval.Retrieved?
      modifies this`status, this`version, this`events, this`answer, this`committed
      ensures var p := Finishing(script, Approved(c, f), repairs); Value() == Run(old(Value()), p.acts) && end == p.end
    {
      ghost var s := Value();
      var (verdict, normalized) := Downgrade(c.answer, f);
      ghost var noted := Note(AnswerAuditCompleted(repairs, normalized));
      EmitEvent(AnswerAuditCompleted(repairs, normalized));
      RunOne(s, noted);
      if !ProvenanceOk(script.stamp, verdict, c.traces) { return Threw(PROVENANCE_MISMATCH); }
      if !script.retrieval.specValid { return Threw(INVALID_SPEC); }
      var stored := Stored(verdict, c.mode, script.retrieval.querySpec);
      StoreAndComplete(stored);
      RunAppend(s, [noted], [Keep(stored), Move(Completed), Checkpoint]);
      end := Answered(stored);
    }

    method StoreAndComplete(stored: Stored)
      requires status == Auditing
      modifies this`status, this`version, this`events, this`answer, this`committed
      ensures Value() == Run(old(Value()), [Keep(stored), Move(Completed), Checkpoint])
    {
      ghost var s := Value();
      answer := Some(stored);
      EmitEvent(AnswerPersisted(stored.answer.provenance.artifactId));
      var done := Transition(Completed);
      assert done;
      CheckpointCommit();
      RunThree(s, Keep(stored), Move(Completed), Checkpoint);
    }

    method GiveUp(rounds: nat)
      modifies this`events, this`committed
      ensures Value() == Run(old(Value()), [Note(AnswerAuditRejected(rounds, true)), Checkpoint])
    {
      ghost var s := Value();
      EmitEvent(AnswerAuditRejected(rounds, true));
      CheckpointCommit();
      RunTwo(s, Note(AnswerAuditRejected(rounds, true)), Checkpoint);
    }

    /** One turn of the audit loop. */
    method RepairRound(script: Script, c: Candidate, rounds: nat) returns (result: GenResult)
      requires status == Auditing && rounds < script.maxRepairs
      requires Rejects(script.audits(rounds, c.answer))
      modifies this`status, this`version, this`events, this`invocations, this`committed, this`generatorCalls
      ensures generatorCalls >= old(generatorCalls) && (result.Ready? ==> status == Auditing)
      ensures LoopContinues(old(Value()), AuditRounds(script, c, old(generatorCalls), rounds), Value(),
              After(script, result, generatorCalls, rounds + 1),
                            generatorCalls - old(generatorCalls), 1)
    {
      ghost var before, made := Value(), generatorCalls;
      result := Repair(script, rounds + 1);
      RoundContinues(before, script, c, made, rounds, result, generatorCalls);
    }

    /** The audit loop of _execute. */
    method AuditWithRepairs(script: Script, first: Candidate) returns (verdict: LoopEnd, repairs: nat)
      requires status == Auditing
      modifies this`status, this`version, this`events, this`invocations, this`committed, this`generatorCalls,
               this`audits
      ensures var p := AuditRounds(script, first, old(generatorCalls), 0);
              && Value() == Run(old(Value()), p.acts) && verdict == p.verdict && repairs == p.audits - 1
              && generatorCalls == old(generatorCalls) + p.calls && audits == old(audits) + p.audits
      ensures verdict.Approved? ==> status == Auditing
    {
      var c := first;
      ghost var s, calls, whole := Value(), generatorCalls, AuditRounds(script, first, generatorCalls, 0);
      ghost var rest := whole;
      var outcome := script.audits(0, c.answer);
      repairs, audits := 0, audits + 1;
      while Rejects(outcome) && repairs < script.maxRepairs
        invariant repairs <= script.maxRepairs && outcome == script.audits(repairs, c.answer)
                  && audits == old(audits) + repairs + 1
        invariant status == Auditing && rest == AuditRounds(script, c, generatorCalls, repairs)
        invariant LoopContinues(s, whole, Value(), rest, generatorCalls - calls, repairs)
        decreases script.maxRepairs - repairs
      {
        var result := RepairRound(script, c, repairs);
        if result.GenFailed? { return Dropped(result.exc), repairs; }
        c, repairs := result.candidate, repairs + 1;
        rest := AuditRounds(script, c, generatorCalls, repairs);
        outcome := script.audits(repairs, c.answer);
        audits := audits + 1;
      }
      match outcome
      case AuditThrows(exc) => verdict := Dropped(exc);
      case AuditReturns(f) =>
        if f.Ok() {
          verdict := Approved(c, f);
        } else {
          GiveUp(repairs);
          verdict := Dropped(AUDIT_SENTINEL);
        }
    }

    method Conclude(script: Script, verdict: LoopEnd, repairs: nat) returns (end: End)
      requires script.retrieval.Retrieved? && (verdict.Approved? ==> status == Auditing)
      modifies this`status, this`version, this`events, this`answer, this`committed
      ensures var p := Finishing(script, verdict, repairs); Value() == Run(old(Value()), p.acts) && end == p.end
    {
      match verdict
      case Dropped(exc) => end := Threw(exc);
      case Approved(candidate, f) => end := FinishAnswer(script, candidate, f, repairs);
    }

    method AuditAndFinish(script: Script, c: Candidate) returns (end: End)
      requires status == Auditing && script.retrieval.Retrieved?
      modifies this
      ensures var p := FromCandidate(script, c, old(generatorCalls));
              && Value() == Run(old(Value()), p.acts) && end == p.end
              && generatorCalls == old(generatorCalls) + p.calls && audits == old(audits) + p.audits
    {
      ghost var s, calls := Value(), generatorCalls;
      var verdict, repairs := AuditWithRepairs(script, c);
      CandidateRun(s, script, c, calls, verdict, repairs);
      end := Conclude(script, verdict, repairs);
    }

    method GenerateAndAudit(script: Script) returns (end: End)
      requires status == Retrieving && script.retrieval.Retrieved? && generatorCalls == 0 && audits == 0
      modifies this
      ensures var p := FromGeneration(script);
              Value() == Run(old(Value()), p.acts) && end == p.end && generatorCalls == p.calls && audits == p.audits
    {
      ghost var s, g := Value(), Generate(script, 0, 0);
      MoveAndCommit(if script.retrieval.anySections then Generating else Auditing);
      var result := GenerateWithRepairs(script);
      RunAppend(s, EnterActs(script), g.acts);
      GenerationFields(script, g, result, generatorCalls);
      if result.GenFailed? { return Threw(result.exc); }
      ghost var calls := generatorCalls;
      EnterAudit();
      end := AuditAndFinish(script, result.candidate);
      Assemble(s, EnterActs(script) + g.acts, AuditEntry(script), FromCandidate(script, result.candidate, calls).acts);
    }

    method EnterAudit()
      requires status == Generating || status == Auditing
      modifies this`status, this`version, this`events, this`committed
      ensures Value()
              == Run(old(Value()), if old(status) == Generating then [Move(Auditing), Checkpoint] else [Checkpoint])
      ensures status == Auditing
    {
      ghost var s := Value();
      if status == Generating {
        MoveAndCommit(Auditing);
      } else {
        CheckpointCommit();
        RunOne(s, Checkpoint);
      }
    }

    method NoteRetrieval()
      modifies this`events, this`committed
      ensures Value() == Run(old(Value()), [Note(RetrievalCompleted), Checkpoint])
    {
      ghost var s := Value();
      EmitEvent(RetrievalCompleted);
      CheckpointCommit();
      RunTwo(s, Note(RetrievalCompleted), Checkpoint);
    }

    /** _execute: only a run still RECEIVED is claimed; then all writes of the plan are made. */
    method Execute(script: Script) returns (claimed: bool, end: End)
      requires generatorCalls == 0 && audits == 0
      modifies this
      ensures claimed == (old(status) == Received)
      ensures claimed ==>
                var p := ExecutionPlan(script);
                Value() == Run(old(Value()), p.acts) && end == p.end && generatorCalls == p.calls && audits == p.audits
      ensures !claimed ==> Value() == old(Value()) && end == Threw(ALREADY_CLAIMED)
    {
      ghost var s, opening := Value(), [Move(Authorized), Checkpoint, Move(Retrieving), Checkpoint];
      claimed := status == Received;
      if !claimed { return claimed, Threw(ALREADY_CLAIMED); }
      if script.setup.Some? { return claimed, Threw(script.setup.value); }
      MoveAndCommit(Authorized);
      MoveAndCommit(Retrieving);
      RunAppend(s, [Move(Authorized), Checkpoint], [Move(Retrieving), Checkpoint]);
      assert [Move(Authorized), Checkpoint] + [Move(Retrieving), Checkpoint] == opening;
      if script.retrieval.RetrievalThrows? { return claimed, Threw(script.retrieval.exc); }
      NoteRetrieval();
      end := GenerateAndAudit(script);
      Assemble(s, opening, [Note(RetrievalCompleted), Checkpoint], FromGeneration(script).acts);
    }

    /** _mark_failed, on committed rows. */
    method CloseFailed(errorType: string)
      requires Current() == committed
      modifies this`status, this`version, this`events, this`committed
      ensures Current() == committed == QARecords.MarkFailed(old(committed), errorType)
    {
      if status != Completed && status != RunFailed {
        var before := status;
        status := RunFailed;
        version := version + 1;
        EmitEvent(ExecutionFailed(before, errorType));
        CheckpointCommit();
      }
    }
  }

  const ALREADY_CLAIMED := Exc(false, None, "RuntimeError")

  lemma {:induction false} Assemble(s: Session, first: seq<Act>, second: seq<Act>, third: seq<Act>)
    ensures Run(s, first + (second + third)) == Run(Run(Run(s, first), second), third)
  {
    RunAppend(s, first, second + third);
    RunAppend(Run(s, first), second, third);
  }

  /** From state t the writes of `rest` finish what `whole` does from s; `spent` calls are already made. */
  predicate Continues(s: Session, whole: GenRun, t: Session, rest: GenRun, spent: int) {
    Run(s, whole.acts) == Run(t, rest.acts) && whole.result == rest.result && whole.calls == spent + rest.calls
  }

  predicate LoopContinues(s: Session, whole: AuditRun, t: Session, rest: AuditRun, calls: int, audits: int) {
    && Run(s, whole.acts) == Run(t, rest.acts) && whole.verdict == rest.verdict
    && whole.calls == calls + rest.calls && whole.audits == audits + rest.audits
  }

  /** What is left of the audit loop after a generation. */
  function After(script: Script, result: GenResult, calls: nat, rounds: nat): AuditRun
    requires rounds <= script.maxRepairs
  {
    match result
    case Ready(c) => AuditRounds(script, c, calls, rounds)
    case GenFailed(exc) => AuditRun([], 0, 0, Dropped(exc))
  }

  lemma {:induction false} RoundContinues(
      s: Session, script: Script, c: Candidate, calls: nat, rounds: nat, result: GenResult, made: nat)
    requires rounds < script.maxRepairs
    requires Rejects(script.audits(rounds, c.answer))
    requires var g := Generate(script, calls, 0); result == g.result && made == calls + g.calls
    ensures var g := Generate(script, calls, 0);
            LoopContinues(s, AuditRounds(script, c, calls, rounds),
                          Run(s, if result.Ready? then RepairActs(rounds + 1, g) + [Move(Auditing), Checkpoint]
                              else RepairActs(rounds + 1, g)),
                          After(script, result, made, rounds + 1), made - calls, 1)
  {
    var g, here := Generate(script, calls, 0), AuditRounds(script, c, calls, rounds);
    RoundFields(script, c, calls, rounds, g);
    match result
    case GenFailed(exc) => StopsAfter(s, here, RepairActs(rounds + 1, g), exc, g.calls);
    case Ready(next) =>
      GoesOnAfter(s, here, RepairActs(rounds + 1, g), AuditRounds(script, next, made, rounds + 1), g.calls);
  }

  lemma {:induction false} StopsAfter(s: Session, here: AuditRun, acts: seq<Act>, exc: Exc, calls: nat)
    requires here.acts == acts && here.calls == calls && here.audits == 1 && here.verdict == Dropped(exc)
    ensures LoopContinues(s, here, Run(s, acts), AuditRun([], 0, 0, Dropped(exc)), calls, 1)
  {
  }

  lemma {:induction false} GoesOnAfter(s: Session, here: AuditRun, acts: seq<Act>, rest: AuditRun, calls: nat)
    requires here.acts == acts + ([Move(Auditing), Checkpoint] + rest.acts)
    requires here.calls == calls + rest.calls && here.audits == rest.audits + 1 && here.verdict == rest.verdict
    ensures LoopContinues(s, here, Run(s, acts + [Move(Auditing), Checkpoint]), rest, calls, 1)
  {
    RunRegrouped(s, acts, [Move(Auditing), Checkpoint], rest.acts);
  }

  lemma {:induction false} RunRegrouped(s: Session, first: seq<Act>, second: seq<Act>, third: seq<Act>)
    ensures Run(s, first + (second + third)) == Run(Run(s, first + second), third)
  {
    RunAppend(s, first + second, third);
    assert first + second + third == first + (second + third);
  }

  lemma {:induction false} CandidateRun(
      s: Session, script: Script, c: Candidate, calls: nat, verdict: LoopEnd, repairs: nat)
    requires script.retrieval.Retrieved?
    requires var loop := AuditRounds(script, c, calls, 0); verdict == loop.verdict && repairs == loop.audits - 1
    ensures var p, loop, finish := FromCandidate(script, c, calls), AuditRounds(script, c, calls, 0),
            Finishing(script, verdict, repairs);
            && Run(s, p.acts) == Run(Run(s, loop.acts), finish.acts) && p.end == finish.end
            && p.calls == loop.calls && p.audits == loop.audits
  {
    RunAppend(s, AuditRounds(script, c, calls, 0).acts, Finishing(script, verdict, repairs).acts);
  }

  lemma {:induction false} RunThree(s: Session, first: Act, second: Act, third: Act)
    ensures Run(s, [first, second, third]) == Apply(Apply(Apply(s, first), second), third)
  {
    RunTwo(s, first, second);
    RunAppend(s, [first, second], [third]);
    assert [first, second] + [third] == [first, second, third];
    RunOne(Apply(Apply(s, first), second), third);
  }

  lemma {:induction false} RunOne(s: Session, act: Act)
    ensures Run(s, [act]) == Apply(s, act)
  {
  }

  lemma {:induction false} RunTwo(s: Session, first: Act, second: Act)
    ensures Run(s, [first, second]) == Apply(Apply(s, first), second)
  {
    RunAppend(s, [first], [second]);
    assert [first] + [second] == [first, second];
    RunOne(s, first);
    RunOne(Apply(s, first), second);
  }
}
