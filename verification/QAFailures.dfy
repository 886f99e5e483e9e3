/** Which exception a QA execution ends with, read off what it met (qa_service.py:814-893, 1143-1179), and which model
    invocations its run lists then. */
module QAFailures {
  import opened Common
  import opened Contracts
  import opened AnswerAgreement
  import opened QARun
  import opened QARecords
  import opened QABounds

  // ---------------------------------------------------------------- a generation that fails

  /** Calls m to n - 1 have all had their output rejected. */
  predicate RejectedCalls(script: Script, m: nat, n: nat) {
    forall k :: m <= k < n ==> script.generations(k).GenRejected?
  }

  /** The exception a generation over calls `first` to `last` fails with: that of the last call, or its rejected output
      if R + 1 outputs in a row were rejected. */
  predicate GenerationFailure(script: Script, first: nat, last: nat, e: Exc) {
    match script.generations(last)
    case GenThrows(exc, _) => e == exc
    case LedgerThrows(exc) => e == exc
    case GenRejected(code, _) =>
      && e == Exc(false, Some(code), "GroundedQAOutputRejected")
      && last == first + script.maxRepairs && RejectedCalls(script, first, last + 1)
    case Generated(_, _, _) => false
  }

  /** A generation with `repairs` repairs made, whose calls so far were all rejected. */
  predicate GeneratesFrom(script: Script, first: nat, call: nat, repairs: nat) {
    if repairs > script.maxRepairs then false else call == first + repairs && RejectedCalls(script, first, call)
  }

  lemma {:induction false} GenerationFails(script: Script, first: nat, call: nat, repairs: nat, g: GenRun)
    requires GeneratesFrom(script, first, call, repairs) && g == Generate(script, call, repairs) && g.result.GenFailed?
    ensures g.calls > 0 && GenerationFailure(script, first, call + g.calls - 1, g.result.exc)
    decreases script.maxRepairs - repairs
  {
    if script.generations(call).GenRejected? && repairs < script.maxRepairs {
      GenerationFails(script, first, call + 1, repairs + 1, Generate(script, call + 1, repairs + 1));
    }
  }

  // ---------------------------------------------------------------- an audit loop that fails

  /** What the last audit, number n, of candidate `answer` can end an execution with. */
  predicate AuditFailure(script: Script, n: nat, answer: GroundedAnswer, e: Exc) {
    match script.audits(n, answer)
    case AuditThrows(exc) => e == exc
    case AuditReturns(f) => !f.Ok() && e == Exc(true, None, "_AnswerAuditFailed") && n == script.maxRepairs
  }

  ghost predicate GenerationEnded(script: Script, last: nat, e: Exc) {
    exists first: nat :: GenerationFailure(script, first, last, e)
  }

  /** How an execution fails in its loops, after `calls` generator calls and `audits` audits: in the last generation, or
      at the last audit, which was shown what the last call returned. */
  ghost predicate LoopFailure(script: Script, calls: nat, audits: nat, e: Exc) {
    if calls == 0 then false
    else
      match script.generations(calls - 1)
      case Generated(answer, _, _) => audits > 0 && AuditFailure(script, audits - 1, answer, e)
      case _ => GenerationEnded(script, calls - 1, e)
  }

  /** All audits before number n have rejected what they were shown. */
  ghost predicate FailsAfter(script: Script, p: AuditRun, calls: nat, rounds: nat) {
    match p.verdict
    case Dropped(e) =>
      LoopFailure(script, calls + p.calls, rounds + p.audits, e)
      && RejectedFrom(script, 0, if rounds + p.audits > 0 then rounds + p.audits - 1 else 0)
    case Approved(_, _) => true
  }

  /** The loop with candidate c in hand, shown to audit `rounds`, all audits before having rejected. */
  predicate InLoop(script: Script, c: Candidate, calls: nat, rounds: nat, p: AuditRun) {
    if rounds > script.maxRepairs || calls == 0 then false
    else
      && Shown(script, rounds, c, calls) && p == AuditRounds(script, c, calls, rounds)
      && RejectedFrom(script, 0, rounds)
      && Made(script, calls - 1, c)
  }

  /** The audit fails the loop here and now. */
  lemma {:induction false} LoopFailsHere(script: Script, c: Candidate, calls: nat, rounds: nat, p: AuditRun)
    requires InLoop(script, c, calls, rounds, p)
    requires !Rejects(script.audits(rounds, c.answer)) || rounds >= script.maxRepairs
    ensures FailsAfter(script, p, calls, rounds)
  {
  }

  /** The repair after a rejected audit fails. */
  lemma {:induction false} RepairFails(script: Script, c: Candidate, calls: nat, rounds: nat, p: AuditRun, g: GenRun)
    requires InLoop(script, c, calls, rounds, p) && rounds < script.maxRepairs
             && Rejects(script.audits(rounds, c.answer))
    requires g == Generate(script, calls, 0) && g.result.GenFailed?
    ensures FailsAfter(script, p, calls, rounds)
  {
    RoundFields(script, c, calls, rounds, g);
    GenerationFails(script, calls, calls, 0, g);
  }

  /** The loop goes on as `rest` after `more` generator calls. */
  predicate GoesOnAs(here: AuditRun, rest: AuditRun, more: nat) {
    if rest.verdict != here.verdict then false
    else here.audits == rest.audits + 1 && here.calls == more + rest.calls
  }

  lemma {:induction false} FailsLater(script: Script, p: AuditRun, rest: AuditRun, calls: nat, more: nat, rounds: nat)
    requires GoesOnAs(p, rest, more) && FailsAfter(script, rest, calls + more, rounds + 1)
    ensures FailsAfter(script, p, calls, rounds)
  {
  }

  lemma {:induction false} NextTurn(script: Script, c: Candidate, calls: nat, rounds: nat, g: GenRun)
    requires Shown(script, rounds, c, calls) && rounds < script.maxRepairs && Rejects(script.audits(rounds, c.answer))
    requires g == Generate(script, calls, 0) && g.result.Ready? && RejectedFrom(script, 0, rounds)
    ensures Shown(script, rounds + 1, g.result.candidate, calls + g.calls) && RejectedFrom(script, 0, rounds + 1)
    ensures calls + g.calls > 0 && Made(script, calls + g.calls - 1, g.result.candidate)
  {
    GeneratedByACall(script, calls, 0);
  }

  /** The repair goes through, and the loop goes on as `rest`. */
  lemma {:induction false} RepairGoesOn(script: Script, c: Candidate, calls: nat, rounds: nat, p: AuditRun, g: GenRun)
    returns (rest: AuditRun)
    requires InLoop(script, c, calls, rounds, p) && rounds < script.maxRepairs
             && Rejects(script.audits(rounds, c.answer))
    requires g == Generate(script, calls, 0) && g.result.Ready?
    ensures InLoop(script, g.result.candidate, calls + g.calls, rounds + 1, rest) && GoesOnAs(p, rest, g.calls)
  {
    RoundFields(script, c, calls, rounds, g);
    NextTurn(script, c, calls, rounds, g);
    rest := AuditRounds(script, g.result.candidate, calls + g.calls, rounds + 1);
  }

  lemma {:induction false} LoopFails(script: Script, c: Candidate, calls: nat, rounds: nat, p: AuditRun)
    requires InLoop(script, c, calls, rounds, p)
    ensures FailsAfter(script, p, calls, rounds)
    decreases script.maxRepairs - rounds
  {
    if !Rejects(script.audits(rounds, c.answer)) || rounds >= script.maxRepairs {
      LoopFailsHere(script, c, calls, rounds, p);
    } else {
      var g := Generate(script, calls, 0);
      if g.result.GenFailed? {
        RepairFails(script, c, calls, rounds, p, g);
      } else {
        var rest := RepairGoesOn(script, c, calls, rounds, p, g);
        LoopFails(script, g.result.candidate, calls + g.calls, rounds + 1, rest);
        FailsLater(script, p, rest, calls, g.calls, rounds);
      }
    }
  }

  // ---------------------------------------------------------------- the execution as a whole

  /** After a passing audit: the answer to be stored does not belong to the run, or the query spec is invalid. */
  predicate StoringFailure(script: Script, calls: nat, audits: nat, e: Exc) {
    if calls == 0 || audits == 0 || !script.retrieval.Retrieved? then false
    else
      match script.generations(calls - 1)
      case Generated(answer, _, traces) =>
        var outcome := script.audits(audits - 1, answer);
        && Passes(outcome)
        && (var stored := Downgrade(answer, outcome.findings).0;
            if Belongs(script.stamp, stored, traces)
            then !script.retrieval.specValid && e == Exc(false, None, "ValidationError")
            else e == Exc(false, None, "RuntimeError"))
      case _ => false
  }

  /** Why an execution ends in exception e. */
  ghost predicate Explains(script: Script, p: Plan, e: Exc) {
    match script.setup
    case Some(exc) => e == exc
    case None =>
      match script.retrieval
      case RetrievalThrows(exc) => e == exc
      case Retrieved(_, _, _) =>
        LoopFailure(script, p.calls, p.audits, e) || StoringFailure(script, p.calls, p.audits, e)
  }

  lemma {:induction false} FinishFails(script: Script, end: LoopEnd, repairs: nat, calls: nat, audits: nat)
    requires script.retrieval.Retrieved? && Finishing(script, end, repairs).end.Threw? && end.Approved?
    requires audits > 0 && calls > 0 && EndsWith(script, end, audits - 1, calls)
             && Made(script, calls - 1, end.candidate)
    ensures StoringFailure(script, calls, audits, Finishing(script, end, repairs).end.exc)
  {
    match end
    case Approved(c, f) => ProvenanceExactly(script.stamp, Downgrade(c.answer, f).0, c.traces);
    case Dropped(_) => assert false;
  }

  lemma {:induction false} CandidateFails(script: Script, c: Candidate, calls: nat, p: Plan)
    requires script.retrieval.Retrieved? && calls > 0 && Shown(script, 0, c, calls) && Made(script, calls - 1, c)
    requires p == FromCandidate(script, c, calls) && p.end.Threw?
    ensures LoopFailure(script, calls + p.calls, p.audits, p.end.exc)
         || StoringFailure(script, calls + p.calls, p.audits, p.end.exc)
    ensures p.audits > 0 ==> RejectedFrom(script, 0, p.audits - 1)
  {
    var loop := AuditRounds(script, c, calls, 0);
    CandidatePlan(script, c, calls, p, loop);
    if loop.verdict.Approved? {
      LoopApproves(script, c, calls, 0, loop);
      ApprovedFails(script, loop, calls, p);
    } else {
      LoopFails(script, c, calls, 0, loop);
    }
  }

  lemma {:induction false} CandidatePlan(script: Script, c: Candidate, calls: nat, p: Plan, loop: AuditRun)
    requires script.retrieval.Retrieved? && p == FromCandidate(script, c, calls)
             && loop == AuditRounds(script, c, calls, 0)
    ensures p.calls == loop.calls && p.audits == loop.audits
    ensures p.end == Finishing(script, loop.verdict, if loop.audits > 0 then loop.audits - 1 else 0).end
    ensures loop.verdict.Dropped? ==> p.end == Threw(loop.verdict.exc)
  {
  }

  lemma {:induction false} ApprovedFails(script: Script, loop: AuditRun, calls: nat, p: Plan)
    requires script.retrieval.Retrieved? && Approves(script, loop, calls, 0) && loop.verdict.Approved? && p.end.Threw?
    requires p.calls == loop.calls && p.audits == loop.audits && loop.audits > 0
    requires p.end == Finishing(script, loop.verdict, loop.audits - 1).end
    ensures StoringFailure(script, calls + p.calls, p.audits, p.end.exc) && RejectedFrom(script, 0, p.audits - 1)
  {
    TurnShowsTheLastCall(script, loop.audits - 1);
    FinishFails(script, loop.verdict, loop.audits - 1, calls + loop.calls, loop.audits);
  }

  /** An execution that does not answer ends with an exception that what it met explains: its setup's, its retrieval's,
      that of the last generator call, the rejected output of R + 1 calls in a row, the last audit's own exception, the
      audit sentinel after R + 1 rejecting audits, or after a passing audit the mismatch of what was to be stored. All
      audits but the last have rejected. */
  lemma {:induction false} FailureIsExplained(script: Script, p: Plan)
    requires p == ExecutionPlan(script) && p.end.Threw?
    ensures Explains(script, p, p.end.exc)
    ensures p.audits > 0 ==> RejectedFrom(script, 0, p.audits - 1)
  {
    if script.setup.None? && script.retrieval.Retrieved? {
      var g := Generate(script, 0, 0);
      GenerationFields(script, g, g.result, g.calls);
      if g.result.GenFailed? {
        GenerationFails(script, 0, 0, 0, g);
      } else {
        GeneratedByACall(script, 0, 0);
        FirstTurn(script, g);
        CandidateFails(script, g.result.candidate, g.calls, FromCandidate(script, g.result.candidate, g.calls));
      }
    }
  }

  /** An output that was rejected to the limit is recorded as just that: no audit has run on it. */
  lemma {:induction false} RejectedOutputIsRecorded(code: string)
    requires code !in REPLAYABLE
    ensures ErrorTypeOf(Exc(false, Some(code), "GroundedQAOutputRejected")) == "GroundedQAOutputRejected"
    ensures ErrorTypeOf(Exc(true, None, "_AnswerAuditFailed")) == "ANSWER_AUDIT_FAILED"
    ensures ErrorTypeOf(Exc(false, None, "RuntimeError")) == ErrorTypeOf(Exc(false, None, "ValidationError"))
            == "UnhandledExecutionError"
  {
  }

  // ---------------------------------------------------------------- the invocations a run lists

  /** The traces a generator call left, whatever came of it. */
  function TracesOf(o: GenOutcome): seq<Trace> {
    match o
    case GenThrows(_, traced) => traced
    case GenRejected(_, traced) => traced
    case Generated(_, _, traces) => traces
    case LedgerThrows(_) => []
  }

  /** The writes enter the invocations of call k. */
  predicate Enters(acts: seq<Act>, script: Script, k: nat) {
    TracesOf(script.generations(k)) == [] || Ledger(TraceIds(TracesOf(script.generations(k)))) in acts
  }

  predicate EntersAll(acts: seq<Act>, script: Script, m: nat, n: nat) {
    forall k :: m <= k < n ==> Enters(acts, script, k)
  }

  lemma {:induction false} MoreEnters(acts: seq<Act>, more: seq<Act>, script: Script, m: nat, n: nat)
    requires EntersAll(acts, script, m, n) && forall act :: act in acts ==> act in more
    ensures EntersAll(more, script, m, n)
  {
    forall k | m <= k < n ensures Enters(more, script, k) { assert Enters(acts, script, k); }
  }

  lemma {:induction false} EntersBoth(
      first: seq<Act>, m: nat, n: nat, second: seq<Act>, o: nat, all: seq<Act>, script: Script)
    requires EntersAll(first, script, m, n) && EntersAll(second, script, n, o)
    requires forall act :: act in first || act in second ==> act in all
    ensures EntersAll(all, script, m, o)
  {
    forall k | m <= k < o ensures Enters(all, script, k) {
      if k < n { assert Enters(first, script, k); } else { assert Enters(second, script, k); }
    }
  }

  lemma {:induction false} GenerationEnters(script: Script, call: nat, repairs: nat, g: GenRun)
    requires repairs <= script.maxRepairs && g == Generate(script, call, repairs)
    ensures EntersAll(g.acts, script, call, call + g.calls)
    decreases script.maxRepairs - repairs
  {
    match script.generations(call)
    case GenRejected(_, traced) =>
      if repairs < script.maxRepairs {
        var rest := Generate(script, call + 1, repairs + 1);
        GenerationEnters(script, call + 1, repairs + 1, rest);
        assert EntersAll(TraceActs(traced), script, call, call + 1);
        EntersBoth(TraceActs(traced), call, call + 1, rest.acts, call + g.calls, g.acts, script);
      }
    case _ =>
  }

  lemma {:induction false} LoopEnters(script: Script, c: Candidate, calls: nat, rounds: nat, p: AuditRun)
    requires rounds <= script.maxRepairs && p == AuditRounds(script, c, calls, rounds)
    ensures EntersAll(p.acts, script, calls, calls + p.calls)
    decreases script.maxRepairs - rounds
  {
    if Rejects(script.audits(rounds, c.answer)) && rounds < script.maxRepairs {
      var g := Generate(script, calls, 0);
      GenerationEnters(script, calls, 0, g);
      RoundFields(script, c, calls, rounds, g);
      if g.result.GenFailed? {
        MoreEnters(g.acts, p.acts, script, calls, calls + g.calls);
      } else {
        var rest := AuditRounds(script, g.result.candidate, calls + g.calls, rounds + 1);
        LoopEnters(script, g.result.candidate, calls + g.calls, rounds + 1, rest);
        EntersBoth(g.acts, calls, calls + g.calls, rest.acts, calls + p.calls, p.acts, script);
      }
    }
  }

  lemma {:induction false} CandidateEnters(script: Script, c: Candidate, calls: nat, p: Plan)
    requires script.retrieval.Retrieved? && p == FromCandidate(script, c, calls)
    ensures EntersAll(p.acts, script, calls, calls + p.calls)
  {
    var loop := AuditRounds(script, c, calls, 0);
    LoopEnters(script, c, calls, 0, loop);
    MoreEnters(loop.acts, p.acts, script, calls, calls + p.calls);
  }

  lemma {:induction false} GenerationPlanEnters(script: Script, p: Plan)
    requires script.retrieval.Retrieved? && p == FromGeneration(script)
    ensures EntersAll(p.acts, script, 0, p.calls)
  {
    var g := Generate(script, 0, 0);
    GenerationEnters(script, 0, 0, g);
    GenerationFields(script, g, g.result, g.calls);
    if g.result.GenFailed? {
      MoreEnters(g.acts, p.acts, script, 0, g.calls);
    } else {
      var rest := FromCandidate(script, g.result.candidate, g.calls);
      CandidateEnters(script, g.result.candidate, g.calls, rest);
      EntersBoth(g.acts, 0, g.calls, rest.acts, p.calls, p.acts, script);
    }
  }

  lemma {:induction false} PlanEnters(script: Script, p: Plan)
    requires p == ExecutionPlan(script)
    ensures EntersAll(p.acts, script, 0, p.calls)
  {
    if script.setup.None? && script.retrieval.Retrieved? {
      var rest := FromGeneration(script);
      GenerationPlanEnters(script, rest);
      PlanIncludes(script, p, rest);
      MoreEnters(rest.acts, p.acts, script, 0, p.calls);
    }
  }

  lemma {:induction false} PlanIncludes(script: Script, p: Plan, rest: Plan)
    requires script.setup.None? && script.retrieval.Retrieved? && p == ExecutionPlan(script)
             && rest == FromGeneration(script)
    ensures p.calls == rest.calls && forall act :: act in rest.acts ==> act in p.acts
  {
  }

  // ---------------------------------------------------------------- entered is committed

  /** Every invocation that is entered is committed later on. */
  predicate Saved(acts: seq<Act>) {
    forall i :: 0 <= i < |acts| && acts[i].Ledger? ==> Checkpoint in acts[i..]
  }

  lemma {:induction false} SavedByBoth(first: seq<Act>, second: seq<Act>)
    requires Saved(second) && (Saved(first) || Checkpoint in second)
    ensures Saved(first + second)
  {
    var all := first + second;
    forall i | 0 <= i < |all| && all[i].Ledger? ensures Checkpoint in all[i..] {
      if i < |first| {
        assert all[i..] == first[i..] + second;
      } else {
        assert all[i..] == second[i - |first|..];
      }
    }
  }

  lemma {:induction false} SavedIfNoLedger(acts: seq<Act>)
    requires forall act :: act in acts ==> !act.Ledger?
    ensures Saved(acts)
  {
  }

  lemma {:induction false} TracesAreSaved(traced: seq<Trace>)
    ensures Saved(TraceActs(traced))
  {
    if traced != [] {
      assert TraceActs(traced)[0..] == TraceActs(traced) && TraceActs(traced)[1] == Checkpoint;
    }
  }

  lemma {:induction false} RejectionIsSaved(traced: seq<Trace>, attempt: nat, terminal: bool)
    ensures Saved(TraceActs(traced) + Rejection(attempt, terminal))
  {
    TracesAreSaved(traced);
    SavedIfNoLedger(Rejection(attempt, terminal));
    SavedByBoth(TraceActs(traced), Rejection(attempt, terminal));
  }

  /** A generation saves what it enters, but for the invocations of the artifact it hands on. */
  lemma {:induction false} GenerationSaves(script: Script, call: nat, repairs: nat, g: GenRun)
    requires repairs <= script.maxRepairs && g == Generate(script, call, repairs)
    ensures g.result.GenFailed? ==> Saved(g.acts)
    decreases script.maxRepairs - repairs
  {
    match script.generations(call)
    case GenThrows(_, traced) => TracesAreSaved(traced);
    case GenRejected(_, traced) =>
      if repairs < script.maxRepairs {
        var rest := Generate(script, call + 1, repairs + 1);
        GenerationSaves(script, call + 1, repairs + 1, rest);
        RejectionIsSaved(traced, repairs + 1, false);
        if rest.result.GenFailed? { SavedByBoth(TraceActs(traced) + Rejection(repairs + 1, false), rest.acts); }
      } else {
        RejectionIsSaved(traced, repairs, true);
      }
    case _ =>
  }

  lemma {:induction false} RepairSaves(attempt: nat, g: GenRun)
    requires g.result.GenFailed? ==> Saved(g.acts)
    ensures g.result.GenFailed? ==> Saved(RepairActs(attempt, g))
  {
    var back := [Note(AnswerAuditRejected(attempt, false)), Move(Generating), Checkpoint];
    SavedIfNoLedger(back);
    if g.result.GenFailed? { SavedByBoth(back, g.acts); }
  }

  lemma {:induction false} ThenCheckpoint(first: seq<Act>, entry: seq<Act>, rest: seq<Act>)
    requires Checkpoint in entry && (forall act :: act in entry ==> !act.Ledger?) && Saved(rest)
    ensures Saved(first + (entry + rest))
  {
    SavedIfNoLedger(entry);
    SavedByBoth(entry, rest);
    assert Checkpoint in entry + rest;
    SavedByBoth(first, entry + rest);
  }

  lemma {:induction false} LoopSaves(script: Script, c: Candidate, calls: nat, rounds: nat, p: AuditRun)
    requires rounds <= script.maxRepairs && p == AuditRounds(script, c, calls, rounds)
    ensures Saved(p.acts)
    decreases script.maxRepairs - rounds
  {
    if Rejects(script.audits(rounds, c.answer)) && rounds < script.maxRepairs {
      var g := Generate(script, calls, 0);
      GenerationSaves(script, calls, 0, g);
      RoundFields(script, c, calls, rounds, g);
      RepairSaves(rounds + 1, g);
      if g.result.Ready? {
        var rest := AuditRounds(script, g.result.candidate, calls + g.calls, rounds + 1);
        LoopSaves(script, g.result.candidate, calls + g.calls, rounds + 1, rest);
        ThenCheckpoint(RepairActs(rounds + 1, g), [Move(Auditing), Checkpoint], rest.acts);
      }
    } else {
      EndSaves(script, c, calls, rounds, p);
    }
  }

  lemma {:induction false} EndSaves(script: Script, c: Candidate, calls: nat, rounds: nat, p: AuditRun)
    requires rounds <= script.maxRepairs && p == AuditRounds(script, c, calls, rounds)
    requires !Rejects(script.audits(rounds, c.answer)) || rounds >= script.maxRepairs
    ensures Saved(p.acts)
  {
    SavedIfNoLedger(p.acts);
  }

  lemma {:induction false} FinishSaves(script: Script, end: LoopEnd, repairs: nat)
    requires script.retrieval.Retrieved?
    ensures Saved(Finishing(script, end, repairs).acts)
  {
    SavedIfNoLedger(Finishing(script, end, repairs).acts);
  }

  lemma {:induction false} CandidateSaves(script: Script, c: Candidate, calls: nat)
    requires script.retrieval.Retrieved?
    ensures Saved(FromCandidate(script, c, calls).acts)
  {
    var loop := AuditRounds(script, c, calls, 0);
    var repairs := if loop.audits > 0 then loop.audits - 1 else 0;
    LoopSaves(script, c, calls, 0, loop);
    FinishSaves(script, loop.verdict, repairs);
    SavedByBoth(loop.acts, Finishing(script, loop.verdict, repairs).acts);
  }

  lemma {:induction false} GenerationPlanSaves(script: Script)
    requires script.retrieval.Retrieved?
    ensures Saved(FromGeneration(script).acts)
  {
    var g := Generate(script, 0, 0);
    GenerationSaves(script, 0, 0, g);
    GenerationFields(script, g, g.result, g.calls);
    if g.result.GenFailed? {
      SavedIfNoLedger(EnterActs(script));
      SavedByBoth(EnterActs(script), g.acts);
    } else {
      var rest := FromCandidate(script, g.result.candidate, g.calls);
      CandidateSaves(script, g.result.candidate, g.calls);
      ThenCheckpoint(EnterActs(script) + g.acts, AuditEntry(script), rest.acts);
    }
  }

  lemma {:induction false} PlanSaves(script: Script)
    ensures Saved(ExecutionPlan(script).acts)
  {
    var opening, noted := [Move(Authorized), Checkpoint, Move(Retrieving), Checkpoint],
        [Note(RetrievalCompleted), Checkpoint];
    SavedIfNoLedger(opening);
    SavedIfNoLedger(noted);
    if script.setup.None? && script.retrieval.Retrieved? {
      GenerationPlanSaves(script);
      SavedByBoth(noted, FromGeneration(script).acts);
      SavedByBoth(opening, noted + FromGeneration(script).acts);
    }
  }

  /** What is entered and saved is listed in the committed rows. */
  lemma {:induction false} SavedIsCommitted(s: Session, acts: seq<Act>, ids: seq<Id>)
    requires Saved(acts) && Ledger(ids) in acts
    ensures forall id :: id in ids ==> id in Run(s, acts).committed.invocations
  {
    var i :| 0 <= i < |acts| && acts[i] == Ledger(ids);
    var j :| 0 <= j < |acts[i..]| && acts[i..][j] == Checkpoint;
    assert acts[i + j] == Checkpoint;
    CommittedFrom(s, acts, i, i + j, ids, |acts|);
    assert acts[..|acts|] == acts;
  }

  lemma {:induction false} CommittedFrom(s: Session, acts: seq<Act>, i: nat, j: nat, ids: seq<Id>, n: nat)
    requires i < j < n <= |acts| && acts[i] == Ledger(ids) && acts[j] == Checkpoint
    ensures forall id :: id in ids ==> id in Run(s, acts[..n]).committed.invocations
    decreases n
  {
    OneActMore(s, acts, n);
    ListedFrom(s, acts, i, ids, n - 1);
    if j < n - 1 { CommittedFrom(s, acts, i, j, ids, n - 1); }
  }

  lemma {:induction false} ListedFrom(s: Session, acts: seq<Act>, i: nat, ids: seq<Id>, n: nat)
    requires i < n <= |acts| && acts[i] == Ledger(ids)
    ensures forall id :: id in ids ==> id in Run(s, acts[..n]).work.invocations
    decreases n
  {
    OneActMore(s, acts, n);
    if i < n - 1 { ListedFrom(s, acts, i, ids, n - 1); }
  }

  /** However an execution ends, its committed run lists the invocations of every generator call it made: of outputs
      that were rejected, of calls that failed, and of artifacts that no audit passed. */
  lemma {:induction false} EveryCallIsListed(script: Script, startVersion: int, k: nat, t: Trace)
    requires k < ExecutionPlan(script).calls && t in TracesOf(script.generations(k)) && t.id.Some?
    ensures t.id.value in Survives(script, startVersion, |ExecutionPlan(script).acts|).invocations
  {
    var p := ExecutionPlan(script);
    PlanEnters(script, p);
    PlanSaves(script);
    assert Enters(p.acts, script, k);
    TraceIdsAreExact(TracesOf(script.generations(k)), t.id.value);
    SavedIsCommitted(Fresh(startVersion), p.acts, TraceIds(TracesOf(script.generations(k))));
    assert p.acts[..|p.acts|] == p.acts;
  }

  // ---------------------------------------------------------------- where the first generation runs

  /** With packed sections the run is at GENERATING while the first answer is generated, with none at AUDITING. */
  lemma {:induction false} NothingPackedSkipsGenerating(script: Script, startVersion: int)
    requires script.setup.None? && script.retrieval.Retrieved?
    ensures |ExecutionPlan(script).acts| >= 8
    ensures Survives(script, startVersion, 8).status == if script.retrieval.anySections then Generating else Auditing
  {
    var acts := ExecutionPlan(script).acts;
    var first := if script.retrieval.anySections then Generating else Auditing;
    GenerationFields(script, Generate(script, 0, 0), Generate(script, 0, 0).result, Generate(script, 0, 0).calls);
    assert FromGeneration(script).acts[0] == Move(first) && FromGeneration(script).acts[1] == Checkpoint;
    assert acts[6] == Move(first) && acts[7] == Checkpoint;
    OneActMore(Fresh(startVersion), acts, 7);
    OneActMore(Fresh(startVersion), acts, 8);
  }
}
