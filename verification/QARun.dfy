/** A grounded-QA run as data: its rows, the writes of its execution, and the repair loops as a plan of writes
    (src/creditlens/application/qa_service.py). */
module QARun {
  import opened Common
  import opened Contracts
  import opened ClaimAudit
  import opened AnswerAgreement
  import opened EventLog

  datatype Status = Received | Authorized | Retrieving | Generating | Auditing | Completed | RunFailed

  /** _QA_TRANSITIONS. */
  function Allowed(s: Status): set<Status> {
    match s
    case Received => {Authorized, RunFailed}
    case Authorized => {Retrieving, RunFailed}
    case Retrieving => {Generating, Auditing, RunFailed}
    case Generating => {Auditing, RunFailed}
    case Auditing => {Generating, Completed, RunFailed}
    case _ => {}
  }

  // ---------------------------------------------------------------- failures

  const ANSWER_AUDIT_FAILED := "ANSWER_AUDIT_FAILED"
  const QA_CALL_CANCELLED := "QA_CALL_CANCELLED"
  const UNHANDLED := "UnhandledExecutionError"

  /** _REPLAYABLE_FAILURE_ERROR_TYPES. */
  const REPLAYABLE: set<string> := {
    ANSWER_AUDIT_FAILED, QA_CALL_CANCELLED, "INVOCATION_ID_CONFLICT", "INVOCATION_AUDIT_PERSIST_FAILED",
    "GroundedQAOutputRejected", "LLMCallError", UNHANDLED
  }

  /** An exception: whether it is the audit sentinel, its error_code attribute if it has one, its class name. */
  datatype Exc = Exc(auditSentinel: bool, errorCode: Option<string>, className: string)

  const AUDIT_SENTINEL := Exc(true, None, "_AnswerAuditFailed")
  const INVALID_SPEC := Exc(false, None, "ValidationError")
  const PROVENANCE_MISMATCH := Exc(false, None, "RuntimeError")

  /** _stable_failure_error_type. */
  function Stable(name: Option<string>): Option<string> {
    if name.Some? && name.value in REPLAYABLE then name else None
  }

  /** _execution_error_type: always one of the types that can be read back. */
  function ErrorTypeOf(e: Exc): (t: string)
    ensures t in REPLAYABLE
    ensures e.auditSentinel ==> t == ANSWER_AUDIT_FAILED
    ensures !e.auditSentinel && Stable(e.errorCode).Some? ==> e.errorCode == Some(t)
    ensures !e.auditSentinel && Stable(e.errorCode).None?
            ==> t == e.className || (t == UNHANDLED && e.className !in REPLAYABLE)
  {
    if e.auditSentinel then ANSWER_AUDIT_FAILED
    else if Stable(e.errorCode).Some? then e.errorCode.value
    else if Stable(Some(e.className)).Some? then e.className
    else UNHANDLED
  }

  // ---------------------------------------------------------------- query specs

  /** A query spec as JSON text per field. */
  type Spec = map<string, string>

  // ---------------------------------------------------------------- rows

  datatype EventKind =
    | RunCreated
    | StateChanged(source: Status, target: Status)
    | RetrievalCompleted
    | GenerationRejected(attempt: nat, terminal: bool)
    | AnswerAuditRejected(attempt: nat, terminal: bool)
    | AnswerAuditCompleted(repairs: nat, normalized: bool)
    | AnswerPersisted(artifactId: Id)
    | ExecutionFailed(from: Status, errorType: string)

  type Event = Logged<EventKind>

  /** What _persist_answer stores about an answer. */
  datatype Stored = Stored(answer: GroundedAnswer, mode: string, querySpec: Spec)

  datatype Rows = Rows(status: Status, version: int, events: seq<Event>, invocations: seq<Id>, answer: Option<Stored>)

  datatype Session = Session(work: Rows, committed: Rows)

  /** A reserved run, with its first event. */
  function NewRun(startVersion: int): Rows {
    Rows(Received, startVersion, [Event(1, RunCreated)], [], None)
  }

  function WithEvent(r: Rows, kind: EventKind): Rows {
    r.(events := r.events + [Event(MaxSequence(r.events) + 1, kind)])
  }

  // ---------------------------------------------------------------- elementary writes

  datatype Act =
    | Move(status: Status)
    | Note(kind: EventKind)
    | Ledger(ids: seq<Id>)
    | Keep(stored: Stored)
    | Checkpoint

  function Recorded(r: Rows, act: Act): Rows {
    match act
    case Move(status) => WithEvent(r.(status := status, version := r.version + 1), StateChanged(r.status, status))
    case Note(kind) => WithEvent(r, kind)
    case Ledger(ids) => r.(invocations := Appended(r.invocations, ids))
    case Keep(stored) => WithEvent(r.(answer := Some(stored)), AnswerPersisted(stored.answer.provenance.artifactId))
    case Checkpoint => r
  }

  /** _append_model_invocations: ids already in the manifest are not repeated. */
  function Appended(ids: seq<Id>, more: seq<Id>): (r: seq<Id>)
    ensures forall id :: id in r <==> id in ids || id in more
  {
    if more == [] then ids
    else
      var front, last := Appended(ids, more[..|more| - 1]), more[|more| - 1];
      assert more == more[..|more| - 1] + [last];
      if last in front then front else front + [last]
  }

  /** What is entered comes after what was there, is new, and is entered once, in the order of first occurrence. */
  lemma {:induction false} AppendedInOrder(ids: seq<Id>, more: seq<Id>, n: nat)
    requires n <= |more|
    ensures var r := Appended(ids, more);
            && ids <= Appended(ids, more[..n]) <= r
            && NoDuplicates(r[|ids|..]) && forall id :: id in r[|ids|..] ==> id !in ids
  {
    if n < |more| {
      AppendedInOrder(ids, more[..|more| - 1], n);
      assert more[..|more| - 1][..n] == more[..n];
    } else {
      assert more[..n] == more;
      if more != [] {
        AppendedInOrder(ids, more[..|more| - 1], |more| - 1);
        assert more[..|more| - 1][..|more| - 1] == more[..|more| - 1];
      }
    }
    if more != [] { OneIdMore(ids, Appended(ids, more[..|more| - 1]), more[|more| - 1]); }
  }

  lemma {:induction false} OneIdMore(ids: seq<Id>, front: seq<Id>, last: Id)
    requires ids <= front && NoDuplicates(front[|ids|..]) && forall id :: id in front[|ids|..] ==> id !in ids
    ensures var r := if last in front then front else front + [last];
            front <= r && NoDuplicates(r[|ids|..]) && forall id :: id in r[|ids|..] ==> id !in ids
  {
    assert (front + [last])[|ids|..] == front[|ids|..] + [last];
    assert front == ids + front[|ids|..];
  }

  function Apply(s: Session, act: Act): Session {
    var work := Recorded(s.work, act);
    Session(work, if act.Checkpoint? then work else s.committed)
  }

  function Run(s: Session, acts: seq<Act>): Session {
    if acts == [] then s else Apply(Run(s, acts[..|acts| - 1]), acts[|acts| - 1])
  }

  lemma {:induction false} RunAppend(s: Session, first: seq<Act>, second: seq<Act>)
    ensures Run(s, first + second) == Run(Run(s, first), second)
    decreases |second|
  {
    if second == [] {
      assert first + second == first;
    } else {
      RunAppend(s, first, second[..|second| - 1]);
      assert (first + second)[..|first + second| - 1] == first + second[..|second| - 1];
    }
  }

  // ---------------------------------------------------------------- what the execution meets

  datatype Trace = Trace(id: Option<Id>, promptVersion: string)

  /** One call of the generator: the exceptions carry the traces their provider call left behind. */
  datatype GenOutcome =
    | GenThrows(exc: Exc, traced: seq<Trace>)
    | GenRejected(code: string, traced: seq<Trace>)
    | LedgerThrows(exc: Exc)
    | Generated(answer: GroundedAnswer, mode: string, traces: seq<Trace>)

  datatype AuditOutcome = AuditThrows(exc: Exc) | AuditReturns(findings: Findings)

  predicate Passes(outcome: AuditOutcome) {
    outcome.AuditReturns? && outcome.findings.Ok()
  }

  predicate Rejects(outcome: AuditOutcome) {
    outcome.AuditReturns? && !outcome.findings.Ok()
  }

  datatype RetrievalOutcome = RetrievalThrows(exc: Exc) | Retrieved(anySections: bool, querySpec: Spec, specValid: bool)

  /** The settings an answer is checked against, and its own run. */
  datatype Stamp = Stamp(runId: Id, promptVersion: string, contractVersion: string)

  /** Everything outside the service, validation of the query spec included. Generations are indexed by the number of
      the call; an audit answers for the number of the audit and the answer it is shown. */
  datatype Script = Script(
    stamp: Stamp, setup: Option<Exc>, retrieval: RetrievalOutcome, generations: nat -> GenOutcome,
    audits: (nat, GroundedAnswer) -> AuditOutcome, maxRepairs: nat)

  /** _model_invocation_ids: parsable ids, first occurrences only. */
  function TraceIds(traces: seq<Trace>): (ids: seq<Id>)
    ensures NoDuplicates(ids) && |ids| <= |traces|
  {
    if traces == [] then []
    else
      var front, last := TraceIds(traces[..|traces| - 1]), traces[|traces| - 1].id;
      if last.Some? && last.value !in front then front + [last.value] else front
  }

  predicate Traced(traces: seq<Trace>, id: Id) {
    exists t :: t in traces && t.id == Some(id)
  }

  /** They are exactly the ids that traces have. */
  lemma {:induction false} TraceIdsAreExact(traces: seq<Trace>, id: Id)
    ensures id in TraceIds(traces) <==> Traced(traces, id)
  {
    if traces != [] {
      var front, last := traces[..|traces| - 1], traces[|traces| - 1];
      TraceIdsAreExact(front, id);
      assert traces == front + [last];
    }
  }

  /** They come in the order of first occurrence. */
  lemma {:induction false} TraceIdsInOrder(traces: seq<Trace>, n: nat)
    requires n <= |traces|
    ensures TraceIds(traces[..n]) <= TraceIds(traces)
  {
    if n < |traces| {
      TraceIdsInOrder(traces[..|traces| - 1], n);
      assert traces[..|traces| - 1][..n] == traces[..n];
    } else {
      assert traces[..n] == traces;
    }
  }

  const TASK_ID := "grounded_qa"
  const PRODUCER := "grounded_qa"

  /** _validate_artifact_provenance. */
  predicate ProvenanceOk(stamp: Stamp, a: GroundedAnswer, traces: seq<Trace>) {
    && a.provenance.runId == stamp.runId && a.provenance.taskId == TASK_ID && a.base.producer == PRODUCER
    && a.provenance.promptVersion == stamp.promptVersion && a.provenance.contractVersion == stamp.contractVersion
    && (a.answerStatus == ABSTAINED <==> a.refusalReason.Some?)
    && |TraceIds(traces)| == |traces| && a.provenance.invocationIds == TraceIds(traces)
    && (forall t :: t in traces ==> t.promptVersion == a.provenance.promptVersion)
  }

  // ---------------------------------------------------------------- the plan of an execution

  datatype Candidate = Candidate(answer: GroundedAnswer, mode: string, traces: seq<Trace>)

  datatype GenResult = Ready(candidate: Candidate) | GenFailed(exc: Exc)
  datatype GenRun = GenRun(acts: seq<Act>, calls: nat, result: GenResult)

  /** The traces of a failed provider call reach the manifest and are committed. */
  function TraceActs(traced: seq<Trace>): seq<Act> {
    if traced == [] then [] else [Ledger(TraceIds(traced)), Checkpoint]
  }

  function Rejection(attempt: nat, terminal: bool): seq<Act> {
    [Note(GenerationRejected(attempt, terminal)), Checkpoint]
  }

  /** _generate_with_output_repairs, from its call number `call` on with `repairs` repairs made. */
  function Generate(script: Script, call: nat, repairs: nat): GenRun
    requires repairs <= script.maxRepairs
    decreases script.maxRepairs - repairs
  {
    match script.generations(call)
    case GenThrows(exc, traced) => GenRun(TraceActs(traced), 1, GenFailed(exc))
    case LedgerThrows(exc) => GenRun([], 1, GenFailed(exc))
    case Generated(answer, mode, traces) =>
      GenRun([Ledger(TraceIds(traces))], 1, Ready(Candidate(answer, mode, traces)))
    case GenRejected(code, traced) =>
      if repairs >= script.maxRepairs then
        GenRun(TraceActs(traced) + Rejection(repairs, true), 1,
            GenFailed(Exc(false, Some(code), "GroundedQAOutputRejected")))
      else
        var rest := Generate(script, call + 1, repairs + 1);
        GenRun(TraceActs(traced) + Rejection(repairs + 1, false) + rest.acts, rest.calls + 1, rest.result)
  }

  /** How the audit loop is left: with an answer that has passed, or by an exception. */
  datatype LoopEnd = Approved(candidate: Candidate, findings: Findings) | Dropped(exc: Exc)
  datatype AuditRun = AuditRun(acts: seq<Act>, calls: nat, audits: nat, verdict: LoopEnd)

  /** A rejected audit sends the run back to the generator. */
  function RepairActs(attempt: nat, g: GenRun): seq<Act> {
    [Note(AnswerAuditRejected(attempt, false)), Move(Generating), Checkpoint] + g.acts
  }

  function FailedRepair(attempt: nat, g: GenRun): AuditRun
    requires g.result.GenFailed?
  {
    AuditRun(RepairActs(attempt, g), g.calls, 1, Dropped(g.result.exc))
  }

  function RepairedAnd(attempt: nat, g: GenRun, rest: AuditRun): AuditRun {
    AuditRun(RepairActs(attempt, g) + ([Move(Auditing), Checkpoint] + rest.acts), g.calls + rest.calls, rest.audits + 1,
        rest.verdict)
  }

  /** The audit loop with a candidate in hand, after `calls` generator calls and `rounds` rejected audits. */
  function AuditRounds(script: Script, c: Candidate, calls: nat, rounds: nat): AuditRun
    requires rounds <= script.maxRepairs
    decreases script.maxRepairs - rounds
  {
    match script.audits(rounds, c.answer)
    case AuditThrows(exc) => AuditRun([], 0, 1, Dropped(exc))
    case AuditReturns(f) =>
      if f.Ok() then AuditRun([], 0, 1, Approved(c, f))
      else if rounds >= script.maxRepairs then
        AuditRun([Note(AnswerAuditRejected(rounds, true)), Checkpoint], 0, 1, Dropped(AUDIT_SENTINEL))
      else
        var g := Generate(script, calls, 0);
        if g.result.GenFailed? then FailedRepair(rounds + 1, g)
        else RepairedAnd(rounds + 1, g, AuditRounds(script, g.result.candidate, calls + g.calls, rounds + 1))
  }

  /** One turn of the loop, field by field. */
  lemma {:induction false} RoundFields(script: Script, c: Candidate, calls: nat, rounds: nat, g: GenRun)
    requires rounds < script.maxRepairs && g == Generate(script, calls, 0)
    requires Rejects(script.audits(rounds, c.answer))
    ensures g.result.GenFailed? ==>
              var here := AuditRounds(script, c, calls, rounds);
              && here.acts == RepairActs(rounds + 1, g) && here.calls == g.calls && here.audits == 1
              && here.verdict == Dropped(g.result.exc)
    ensures g.result.Ready? ==>
              var here, rest := AuditRounds(script, c, calls, rounds),
                  AuditRounds(script, g.result.candidate, calls + g.calls, rounds + 1);
              && here.acts == RepairActs(rounds + 1, g) + ([Move(Auditing), Checkpoint] + rest.acts)
              && here.calls == g.calls + rest.calls && here.audits == rest.audits + 1 && here.verdict == rest.verdict
  {
  }

  datatype End = Answered(stored: Stored) | Threw(exc: Exc)
  datatype Finish = Finish(acts: seq<Act>, end: End)

  /** After the loop: downgrade if it is due, check provenance, store and complete. */
  function Finishing(script: Script, verdict: LoopEnd, repairs: nat): Finish
    requires script.retrieval.Retrieved?
  {
    match verdict
    case Dropped(exc) => Finish([], Threw(exc))
    case Approved(c, f) =>
      var (answer, normalized) := Downgrade(c.answer, f);
      var noted := [Note(AnswerAuditCompleted(repairs, normalized))];
      if !ProvenanceOk(script.stamp, answer, c.traces) then Finish(noted, Threw(PROVENANCE_MISMATCH))
      else if !script.retrieval.specValid then Finish(noted, Threw(INVALID_SPEC))
      else
        var stored := Stored(answer, c.mode, script.retrieval.querySpec);
        Finish(noted + [Keep(stored), Move(Completed), Checkpoint], Answered(stored))
  }

  datatype Plan = Plan(acts: seq<Act>, calls: nat, audits: nat, end: End)

  /** The first candidate, audited, repaired and finished. */
  function FromCandidate(script: Script, c: Candidate, calls: nat): Plan
    requires script.retrieval.Retrieved?
  {
    var loop := AuditRounds(script, c, calls, 0);
    var finish := Finishing(script, loop.verdict, if loop.audits > 0 then loop.audits - 1 else 0);
    Plan(loop.acts + finish.acts, loop.calls, loop.audits, finish.end)
  }

  /** With nothing retrieved the run goes straight to AUDITING, where the abstention is then generated. */
  function FromGeneration(script: Script): Plan
    requires script.retrieval.Retrieved?
  {
    var g := Generate(script, 0, 0);
    var acts := EnterActs(script) + g.acts;
    if g.result.GenFailed? then Plan(acts, g.calls, 0, Threw(g.result.exc))
    else
      var rest := FromCandidate(script, g.result.candidate, g.calls);
      Plan(acts + (AuditEntry(script) + rest.acts), g.calls + rest.calls, rest.audits, rest.end)
  }

  function EnterActs(script: Script): seq<Act>
    requires script.retrieval.Retrieved?
  {
    [Move(if script.retrieval.anySections then Generating else Auditing), Checkpoint]
  }

  function AuditEntry(script: Script): seq<Act>
    requires script.retrieval.Retrieved?
  {
    if script.retrieval.anySections then [Move(Auditing), Checkpoint] else [Checkpoint]
  }

  /** From the first generation on, field by field. */
  lemma {:induction false} GenerationFields(script: Script, g: GenRun, result: GenResult, calls: nat)
    requires script.retrieval.Retrieved? && g == Generate(script, 0, 0) && result == g.result && calls == g.calls
    ensures result.GenFailed? ==>
              var p := FromGeneration(script);
              p.acts == EnterActs(script) + g.acts && p.calls == calls && p.audits == 0 && p.end == Threw(result.exc)
    ensures result.Ready? ==>
              var p, rest := FromGeneration(script), FromCandidate(script, result.candidate, calls);
              && p.acts == EnterActs(script) + g.acts + (AuditEntry(script) + rest.acts)
              && p.calls == calls + rest.calls && p.audits == rest.audits && p.end == rest.end
  {
  }

  /** _execute on a reserved run. */
  function ExecutionPlan(script: Script): Plan {
    if script.setup.Some? then Plan([], 0, 0, Threw(script.setup.value))
    else
      var opening := [Move(Authorized), Checkpoint, Move(Retrieving), Checkpoint];
      if script.retrieval.RetrievalThrows? then Plan(opening, 0, 0, Threw(script.retrieval.exc))
      else
        var rest := FromGeneration(script);
        rest.(acts := opening + ([Note(RetrievalCompleted), Checkpoint] + rest.acts))
  }
}
