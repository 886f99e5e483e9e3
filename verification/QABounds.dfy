/** How a QA execution ends: the answer it stores, and executions that use up all their repairs. */
module QABounds {
  import opened Common
  import opened Contracts
  import opened ClaimAudit
  import opened EvidenceAuditor
  import opened AnswerAudit
  import opened AnswerAgreement
  import opened AuditSoundness
  import opened QARun

  // ---------------------------------------------------------------- an answer has passed its audit

  /** What generator call k returned. */
  predicate Made(script: Script, k: nat, c: Candidate) {
    script.generations(k) == Generated(c.answer, c.mode, c.traces)
  }

  lemma {:induction false} GeneratedByACall(script: Script, call: nat, repairs: nat)
    requires repairs <= script.maxRepairs && Generate(script, call, repairs).result.Ready?
    ensures var g := Generate(script, call, repairs);
            g.calls > 0 && Made(script, call + g.calls - 1, g.result.candidate)
    decreases script.maxRepairs - repairs
  {
    if script.generations(call).GenRejected? { GeneratedByACall(script, call + 1, repairs + 1); }
  }

  /** The candidate an audit is shown, and the generator calls made so far. */
  datatype Turn = Turn(candidate: Candidate, calls: nat)

  function Regenerated(script: Script, calls: nat): Option<Turn> {
    match Generate(script, calls, 0).result
    case Ready(c) => Some(Turn(c, calls + Generate(script, calls, 0).calls))
    case GenFailed(_) => None
  }

  /** The run as it goes forward: what audit n is shown, if the run gets that far. */
  function TurnAt(script: Script, n: nat): Option<Turn> {
    if n == 0 then Regenerated(script, 0)
    else
      var before := TurnAt(script, n - 1);
      if before.None? || n > script.maxRepairs || !Rejects(script.audits(n - 1, before.value.candidate.answer))
      then None
      else Regenerated(script, before.value.calls)
  }

  /** What an audit is shown is what the last generator call before it returned. */
  lemma {:induction false} TurnShowsTheLastCall(script: Script, n: nat)
    requires TurnAt(script, n).Some?
    ensures var t := TurnAt(script, n).value; t.calls > 0 && Made(script, t.calls - 1, t.candidate)
  {
    if n == 0 {
      GeneratedByACall(script, 0, 0);
    } else {
      GeneratedByACall(script, TurnAt(script, n - 1).value.calls, 0);
    }
  }

  /** Audit n is shown c after `calls` generator calls, and rejects it or not. */
  predicate Shown(script: Script, n: nat, c: Candidate, calls: nat) {
    match TurnAt(script, n)
    case Some(t) => t == Turn(c, calls)
    case None => false
  }

  predicate RejectedAt(script: Script, n: nat) {
    match TurnAt(script, n)
    case Some(t) => Rejects(script.audits(n, t.candidate.answer))
    case None => false
  }

  /** Audits m to n - 1 have all rejected what they were shown. */
  predicate RejectedFrom(script: Script, m: nat, n: nat) {
    forall i :: m <= i < n ==> RejectedAt(script, i)
  }

  /** An approving loop goes on as `rest` after `more` generator calls. */
  predicate Extends(here: AuditRun, rest: AuditRun, more: nat) {
    match rest.verdict
    case Approved(_, _) =>
      rest.verdict == here.verdict && here.audits == rest.audits + 1 && here.calls == more + rest.calls
    case Dropped(_) => false
  }

  /** The loop with candidate c in hand, as it is shown to audit `rounds`. */
  predicate LoopFrom(script: Script, c: Candidate, calls: nat, rounds: nat, p: AuditRun) {
    if rounds > script.maxRepairs then false
    else Shown(script, rounds, c, calls) && p == AuditRounds(script, c, calls, rounds) && p.verdict.Approved?
  }

  /** A loop that ends in an approval after a rejected audit has generated again and gone on. */
  lemma {:induction false} LoopGoesOn(script: Script, c: Candidate, calls: nat, rounds: nat, p: AuditRun)
    returns (g: GenRun, rest: AuditRun)
    requires LoopFrom(script, c, calls, rounds, p) && !Passes(script.audits(rounds, c.answer))
    ensures rounds < script.maxRepairs && g.result.Ready? && RejectedAt(script, rounds)
    ensures LoopFrom(script, g.result.candidate, calls + g.calls, rounds + 1, rest)
    ensures Extends(p, rest, g.calls)
  {
    assert Rejects(script.audits(rounds, c.answer)) && rounds < script.maxRepairs;
    g := Generate(script, calls, 0);
    RoundFields(script, c, calls, rounds, g);
    rest := AuditRounds(script, g.result.candidate, calls + g.calls, rounds + 1);
  }

  /** The loop ends with audit n, after `calls` generator calls in all: n passes what it is shown, and that is
      approved. */
  predicate EndsWith(script: Script, end: LoopEnd, n: nat, calls: nat) {
    match end
    case Approved(c, f) => Shown(script, n, c, calls) && script.audits(n, c.answer) == AuditReturns(f) && f.Ok()
    case Dropped(_) => false
  }

  /** A loop entered at audit `rounds` after `calls` generator calls ends with its last audit, all others rejecting. */
  predicate Approves(script: Script, p: AuditRun, calls: nat, rounds: nat) {
    if p.audits == 0 then false
    else
      && EndsWith(script, p.verdict, rounds + p.audits - 1, calls + p.calls)
      && RejectedFrom(script, rounds, rounds + p.audits - 1)
  }

  lemma {:induction false} LoopStopsHere(script: Script, c: Candidate, calls: nat, rounds: nat)
    requires rounds <= script.maxRepairs && Shown(script, rounds, c, calls) && Passes(script.audits(rounds, c.answer))
    ensures Approves(script, AuditRounds(script, c, calls, rounds), calls, rounds)
  {
  }

  lemma {:induction false} OneRoundMore(
      script: Script, here: AuditRun, rest: AuditRun, calls: nat, more: nat, rounds: nat)
    requires RejectedAt(script, rounds) && Approves(script, rest, calls + more, rounds + 1)
    requires Extends(here, rest, more)
    ensures Approves(script, here, calls, rounds)
  {
  }

  /** The audit loop approves exactly the candidate its last audit has passed; every audit before rejected its own. */
  lemma {:induction false} LoopApproves(script: Script, c: Candidate, calls: nat, rounds: nat, p: AuditRun)
    requires LoopFrom(script, c, calls, rounds, p)
    ensures Approves(script, p, calls, rounds)
    decreases script.maxRepairs - rounds
  {
    if Passes(script.audits(rounds, c.answer)) {
      LoopStopsHere(script, c, calls, rounds);
    } else {
      var g, rest := LoopGoesOn(script, c, calls, rounds, p);
      LoopApproves(script, g.result.candidate, calls + g.calls, rounds + 1, rest);
      OneRoundMore(script, p, rest, calls, g.calls, rounds);
    }
  }

  // ---------------------------------------------------------------- which answers belong to a run

  /** The answer was made for this run by the QA agent, under the settings in force, has a refusal code exactly if it
      abstains, and names exactly the invocations of its generator call, each once and in order. */
  predicate Belongs(stamp: Stamp, a: GroundedAnswer, traces: seq<Trace>) {
    && a.provenance.runId == stamp.runId && a.provenance.taskId == "grounded_qa" && a.base.producer == "grounded_qa"
    && a.provenance.promptVersion == stamp.promptVersion && a.provenance.contractVersion == stamp.contractVersion
    && (a.answerStatus == ABSTAINED <==> a.refusalReason != None)
    && TracedAs(traces, a.provenance.invocationIds, stamp.promptVersion)
  }

  predicate TracedAs(traces: seq<Trace>, ids: seq<Id>, promptVersion: string) {
    && NoDuplicates(ids) && |ids| == |traces|
    && forall i :: 0 <= i < |traces| ==> traces[i] == Trace(Some(ids[i]), promptVersion)
  }

  lemma {:induction false} AllTraced(traces: seq<Trace>)
    requires |TraceIds(traces)| == |traces|
    ensures forall i :: 0 <= i < |traces| ==> traces[i].id == Some(TraceIds(traces)[i])
  {
    if traces != [] { AllTraced(traces[..|traces| - 1]); }
  }

  lemma {:induction false} TracedIds(traces: seq<Trace>, ids: seq<Id>)
    requires NoDuplicates(ids) && |ids| == |traces|
    requires forall i :: 0 <= i < |traces| ==> traces[i].id == Some(ids[i])
    ensures TraceIds(traces) == ids
  {
    if traces != [] {
      var front := ids[..|ids| - 1];
      TracedIds(traces[..|traces| - 1], front);
      assert ids == front + [ids[|ids| - 1]];
    }
  }

  lemma {:induction false} ProvenanceExactly(stamp: Stamp, a: GroundedAnswer, traces: seq<Trace>)
    ensures ProvenanceOk(stamp, a, traces) <==> Belongs(stamp, a, traces)
  {
    if ProvenanceOk(stamp, a, traces) {
      AllTraced(traces);
      forall i | 0 <= i < |traces|
        ensures traces[i] == Trace(Some(a.provenance.invocationIds[i]), a.provenance.promptVersion)
      {
        assert traces[i] in traces;
      }
    }
    if Belongs(stamp, a, traces) { TracedIds(traces, a.provenance.invocationIds); }
  }

  /** The stored answer is what generator call m returned, downgraded as audit n of that very answer says; the audit
      passes, and what is stored belongs to the run. */
  predicate Justified(script: Script, stored: Stored, n: nat, m: nat) {
    match script.generations(m)
    case Generated(answer, mode, traces) =>
      var outcome := script.audits(n, answer);
      && Passes(outcome) && stored.answer == Downgrade(answer, outcome.findings).0 && stored.mode == mode
      && Belongs(script.stamp, stored.answer, traces)
    case _ => false
  }

  lemma {:induction false} FinishedIsJustified(script: Script, end: LoopEnd, repairs: nat, n: nat, calls: nat)
    requires script.retrieval.Retrieved? && EndsWith(script, end, n, calls) && calls > 0
             && Made(script, calls - 1, end.candidate)
    requires Finishing(script, end, repairs).end.Answered?
    ensures Justified(script, Finishing(script, end, repairs).end.stored, n, calls - 1)
  {
    ProvenanceExactly(script.stamp, Finishing(script, end, repairs).end.stored.answer, end.candidate.traces);
  }

  /** A plan entered after `calls` generator calls that answers has stored what its last audit passed, which is what the
      last call returned; every earlier audit rejected its own. */
  predicate AnswersJustly(script: Script, p: Plan, calls: nat) {
    match p.end
    case Answered(stored) =>
      && p.audits > 0 && calls + p.calls > 0 && Justified(script, stored, p.audits - 1, calls + p.calls - 1)
      && RejectedFrom(script, 0, p.audits - 1)
    case Threw(_) => false
  }

  lemma {:induction false} LoopIsJustified(script: Script, loop: AuditRun, calls: nat, p: Plan)
    requires script.retrieval.Retrieved? && Approves(script, loop, calls, 0) && p.end.Answered?
    requires loop.audits > 0 && p.end == Finishing(script, loop.verdict, loop.audits - 1).end
    requires p.calls == loop.calls && p.audits == loop.audits
    ensures AnswersJustly(script, p, calls)
  {
    TurnShowsTheLastCall(script, loop.audits - 1);
    FinishedIsJustified(script, loop.verdict, loop.audits - 1, loop.audits - 1, calls + loop.calls);
  }

  lemma {:induction false} CandidateFields(script: Script, c: Candidate, calls: nat) returns (loop: AuditRun)
    requires script.retrieval.Retrieved? && Shown(script, 0, c, calls) && FromCandidate(script, c, calls).end.Answered?
    ensures LoopFrom(script, c, calls, 0, loop)
    ensures var p := FromCandidate(script, c, calls);
            && p.calls == loop.calls && p.audits == loop.audits
            && p.end == Finishing(script, loop.verdict, if loop.audits > 0 then loop.audits - 1 else 0).end
  {
    loop := AuditRounds(script, c, calls, 0);
  }

  lemma {:induction false} FromCandidateIsJustified(script: Script, c: Candidate, calls: nat, p: Plan)
    requires script.retrieval.Retrieved? && Shown(script, 0, c, calls)
    requires p == FromCandidate(script, c, calls) && p.end.Answered?
    ensures AnswersJustly(script, p, calls)
  {
    var loop := CandidateFields(script, c, calls);
    LoopApproves(script, c, calls, 0, loop);
    LoopIsJustified(script, loop, calls, p);
  }

  /** COMPLETED is reached only by storing what the last generator call returned, after the last audit has passed that
      very answer; every earlier audit was shown a candidate of its own and rejected it. */
  lemma {:induction false} AnswerHasPassed(script: Script)
    requires ExecutionPlan(script).end.Answered?
    ensures var p := ExecutionPlan(script);
            && p.audits > 0 && p.calls > 0 && Justified(script, p.end.stored, p.audits - 1, p.calls - 1)
            && RejectedFrom(script, 0, p.audits - 1)
  {
    var g := Generate(script, 0, 0);
    GenerationFields(script, g, g.result, g.calls);
    FirstTurn(script, g);
    FromCandidateIsJustified(script, g.result.candidate, g.calls, FromCandidate(script, g.result.candidate, g.calls));
  }

  lemma {:induction false} FirstTurn(script: Script, g: GenRun)
    requires g == Generate(script, 0, 0) && g.result.Ready?
    ensures Shown(script, 0, g.result.candidate, g.calls)
  {
  }

  /** What generator call k returns, if anything, satisfies its own validator, and audit n of it, if it returns, finds
      what the auditor finds in the given state of the tables. */
  predicate Regular(script: Script, n: nat, k: nat, ctx: Context, allowed: set<Id>, guards: AgentClaim -> Guards) {
    match script.generations(k)
    case Generated(a, _, _) =>
      ValidAnswer(a)
          && (script.audits(n, a).AuditReturns? ==> script.audits(n, a).findings == Audited(ctx, a, allowed, guards))
    case _ => true
  }

  lemma {:induction false} JustifiedStands(
      script: Script, stored: Stored, n: nat, k: nat, ctx: Context, allowed: set<Id>, guards: AgentClaim -> Guards)
    requires Justified(script, stored, n, k) && Regular(script, n, k, ctx, allowed, guards)
    ensures Stands(ctx, stored.answer, allowed, guards)
  {
    PassedAnswerStands(ctx, script.generations(k).answer, stored.answer, allowed, guards);
  }

  /** What a completed run has stored, end to end: in the state its last audit saw, every claim of the stored answer
      meets the contract on packed evidence that passes in full, the answer satisfies its own validator, and auditing it
      again passes, derives exactly its status and leaves no downgrade to make. */
  lemma {:induction false} StoredAnswerStands(
      script: Script, contexts: nat -> Context, allowed: set<Id>, guards: AgentClaim -> Guards, p: Plan)
    requires p == ExecutionPlan(script) && p.end.Answered?
    requires forall n: nat, k: nat :: Regular(script, n, k, contexts(n), allowed, guards)
    ensures p.audits > 0 && Stands(contexts(p.audits - 1), p.end.stored.answer, allowed, guards)
  {
    AnswerHasPassed(script);
    JustifiedStands(script, p.end.stored, p.audits - 1, p.calls - 1, contexts(p.audits - 1), allowed, guards);
  }

  // ---------------------------------------------------------------- the bounds are met

  /** Where the n-th call falls in its round of `width` calls. */
  function Position(n: nat, width: nat): nat
    requires width > 0
  {
    if n < width then n else Position(n - width, width)
  }

  /** A model whose output is rejected as often as allowed, and an auditor that never passes. */
  function Stubborn(script: Script, answer: GroundedAnswer): Script {
    var width := script.maxRepairs + 1;
    script.(
      setup := None, retrieval := Retrieved(true, map[], true),
      generations := (n: nat) => if Position(n, width) == width - 1 then Generated(answer, "llm", [])
          else GenRejected("UNSUPPORTED_OUTPUT", []),
      audits := (_, _) => AuditReturns(NO_FINDINGS.(answerOk := false)))
  }

  lemma {:induction false} PositionInRound(round: nat, width: nat, rest: nat)
    requires rest < width
    ensures Position(round * width + rest, width) == rest
  {
    if round > 0 {
      PositionInRound(round - 1, width, rest);
      assert round * width == (round - 1) * width + width;
    }
  }

  lemma {:induction false} StubbornGenerates(script: Script, answer: GroundedAnswer, round: nat, repairs: nat)
    requires repairs <= script.maxRepairs
    ensures var g := Generate(Stubborn(script, answer), round * (script.maxRepairs + 1) + repairs, repairs);
            g.calls == script.maxRepairs - repairs + 1 && g.result == Ready(Candidate(answer, "llm", []))
    decreases script.maxRepairs - repairs
  {
    var width := script.maxRepairs + 1;
    PositionInRound(round, width, repairs);
    if repairs < script.maxRepairs {
      StubbornGenerates(script, answer, round, repairs + 1);
      assert round * width + repairs + 1 == round * width + (repairs + 1);
    }
  }

  lemma {:induction false} StubbornRound(script: Script, answer: GroundedAnswer, call: nat, rounds: nat, width: nat)
    requires rounds < script.maxRepairs && width == script.maxRepairs + 1 && call == (rounds + 1) * width
    ensures var s, c := Stubborn(script, answer), Candidate(answer, "llm", []);
            var p, rest := AuditRounds(s, c, call, rounds), AuditRounds(s, c, call + width, rounds + 1);
            p.calls == width + rest.calls && p.audits == rest.audits + 1 && p.verdict == rest.verdict
  {
    StubbornGenerates(script, answer, rounds + 1, 0);
    assert (rounds + 1) * width + 0 == call;
  }

  lemma {:induction false} StubbornRounds(script: Script, answer: GroundedAnswer, call: nat, rounds: nat, width: nat)
    requires rounds <= script.maxRepairs && width == script.maxRepairs + 1 && call == (rounds + 1) * width
    ensures var p := AuditRounds(Stubborn(script, answer), Candidate(answer, "llm", []), call, rounds);
            && p.calls == (script.maxRepairs - rounds) * width
            && p.audits == script.maxRepairs - rounds + 1 && p.verdict == Dropped(AUDIT_SENTINEL)
    decreases script.maxRepairs - rounds
  {
    if rounds < script.maxRepairs {
      var left := script.maxRepairs - rounds;
      StubbornRound(script, answer, call, rounds, width);
      assert (rounds + 2) * width == call + width && left * width == (left - 1) * width + width;
      StubbornRounds(script, answer, call + width, rounds + 1, width);
    }
  }

  /** For every repair limit some execution makes all (R+1)*(R+1) generator calls and all R+1 audits. */
  lemma {:induction false} BoundsAreMet(script: Script, answer: GroundedAnswer)
    ensures var p, r := ExecutionPlan(Stubborn(script, answer)), script.maxRepairs;
            p.calls == (r + 1) * (r + 1) && p.audits == r + 1 && p.end == Threw(AUDIT_SENTINEL)
  {
    var width, s := script.maxRepairs + 1, Stubborn(script, answer);
    StubbornGenerates(script, answer, 0, 0);
    assert 0 * width + 0 == 0 && 1 * width == width;
    GenerationFields(s, Generate(s, 0, 0), Ready(Candidate(answer, "llm", [])), width);
    StubbornRounds(script, answer, width, 0, width);
    assert width + script.maxRepairs * width == width * width;
  }
}
