/** A QA execution never leaves its transition table, stays within its call bounds, and completes only after a
    passing audit and a stored answer, whatever the model, the retrieval and the auditor do. */
module QASafety {
  import opened Common
  import opened AnswerAgreement
  import opened QARun

  // ---------------------------------------------------------------- phases

  /** Where a run stands; Passed and Kept are the two steps between a passing audit and COMPLETED. */
  datatype Phase = Unborn | At(status: Status) | Passed | Kept | Done | Closed(errorType: string)

  function StatusOf(p: Phase): Status {
    match p
    case Unborn => Received
    case At(status) => status
    case Passed => Auditing
    case Kept => Auditing
    case Done => Completed
    case Closed(_) => RunFailed
  }

  /** Which event may come next, and where it leads. */
  function Follow(p: Phase, kind: EventKind): Option<Phase> {
    match kind
    case RunCreated => if p == Unborn then Some(At(Received)) else None
    case StateChanged(s, t) =>
      if t !in Allowed(s) || t == RunFailed then None
      else if t == Completed then if p == Kept && s == Auditing then Some(Done) else None
      else if p == At(s) then Some(At(t)) else None
    case RetrievalCompleted => if p == At(Retrieving) then Some(p) else None
    case GenerationRejected(_, _) => if p == At(Generating) || p == At(Auditing) then Some(p) else None
    case AnswerAuditRejected(_, _) => if p == At(Auditing) then Some(p) else None
    case AnswerAuditCompleted(_, _) => if p == At(Auditing) then Some(Passed) else None
    case AnswerPersisted(_) => if p == Passed then Some(Kept) else None
    case ExecutionFailed(from, errorType) =>
      if p == At(from) && RunFailed in Allowed(from) then Some(Closed(errorType)) else None
  }

  function ReadLog(events: seq<Event>): Option<Phase> {
    if events == [] then Some(Unborn)
    else
      var before := ReadLog(events[..|events| - 1]);
      if before.None? then None else Follow(before.value, events[|events| - 1].kind)
  }

  /** Which write may come next. */
  function Step(p: Phase, act: Act): Option<Phase> {
    match act
    case Move(t) => Follow(p, StateChanged(StatusOf(p), t))
    case Note(kind) =>
      if kind.StateChanged? || kind.ExecutionFailed? || kind.AnswerPersisted? then None else Follow(p, kind)
    case Ledger(_) => if p.At? then Some(p) else None
    case Keep(stored) => Follow(p, AnswerPersisted(stored.answer.provenance.artifactId))
    case Checkpoint => if p.At? || p == Done then Some(p) else None
  }

  /** The phases a list of writes goes through, each write being allowed where it comes. */
  predicate IsTrail(t: seq<Phase>, p: Phase, acts: seq<Act>, q: Phase) {
    && |t| == |acts| + 1 && t[0] == p && t[|acts|] == q
    && forall i :: 0 <= i < |acts| ==> Step(t[i], acts[i]) == Some(t[i + 1])
  }

  /** The writes lead from p to q without an illegal one. */
  ghost predicate Path(p: Phase, acts: seq<Act>, q: Phase) {
    exists t :: IsTrail(t, p, acts, q)
  }

  lemma {:induction false} Nowhere(p: Phase)
    ensures Path(p, [], p)
  {
    assert IsTrail([p], p, [], p);
  }

  lemma {:induction false} Join(p: Phase, first: seq<Act>, q: Phase, second: seq<Act>, r: Phase)
    requires Path(p, first, q) && Path(q, second, r)
    ensures Path(p, first + second, r)
  {
    var t :| IsTrail(t, p, first, q);
    var u :| IsTrail(u, q, second, r);
    var v := t + u[1..];
    forall i | 0 <= i < |first + second| ensures Step(v[i], (first + second)[i]) == Some(v[i + 1]) {
      if i >= |first| { assert v[i] == u[i - |first|] && v[i + 1] == u[i - |first| + 1]; }
    }
    assert IsTrail(v, p, first + second, r);
  }

  lemma {:induction false} Single(p: Phase, act: Act, q: Phase)
    requires Step(p, act) == Some(q)
    ensures Path(p, [act], q)
  {
    assert IsTrail([p, q], p, [act], q);
  }

  lemma {:induction false} Double(p: Phase, first: Act, q: Phase, second: Act, r: Phase)
    requires Step(p, first) == Some(q) && Step(q, second) == Some(r)
    ensures Path(p, [first, second], r)
  {
    assert IsTrail([p, q, r], p, [first, second], r);
  }

  lemma {:induction false} Triple(p: Phase, first: Act, q: Phase, second: Act, r: Phase, third: Act, s: Phase)
    requires Step(p, first) == Some(q) && Step(q, second) == Some(r) && Step(r, third) == Some(s)
    ensures Path(p, [first, second, third], s)
  {
    assert IsTrail([p, q, r, s], p, [first, second, third], s);
  }

  // ---------------------------------------------------------------- the plan is legal

  predicate Awaiting(p: Phase) {
    p == At(Generating) || p == At(Auditing)
  }

  lemma {:induction false} TracePath(p: Phase, traced: seq<Trace>)
    requires p.At?
    ensures Path(p, TraceActs(traced), p)
  {
    Nowhere(p);
    Double(p, Ledger(TraceIds(traced)), p, Checkpoint, p);
  }

  lemma {:induction false} RejectedPath(p: Phase, traced: seq<Trace>, attempt: nat, terminal: bool)
    requires Awaiting(p)
    ensures Path(p, TraceActs(traced) + Rejection(attempt, terminal), p)
  {
    TracePath(p, traced);
    Double(p, Note(GenerationRejected(attempt, terminal)), p, Checkpoint, p);
    Join(p, TraceActs(traced), p, Rejection(attempt, terminal), p);
  }

  lemma {:induction false} GeneratePath(script: Script, call: nat, repairs: nat, p: Phase)
    requires repairs <= script.maxRepairs && Awaiting(p)
    ensures Path(p, Generate(script, call, repairs).acts, p)
    decreases script.maxRepairs - repairs
  {
    match script.generations(call)
    case GenRejected(code, traced) =>
      if repairs >= script.maxRepairs {
        RejectedPath(p, traced, repairs, true);
      } else {
        RejectedPath(p, traced, repairs + 1, false);
        GeneratePath(script, call + 1, repairs + 1, p);
        Join(p, TraceActs(traced) + Rejection(repairs + 1, false), p, Generate(script, call + 1, repairs + 1).acts, p);
      }
    case GenThrows(_, traced) => TracePath(p, traced);
    case Generated(_, _, traces) => Single(p, Ledger(TraceIds(traces)), p);
    case LedgerThrows(_) => Nowhere(p);
  }

  /** Where a plan must lead, by its end: to COMPLETED exactly if it answers. */
  ghost predicate LeadsTo(p: Phase, plan: Plan) {
    exists q :: Path(p, plan.acts, q) && if plan.end.Answered? then q == Done else q.At? || q == Passed
  }

  lemma {:induction false} ThenPlan(p: Phase, first: seq<Act>, q: Phase, rest: Plan, whole: Plan)
    requires Path(p, first, q) && LeadsTo(q, rest)
    requires whole.acts == first + rest.acts && whole.end == rest.end
    ensures LeadsTo(p, whole)
  {
    var r :| Path(q, rest.acts, r) && if rest.end.Answered? then r == Done else r.At? || r == Passed;
    Join(p, first, q, rest.acts, r);
  }

  lemma {:induction false} RepairPath(script: Script, calls: nat, attempt: nat)
    ensures Path(At(Auditing), RepairActs(attempt, Generate(script, calls, 0)), At(Generating))
  {
    Triple(At(Auditing), Note(AnswerAuditRejected(attempt, false)), At(Auditing), Move(Generating), At(Generating),
        Checkpoint, At(Generating));
    GeneratePath(script, calls, 0, At(Generating));
    Join(At(Auditing), [Note(AnswerAuditRejected(attempt, false)), Move(Generating), Checkpoint], At(Generating),
         Generate(script, calls, 0).acts, At(Generating));
  }

  /** The audit loop ends where a candidate is accepted, or wherever a repair fails. */
  ghost predicate LoopLeads(run: AuditRun) {
    exists q :: Path(At(Auditing), run.acts, q) && q.At? && (run.verdict.Approved? ==> q == At(Auditing))
  }

  lemma {:induction false} RepairedPath(attempt: nat, g: GenRun, rest: AuditRun)
    requires Path(At(Auditing), RepairActs(attempt, g), At(Generating)) && LoopLeads(rest)
    ensures LoopLeads(RepairedAnd(attempt, g, rest))
  {
    var back := [Move(Auditing), Checkpoint];
    Double(At(Generating), Move(Auditing), At(Auditing), Checkpoint, At(Auditing));
    Join(At(Auditing), RepairActs(attempt, g), At(Generating), back, At(Auditing));
    assert RepairActs(attempt, g) + back + rest.acts == RepairActs(attempt, g) + (back + rest.acts);
    var q :| Path(At(Auditing), rest.acts, q) && q.At? && (rest.verdict.Approved? ==> q == At(Auditing));
    Join(At(Auditing), RepairActs(attempt, g) + back, At(Auditing), rest.acts, q);
  }

  lemma {:induction false} GiveUpPath(rounds: nat)
    ensures Path(At(Auditing), [Note(AnswerAuditRejected(rounds, true)), Checkpoint], At(Auditing))
  {
    Double(At(Auditing), Note(AnswerAuditRejected(rounds, true)), At(Auditing), Checkpoint, At(Auditing));
  }

  lemma {:induction false} RoundsPath(script: Script, c: Candidate, calls: nat, rounds: nat)
    requires rounds <= script.maxRepairs
    ensures LoopLeads(AuditRounds(script, c, calls, rounds))
    decreases script.maxRepairs - rounds
  {
    Nowhere(At(Auditing));
    GiveUpPath(rounds);
    if Rejects(script.audits(rounds, c.answer)) && rounds < script.maxRepairs {
      var g := Generate(script, calls, 0);
      RepairPath(script, calls, rounds + 1);
      if g.result.Ready? {
        RoundsPath(script, g.result.candidate, calls + g.calls, rounds + 1);
        RepairedPath(rounds + 1, g, AuditRounds(script, g.result.candidate, calls + g.calls, rounds + 1));
      }
    }
  }

  lemma {:induction false} FinishPath(script: Script, verdict: LoopEnd, repairs: nat)
    requires script.retrieval.Retrieved?
    ensures var f := Finishing(script, verdict, repairs);
            match f.end
            case Answered(_) => Path(At(Auditing), f.acts, Done)
            case Threw(_) => if verdict.Approved? then Path(At(Auditing), f.acts, Passed) else f.acts == []
  {
    match verdict
    case Dropped(_) =>
    case Approved(c, f) =>
      var (answer, normalized) := Downgrade(c.answer, f);
      var noted, stored := Note(AnswerAuditCompleted(repairs, normalized)),
          Stored(answer, c.mode, script.retrieval.querySpec);
      Single(At(Auditing), noted, Passed);
      Triple(Passed, Keep(stored), Kept, Move(Completed), Done, Checkpoint, Done);
      Join(At(Auditing), [noted], Passed, [Keep(stored), Move(Completed), Checkpoint], Done);
  }

  lemma {:induction false} CandidatePath(script: Script, c: Candidate, calls: nat)
    requires script.retrieval.Retrieved?
    ensures LeadsTo(At(Auditing), FromCandidate(script, c, calls))
  {
    var loop := AuditRounds(script, c, calls, 0);
    var repairs := if loop.audits > 0 then loop.audits - 1 else 0;
    var finish := Finishing(script, loop.verdict, repairs);
    RoundsPath(script, c, calls, 0);
    FinishPath(script, loop.verdict, repairs);
    var q :| Path(At(Auditing), loop.acts, q) && q.At? && (loop.verdict.Approved? ==> q == At(Auditing));
    if loop.verdict.Approved? {
      Join(At(Auditing), loop.acts, q, finish.acts, if finish.end.Answered? then Done else Passed);
    } else {
      assert loop.acts + [] == loop.acts;
    }
  }

  lemma {:induction false} OpeningPath(script: Script, start: Status)
    requires script.retrieval.Retrieved? && start == if script.retrieval.anySections then Generating else Auditing
    ensures Path(At(Retrieving), EnterActs(script), At(start)) && Path(At(start), AuditEntry(script), At(Auditing))
  {
    Double(At(Retrieving), Move(start), At(start), Checkpoint, At(start));
    if start == Generating {
      Double(At(Generating), Move(Auditing), At(Auditing), Checkpoint, At(Auditing));
    } else {
      Single(At(Auditing), Checkpoint, At(Auditing));
    }
  }

  lemma {:induction false} FailedPlan(p: Phase, acts: seq<Act>, q: Phase, plan: Plan)
    requires Path(p, acts, q) && q.At? && plan.acts == acts && plan.end.Threw?
    ensures LeadsTo(p, plan)
  {
  }

  lemma {:induction false} GenerationPath(script: Script)
    requires script.retrieval.Retrieved?
    ensures LeadsTo(At(Retrieving), FromGeneration(script))
  {
    var start := if script.retrieval.anySections then Generating else Auditing;
    var g, opening := Generate(script, 0, 0), EnterActs(script);
    OpeningPath(script, start);
    GeneratePath(script, 0, 0, At(start));
    Join(At(Retrieving), opening, At(start), g.acts, At(start));
    GenerationFields(script, g, g.result, g.calls);
    match g.result
    case GenFailed(exc) => FailedPlan(At(Retrieving), opening + g.acts, At(start), FromGeneration(script));
    case Ready(c) =>
      var rest := FromCandidate(script, c, g.calls);
      CandidatePath(script, c, g.calls);
      Join(At(Retrieving), opening + g.acts, At(start), AuditEntry(script), At(Auditing));
      Regroup(opening + g.acts, AuditEntry(script), rest.acts);
      ThenPlan(At(Retrieving), opening + g.acts + AuditEntry(script), At(Auditing), rest, FromGeneration(script));
  }

  lemma {:induction false} Regroup(first: seq<Act>, second: seq<Act>, third: seq<Act>)
    ensures first + second + third == first + (second + third)
  {
  }

  lemma {:induction false} FirstMoves()
    ensures Path(At(Received), [Move(Authorized), Checkpoint, Move(Retrieving), Checkpoint], At(Retrieving))
    ensures Path(At(Retrieving), [Note(RetrievalCompleted), Checkpoint], At(Retrieving))
  {
    Double(At(Received), Move(Authorized), At(Authorized), Checkpoint, At(Authorized));
    Double(At(Authorized), Move(Retrieving), At(Retrieving), Checkpoint, At(Retrieving));
    Join(At(Received), [Move(Authorized), Checkpoint], At(Authorized), [Move(Retrieving), Checkpoint], At(Retrieving));
    assert [Move(Authorized), Checkpoint] + [Move(Retrieving), Checkpoint]
           == [Move(Authorized), Checkpoint, Move(Retrieving), Checkpoint];
    Double(At(Retrieving), Note(RetrievalCompleted), At(Retrieving), Checkpoint, At(Retrieving));
  }

  /** No execution attempts a move outside the table, whatever it meets; it ends COMPLETED exactly if it answers. */
  lemma {:induction false} ExecutionIsLegal(script: Script)
    ensures LeadsTo(At(Received), ExecutionPlan(script))
  {
    Nowhere(At(Received));
    FirstMoves();
    if script.setup.None? && script.retrieval.Retrieved? {
      var opening, noted := [Move(Authorized), Checkpoint, Move(Retrieving), Checkpoint],
          [Note(RetrievalCompleted), Checkpoint];
      var rest := FromGeneration(script);
      GenerationPath(script);
      Join(At(Received), opening, At(Retrieving), noted, At(Retrieving));
      assert opening + noted + rest.acts == opening + (noted + rest.acts);
      ThenPlan(At(Received), opening + noted, At(Retrieving), rest, ExecutionPlan(script));
    }
  }

  // ---------------------------------------------------------------- bounds

  lemma {:induction false} GenerateBound(script: Script, call: nat, repairs: nat)
    requires repairs <= script.maxRepairs
    ensures 1 <= Generate(script, call, repairs).calls <= script.maxRepairs - repairs + 1
    decreases script.maxRepairs - repairs
  {
    match script.generations(call)
    case GenRejected(_, _) =>
      if repairs < script.maxRepairs { GenerateBound(script, call + 1, repairs + 1); }
    case _ =>
  }

  lemma {:induction false} RoundsBound(script: Script, c: Candidate, calls: nat, rounds: nat)
    requires rounds <= script.maxRepairs
    ensures var p := AuditRounds(script, c, calls, rounds);
            1 <= p.audits <= script.maxRepairs - rounds + 1
                && p.calls <= (script.maxRepairs - rounds) * (script.maxRepairs + 1)
    decreases script.maxRepairs - rounds
  {
    if Rejects(script.audits(rounds, c.answer)) && rounds < script.maxRepairs {
      var g := Generate(script, calls, 0);
      GenerateBound(script, calls, 0);
      OneRoundMore(script.maxRepairs - rounds, script.maxRepairs + 1, g.calls);
      if g.result.Ready? { RoundsBound(script, g.result.candidate, calls + g.calls, rounds + 1); }
    }
  }

  lemma {:induction false} OneRoundMore(left: nat, width: nat, calls: nat)
    requires left > 0 && calls <= width
    ensures calls + (left - 1) * width <= left * width && 0 <= (left - 1) * width
  {
    assert left * width == (left - 1) * width + width;
  }

  /** At most R+1 audits and (R+1)*(R+1) calls of the generator. */
  lemma {:induction false} ExecutionIsBounded(script: Script)
    ensures var p, r := ExecutionPlan(script), script.maxRepairs;
            p.audits <= r + 1 && p.calls <= (r + 1) * (r + 1)
  {
    var r := script.maxRepairs;
    if script.setup.None? && script.retrieval.Retrieved? {
      var g := Generate(script, 0, 0);
      GenerateBound(script, 0, 0);
      OneRoundMore(r + 1, r + 1, g.calls);
      if g.result.Ready? { RoundsBound(script, g.result.candidate, g.calls, 0); }
    }
  }
}
