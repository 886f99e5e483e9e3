/** What a review leaves behind when it is cut off or stops early, and what human decisions leave in the log
    (src/creditlens/agents/supervisor.py:236-446, 847-990). */
module ReviewStages {
  import opened Common
  import opened Contracts
  import opened EvidenceAuditor
  import opened ClaimAudit
  import opened FullReview
  import opened HumanReview
  import ReviewSafety
  import opened AutomaticPath
  import opened ReviewEndings

  // ---------------------------------------------------------------- what a crash loses

  /** A write after which everything is committed, if stages commit. */
  predicate EndsStage(act: Act) {
    act.To? || act.Checkpoint? || act.Commit?
  }

  lemma {:induction false} SettingStays(s: Session, acts: seq<Act>)
    ensures Run(s, acts).commitEachStage == s.commitEachStage
  {
    if acts != [] { SettingStays(s, acts[..|acts| - 1]); }
  }

  lemma {:induction false} LastWrite(s: Session, acts: seq<Act>, k: nat)
    requires 0 < k <= |acts|
    ensures Run(s, acts[..k]) == Apply(Run(s, acts[..k - 1]), acts[k - 1])
  {
    assert acts[..k][..k - 1] == acts[..k - 1];
  }

  lemma {:induction false} StageCommits(s: Session, act: Act)
    requires s.commitEachStage
    ensures EndsStage(act) ==> Apply(s, act).committed == Apply(s, act).work
    ensures !EndsStage(act) ==> Apply(s, act).committed == s.committed
  {
  }

  lemma {:induction false} CommittedByStage(s: Session, acts: seq<Act>, m: nat, k: nat)
    requires s.commitEachStage && 0 < m <= k <= |acts| && EndsStage(acts[m - 1])
    requires forall j :: m <= j < k ==> !EndsStage(acts[j])
    ensures Run(s, acts[..k]).committed == Run(s, acts[..m]).work
    decreases k
  {
    LastWrite(s, acts, k);
    SettingStays(s, acts[..k - 1]);
    StageCommits(Run(s, acts[..k - 1]), acts[k - 1]);
    if m < k { CommittedByStage(s, acts, m, k - 1); }
  }

  /** If every stage commits, a crash loses exactly what was written since the last move, checkpoint or commit. */
  lemma {:induction false} CrashLosesOneStage(script: Script, startVersion: int, freshWriter: bool, m: nat, k: nat)
    requires 0 < m <= k <= |ReviewPlan(script).acts| && EndsStage(ReviewPlan(script).acts[m - 1])
    requires forall j :: m <= j < k ==> !EndsStage(ReviewPlan(script).acts[j])
    ensures Survives(script, startVersion, freshWriter, true, k)
         == Run(Open(NewRun(startVersion), freshWriter, true), ReviewPlan(script).acts[..m]).work
  {
    CommittedByStage(Open(NewRun(startVersion), freshWriter, true), ReviewPlan(script).acts, m, k);
  }

  lemma {:induction false} NothingCommitted(s: Session, acts: seq<Act>)
    requires !s.commitEachStage && Commit !in acts
    ensures Run(s, acts).committed == s.committed
  {
    if acts != [] {
      assert acts == acts[..|acts| - 1] + [acts[|acts| - 1]];
      NothingCommitted(s, acts[..|acts| - 1]);
      SettingStays(s, acts[..|acts| - 1]);
    }
  }

  /** If stages do not commit, a crash before the end loses everything. */
  lemma {:induction false} CrashLosesAll(script: Script, startVersion: int, freshWriter: bool, k: nat)
    requires k <= |ReviewPlan(script).acts| && Commit !in ReviewPlan(script).acts[..k]
    ensures Survives(script, startVersion, freshWriter, false, k) == NewRun(startVersion)
  {
    NothingCommitted(Open(NewRun(startVersion), freshWriter, false), ReviewPlan(script).acts[..k]);
  }

  // ---------------------------------------------------------------- finished turns survive

  /** The artifacts kept of the first n agents. */
  function KeptOfFirst(script: Script, n: nat): seq<AgentArtifact> {
    (if n >= 1 then KeptOf(script.policy, "policy_analyst") else [])
    + (if n >= 2 then KeptOf(script.financial, "financial_analyst") else [])
    + (if n >= 3 && script.risk.Some? then KeptOf(script.risk.value, "risk_analyst") else [])
  }

  lemma {:induction false} FirstKept(script: Script, n: nat)
    requires n <= |AgentTasks(script)|
    ensures TurnsSum(AgentTasks(script), n).kept == KeptOfFirst(script, n)
  {
    if n > 0 { FirstKept(script, n - 1); }
  }

  lemma {:induction false} TurnEndsCommitted(produced: seq<AgentArtifact>, run: TaskRun)
    requires TaskStep(produced, run).next == GoOn
    ensures var acts := TaskStep(produced, run).acts; acts != [] && acts[|acts| - 1] == Checkpoint
  {
  }

  lemma {:induction false} TurnsEndCommitted(tasks: seq<TaskRun>, n: nat)
    requires 0 < n <= |tasks| && AfterTasks(tasks, n).next == GoOn
    ensures var acts := AfterTasks(tasks, n).acts; acts != [] && acts[|acts| - 1] == Checkpoint
  {
    ReviewSafety.OneTaskMore(tasks, n);
    TurnEndsCommitted(AfterTasks(tasks, n - 1).produced, tasks[n - 1]);
  }

  lemma {:induction false} TurnsAreAppended(tasks: seq<TaskRun>, n: nat, m: nat)
    requires n <= m <= |tasks|
    ensures AfterTasks(tasks, n).acts <= AfterTasks(tasks, m).acts
    decreases m
  {
    if n < m {
      TurnsAreAppended(tasks, n, m - 1);
      ReviewSafety.OneTaskMore(tasks, m);
    }
  }

  /** The plan begins with the first turns. */
  lemma {:induction false} PlanBegins(script: Script, n: nat)
    requires script.caseExists && script.hasDocuments && n <= |AgentTasks(script)|
    ensures START + AfterTasks(AgentTasks(script), n).acts <= ReviewPlan(script).acts
  {
    var tasks := AgentTasks(script);
    TurnsAreAppended(tasks, n, |tasks|);
    assert BodyPlan(script) == StagesPlan(script);
    assert [To(Planning), To(Executing)] + AfterTasks(tasks, |tasks|).acts <= StagesPlan(script).acts;
    assert [To(Authorized), To(ValidatingCase)] + StagesPlan(script).acts <= ReviewPlan(script).acts;
  }

  predicate CommittedFirst(s: Session) {
    s.committed.artifacts <= s.work.artifacts
  }

  lemma {:induction false} WriteGrows(s: Session, act: Act)
    requires CommittedFirst(s)
    ensures CommittedFirst(Apply(s, act)) && s.committed.artifacts <= Apply(s, act).committed.artifacts
  {
  }

  lemma {:induction false} ArtifactsGrow(s: Session, acts: seq<Act>, m: nat, k: nat)
    requires m <= k <= |acts| && CommittedFirst(s)
    ensures CommittedFirst(Run(s, acts[..k]))
    ensures Run(s, acts[..m]).committed.artifacts <= Run(s, acts[..k]).committed.artifacts
    decreases k
  {
    if k > 0 {
      LastWrite(s, acts, k);
      ArtifactsGrow(s, acts, if m < k then m else k - 1, k - 1);
      WriteGrows(Run(s, acts[..k - 1]), acts[k - 1]);
    }
  }

  /** If every stage commits, whatever happens after an agent's turn is over, that agent's artifact is kept, and so are
      those of the agents before it. */
  lemma {:induction false} FinishedTurnsSurvive(
      script: Script, startVersion: int, freshWriter: bool, n: nat, k: nat)
    requires script.caseExists && script.hasDocuments && 0 < n <= |AgentTasks(script)|
    requires AfterTasks(AgentTasks(script), n).next == GoOn
    requires |START + AfterTasks(AgentTasks(script), n).acts| <= k <= |ReviewPlan(script).acts|
    ensures KeptOfFirst(script, n) <= Survives(script, startVersion, freshWriter, true, k).artifacts
  {
    var s, acts := Open(NewRun(startVersion), freshWriter, true), ReviewPlan(script).acts;
    var first := START + AfterTasks(AgentTasks(script), n).acts;
    PlanBegins(script, n);
    TurnsEndCommitted(AgentTasks(script), n);
    var m := |first|;
    assert acts[..m] == first && acts[m - 1] == first[m - 1];
    CommittedByStage(s, acts, m, m);
    TurnsHold(script, s, n);
    ArtifactsGrow(s, acts, m, k);
  }

  lemma {:induction false} TurnsHold(script: Script, s: Session, n: nat)
    requires n <= |AgentTasks(script)| && AfterTasks(AgentTasks(script), n).next == GoOn && Holds(s.work, NOTHING)
    ensures Run(s, START + AfterTasks(AgentTasks(script), n).acts).work.artifacts == KeptOfFirst(script, n)
  {
    var acts := AfterTasks(AgentTasks(script), n).acts;
    MovesAddNothing();
    MovesAreProper();
    TurnsAdd(AgentTasks(script), n);
    TurnsAreProper(AgentTasks(script), n);
    AddUp(START, acts);
    ProperParts(START, acts);
    RunAdds(s, START + acts);
    FirstKept(script, n);
  }

  // ---------------------------------------------------------------- what a failure leaves

  /** The artifacts, the tasks named degraded, and the notes in the log of an execution that went to its end. */
  function LeftBy(script: Script, startVersion: int, freshWriter: bool, commitEachStage: bool): Sum {
    var db := FinalRows(script, startVersion, freshWriter, commitEachStage);
    Sum(db.artifacts, db.degraded, NotesIn(db.events))
  }

  lemma {:induction false} PlanLeaves(
      script: Script, startVersion: int, freshWriter: bool, commitEachStage: bool, sum: Sum)
    requires SumOf(ReviewPlan(script).acts) == sum && Proper(ReviewPlan(script).acts)
    requires HasEnd(BodyPlan(script).acts, RunFailed) && !BodyPlan(script).raises
    ensures LeftBy(script, startVersion, freshWriter, commitEachStage) == sum
  {
    var s, acts := Open(NewRun(startVersion), freshWriter, commitEachStage), ReviewPlan(script).acts;
    EndsAlike([To(Authorized), To(ValidatingCase)], BodyPlan(script).acts, RunFailed);
    EndsWithMove(s, acts, RunFailed);
    RunAdds(s, acts);
  }

  /** The turn of a critical agent that stops the loop. */
  lemma {:induction false} StoppingTurnAdds(produced: seq<AgentArtifact>, run: TaskRun)
    requires TaskStep(produced, run).next == Stop
    ensures SumOf(TaskStep(produced, run).acts)
         == Sum(KeptOf(run.outcome, Producer(run.task)), [], [TaskFailed(run.task)])
  {
    var a := if run.outcome.Produced? then run.outcome.artifact else FailedArtifact(Producer(run.task));
    Three(Persist(a), Emit(TaskFailed(run.task)), To(RunFailed));
    assert TaskStep(produced, run).acts == [Persist(a), Emit(TaskFailed(run.task)), To(RunFailed)];
  }

  /** The loop stops in turn n, with `before` added up until then. */
  predicate StopsAt(script: Script, n: nat, before: Sum) {
    if n == 0 || n > |AgentTasks(script)| then false
    else
      var p, q := AfterTasks(AgentTasks(script), n - 1), AfterTasks(AgentTasks(script), n);
      p.next == GoOn && SumOf(p.acts) == before && q.next == Stop && HasEnd(q.acts, RunFailed)
  }

  /** The turn it stops in. */
  function LastTurn(script: Script, n: nat): Sum {
    if n == 0 || n > |AgentTasks(script)| then NOTHING
    else
      var run := AgentTasks(script)[n - 1];
      Sum(KeptOf(run.outcome, Producer(run.task)), [], [TaskFailed(run.task)])
  }

  lemma {:induction false} StoppedLoopLeaves(
      script: Script, n: nat, startVersion: int, freshWriter: bool, commitEachStage: bool, before: Sum)
    requires script.caseExists && script.hasDocuments && StopsAt(script, n, before)
    ensures LeftBy(script, startVersion, freshWriter, commitEachStage) == Plus(before, LastTurn(script, n))
  {
    LastTurnAdds(AgentTasks(script), n, AfterTasks(AgentTasks(script), n - 1), before, LastTurn(script, n));
    StoppedPlan(script, n, startVersion, freshWriter, commitEachStage, Plus(before, LastTurn(script, n)));
  }

  lemma {:induction false} LastTurnAdds(tasks: seq<TaskRun>, n: nat, p: Progress, before: Sum, last: Sum)
    requires 0 < n <= |tasks| && p == AfterTasks(tasks, n - 1) && p.next == GoOn && AfterTasks(tasks, n).next == Stop
    requires SumOf(p.acts) == before
    requires last == Sum(KeptOf(tasks[n - 1].outcome, Producer(tasks[n - 1].task)), [], [TaskFailed(tasks[n - 1].task)])
    ensures SumOf(AfterTasks(tasks, n).acts) == Plus(before, last)
  {
    var q := TaskStep(p.produced, tasks[n - 1]);
    ReviewSafety.OneTaskMore(tasks, n);
    StoppingTurnAdds(p.produced, tasks[n - 1]);
    AddsUpTo(AfterTasks(tasks, n).acts, p.acts, q.acts, before, last);
  }

  lemma {:induction false} AddsUpTo(all: seq<Act>, first: seq<Act>, second: seq<Act>, a: Sum, b: Sum)
    requires all == first + second && SumOf(first) == a && SumOf(second) == b
    ensures SumOf(all) == Plus(a, b)
  {
    AddUp(first, second);
  }

  lemma {:induction false} StoppedPlan(
      script: Script, n: nat, startVersion: int, freshWriter: bool, commitEachStage: bool, sum: Sum)
    requires script.caseExists && script.hasDocuments && n <= |AgentTasks(script)|
    requires AfterTasks(AgentTasks(script), n).next == Stop && HasEnd(AfterTasks(AgentTasks(script), n).acts, RunFailed)
    requires SumOf(AfterTasks(AgentTasks(script), n).acts) == sum
    ensures LeftBy(script, startVersion, freshWriter, commitEachStage) == sum
  {
    var tasks := AgentTasks(script);
    var acts := AfterTasks(tasks, n).acts;
    StoppedStays(tasks, n, |tasks|);
    StoppedStages(script);
    EndsAlike([To(Planning), To(Executing)], acts, RunFailed);
    assert ReviewPlan(script).acts == START + acts + [Commit];
    TurnsAreProper(tasks, n);
    WholeStop(acts, sum);
    PlanLeaves(script, startVersion, freshWriter, commitEachStage, sum);
  }

  lemma {:induction false} WholeStop(acts: seq<Act>, sum: Sum)
    requires SumOf(acts) == sum && Proper(acts)
    ensures SumOf(START + acts + [Commit]) == sum && Proper(START + acts + [Commit])
  {
    MovesAddNothing();
    MovesAreProper();
    One(Commit);
    AddUp(START, acts);
    AddUp(START + acts, [Commit]);
    Grouped(sum, NOTHING, NOTHING);
    ProperParts(START, acts);
    ProperParts(START + acts, [Commit]);
  }

  /** A policy agent that fails leaves its artifact, or an empty one in its place, and one note. */
  lemma {:induction false} PolicyFailureLeaves(
      script: Script, startVersion: int, freshWriter: bool, commitEachStage: bool)
    requires script.caseExists && script.hasDocuments && Failed(script.policy)
    requires script.policy.Produced? ==> NoDuplicates(ClaimIds(script.policy.artifact.claims))
    ensures LeftBy(script, startVersion, freshWriter, commitEachStage) ==
              Sum(KeptOf(script.policy, "policy_analyst"), [], [TaskFailed(PolicyTask)])
  {
    PolicyStops(script);
    Grouped(LastTurn(script, 1), NOTHING, NOTHING);
    StoppedLoopLeaves(script, 1, startVersion, freshWriter, commitEachStage, NOTHING);
  }

  lemma {:induction false} PolicyStops(script: Script)
    requires Failed(script.policy)
    requires script.policy.Produced? ==> NoDuplicates(ClaimIds(script.policy.artifact.claims))
    ensures StopsAt(script, 1, NOTHING)
  {
    if script.policy.Produced? { FreeAlone(script.policy.artifact); }
    PolicyTurn(script);
    NoTasksYet(AgentTasks(script));
  }

  lemma {:induction false} ThenFinancialStops(script: Script)
    requires AfterTasks(AgentTasks(script), 1).next == GoOn && AfterTasks(AgentTasks(script), 2).next == Stop
    requires HasEnd(AfterTasks(AgentTasks(script), 2).acts, RunFailed)
    ensures StopsAt(script, 2, TurnSum(script.policy, PolicyTask, "policy_analyst"))
  {
    FirstTurnAdds(script);
  }

  lemma {:induction false} FirstTurnAdds(script: Script)
    requires AfterTasks(AgentTasks(script), 1).next == GoOn
    ensures SumOf(AfterTasks(AgentTasks(script), 1).acts) == TurnSum(script.policy, PolicyTask, "policy_analyst")
  {
    TurnsAdd(AgentTasks(script), 1);
    Grouped(TurnSum(script.policy, PolicyTask, "policy_analyst"), NOTHING, NOTHING);
    assert TurnsSum(AgentTasks(script), 0) == NOTHING;
  }

  lemma {:induction false} BothTurns(script: Script, first: Sum, last: Sum)
    requires Succeeded(script.policy) && first == TurnSum(script.policy, PolicyTask, "policy_analyst")
    requires last == LastTurn(script, 2)
    ensures Plus(first, last) ==
              Sum(KeptOf(script.policy, "policy_analyst") + KeptOf(script.financial, "financial_analyst"),
                  If(SaysDegraded(script.policy), PolicyTask),
                  NotesOn(script.policy, PolicyTask) + [TaskFailed(FinancialTask)])
  {
    assert first.named + [] == first.named;
  }

  /** A financial agent that fails, once policy has gone through, leaves both artifacts and what both came to. */
  lemma {:induction false} FinancialFailureLeaves(
      script: Script, startVersion: int, freshWriter: bool, commitEachStage: bool)
    requires script.caseExists && script.hasDocuments && Failed(script.financial)
    requires Succeeded(script.policy) && NoDuplicates(ClaimIds(script.policy.artifact.claims))
    requires script.financial.Produced? ==>
               NoDuplicates(ClaimIds(script.policy.artifact.claims) + ClaimIds(script.financial.artifact.claims))
    ensures LeftBy(script, startVersion, freshWriter, commitEachStage) ==
              Sum(KeptOf(script.policy, "policy_analyst") + KeptOf(script.financial, "financial_analyst"),
                  If(SaysDegraded(script.policy), PolicyTask),
                  NotesOn(script.policy, PolicyTask) + [TaskFailed(FinancialTask)])
  {
    var first := TurnSum(script.policy, PolicyTask, "policy_analyst");
    FinancialStops(script);
    ThenFinancialStops(script);
    BothTurns(script, first, LastTurn(script, 2));
    StoppedLoopLeaves(script, 2, startVersion, freshWriter, commitEachStage, first);
  }

  // ---------------------------------------------------------------- an audit that raises

  function AuditFailureNotes(script: Script): seq<EventKind> {
    NotesOn(script.policy, PolicyTask) + NotesOn(script.financial, FinancialTask)
    + (if script.risk.Some? then NotesOn(script.risk.value, RiskTask) else [])
    + If(script.challenger.Raised?, TaskFailed(ChallengerTask)) + [AuditFailed]
  }

  const RAISED := Sum([AgentArtifact("auditor", FAILED, [], [], [], false)], [], [AuditFailed])

  lemma {:induction false} RaisedWritesAdd(failed: AgentArtifact)
    ensures SumOf([To(Auditing), Persist(failed)]) == Sum([failed], [], [])
    ensures SumOf([Emit(AuditFailed), To(RunFailed), Commit]) == Sum([], [], [AuditFailed])
  {
    Two(To(Auditing), Persist(failed));
    Three(Emit(AuditFailed), To(RunFailed), Commit);
  }

  lemma {:induction false} RaisedAuditAdds(produced: seq<AgentArtifact>, reportRaises: bool)
    ensures SumOf(LastActs(produced, AuditRaised, reportRaises)) == RAISED
  {
    var failed := FailedArtifact("auditor");
    RaisedWritesAdd(failed);
    assert LastActs(produced, AuditRaised, reportRaises)
        == [To(Auditing), Persist(failed)] + [Emit(AuditFailed), To(RunFailed), Commit];
    AddsUpTo(LastActs(produced, AuditRaised, reportRaises), [To(Auditing), Persist(failed)],
             [Emit(AuditFailed), To(RunFailed), Commit], Sum([failed], [], []), Sum([], [], [AuditFailed]));
  }

  lemma {:induction false} RaisedSum(script: Script)
    requires Succeeded(script.policy) && Succeeded(script.financial)
    ensures Plus(AgentsSum(script), Plus(ChallengeSum(script.challenger), RAISED))
         == Sum(Kept(script) + RAISED.kept, Named(script), AuditFailureNotes(script))
  {
    AgentsSumParts(script);
    FourSums(TurnSum(script.policy, PolicyTask, "policy_analyst"),
             TurnSum(script.financial, FinancialTask, "financial_analyst"), RiskSum(script),
             Plus(ChallengeSum(script.challenger), RAISED.(noted := [])), [AuditFailed]);
  }

  lemma {:induction false} RaisedPlanAdds(script: Script)
    requires TurnsGoOn(script) && script.audit.AuditRaised?
    ensures SumOf(ReviewPlan(script).acts) == Plus(AgentsSum(script), Plus(ChallengeSum(script.challenger), RAISED))
  {
    var tasks := AgentTasks(script);
    var agents := AfterTasks(tasks, |tasks|);
    var challenge := ChallengeStep(agents.produced, script.challenger);
    PlanParts(script, agents, challenge);
    MovesAddNothing();
    TurnsAdd(tasks, |tasks|);
    AgentsAdd(script);
    ChallengeAdds(agents.produced, script.challenger);
    RaisedAuditAdds(challenge.produced, script.reportRaises);
    AddAll(START, agents.acts, AgentsSum(script), MIDDLE, challenge.acts, ChallengeSum(script.challenger),
           LastActs(challenge.produced, script.audit, script.reportRaises), RAISED);
  }

  lemma {:induction false} RaisedPlanEnds(script: Script)
    requires TurnsGoOn(script) && script.audit.AuditRaised?
    ensures HasEnd(BodyPlan(script).acts, RunFailed) && !BodyPlan(script).raises
  {
    var agents := AfterTasks(AgentTasks(script), |AgentTasks(script)|);
    AuditRaisedEnds(script, agents.produced);
    EndsAlike([To(Planning), To(Executing)] + agents.acts, LateStages(agents.produced, script).acts, RunFailed);
  }

  /** An auditor that raises leaves what every agent came to, and an empty failed artifact in the auditor's name. */
  lemma {:induction false} AuditFailureLeaves(
      script: Script, startVersion: int, freshWriter: bool, commitEachStage: bool, ctx: Context)
    requires GoesThrough(script.(audit := AuditRan(ctx))) && script.audit.AuditRaised?
    ensures LeftBy(script, startVersion, freshWriter, commitEachStage) ==
              Sum(Kept(script) + [AgentArtifact("auditor", FAILED, [], [], [], false)], Named(script),
                  AuditFailureNotes(script))
  {
    AgentLoopExactly(script);
    assert Collected(script) == Professional(script) + [Challenge(script)];
    DistinctPrefix(Professional(script), [Challenge(script)]);
    ChallengeExactly(Professional(script), script.challenger);
    RaisedPlanAdds(script);
    RaisedSum(script);
    PlanIsProper(script);
    RaisedPlanEnds(script);
    PlanLeaves(script, startVersion, freshWriter, commitEachStage,
               Sum(Kept(script) + RAISED.kept, Named(script), AuditFailureNotes(script)));
  }

  // ---------------------------------------------------------------- what decisions leave in the log

  lemma {:induction false} RulingAdds(db: Db, d: Decision, left: set<Id>)
    requires d.idempotencyKey.Some? && IsRuling(d.action)
    requires left == Blocking(MarkAll(db.claims, TargetIds(d.targets), Judgement(d.action)))
    ensures SumOf(DecisionActs(db, d))
            == Sum([], [], [HumanDecided(d.action)] + If(left != {}, HumanReviewPending(|left|)))
    ensures Proper(DecisionActs(db, d))
  {
    var first := [Record(d.idempotencyKey.value, d), Judge(TargetIds(d.targets), Judgement(d.action))];
    Two(first[0], first[1]);
    if left != {} { PendingAdds(first, d, left); } else { LastRulingAdds(first, d, db.status); }
  }

  predicate NotesDecision(acts: seq<Act>, d: Decision) {
    SumOf(acts) == Sum([], [], [HumanDecided(d.action)]) && Proper(acts)
  }

  lemma {:induction false} PendingAdds(first: seq<Act>, d: Decision, left: set<Id>)
    requires NotesDecision(first, d)
    ensures SumOf(first + [Emit(HumanReviewPending(|left|))])
         == Sum([], [], [HumanDecided(d.action)] + [HumanReviewPending(|left|)])
    ensures Proper(first + [Emit(HumanReviewPending(|left|))])
  {
    One(Emit(HumanReviewPending(|left|)));
    AddUp(first, [Emit(HumanReviewPending(|left|))]);
  }

  lemma {:induction false} LastRulingAdds(first: seq<Act>, d: Decision, status: Status)
    requires NotesDecision(first, d)
    ensures NotesDecision(first + Finish(status), d)
  {
    FinishAdds(status);
    AddUp(first, Finish(status));
  }

  lemma {:induction false} FinishAdds(status: Status)
    ensures SumOf(Finish(status)) == NOTHING && Proper(Finish(status))
  {
    var last := [To(Reporting)] + [WriteReport(ApprovedDraft), To(Completed)];
    Three(To(Reporting), WriteReport(ApprovedDraft), To(Completed));
    assert last == [To(Reporting), WriteReport(ApprovedDraft), To(Completed)];
    One(To(HumanReview));
    AddUp([To(HumanReview)], last);
  }

  lemma {:induction false} RequestAdds(db: Db, d: Decision)
    requires d.idempotencyKey.Some? && !IsRuling(d.action) && !IsSubmission(d.action)
    ensures SumOf(DecisionActs(db, d)) == Sum([], [], [HumanDecided(d.action)]) && Proper(DecisionActs(db, d))
  {
    One(Record(d.idempotencyKey.value, d));
    Two(Record(d.idempotencyKey.value, d), To(Rework));
  }

  /** What a decision that takes effect notes, beside changes of status: the decision, and how many claims are still
      undecided if it was a ruling that left some. */
  function DecisionNotes(d: Decision, after: Db): seq<EventKind> {
    var open := set id | id in after.claims && after.claims[id] in {Pending, NeedsRework};
    [HumanDecided(d.action)]
    + if d.action in {ApproveClaim, RejectClaim} && open != {} then [HumanReviewPending(|open|)] else []
  }

  lemma {:induction false} DecisionAdds(db: Db, d: Decision, startVersion: int)
    requires Admitted(db, d, startVersion)
    ensures Proper(DecisionActs(db, d))
    ensures SumOf(DecisionActs(db, d)) ==
              Sum([], [], [HumanDecided(d.action)]
                  + If(IsRuling(d.action) && Blocking(Judged(db, d)) != {},
                       HumanReviewPending(|Blocking(Judged(db, d))|)))
  {
    SubmissionsNeverPass(db, d, startVersion);
    if IsRuling(d.action) { RulingAdds(db, d, Blocking(Judged(db, d))); } else { RequestAdds(db, d); }
  }

  lemma {:induction false} ResumedRows(db: Db, d: Decision, reportRaises: bool, acts: seq<Act>)
    requires Refuses(db, d).None? && !(reportRaises && Finishes(db, d)) && acts == DecisionActs(db, d)
    ensures Resume(db, d, reportRaises).0 == Run(Open(db, false, false), acts).work
  {
    assert (acts + [Commit])[..|acts + [Commit]| - 1] == acts;
  }

  lemma {:induction false} OpenClaims(claims: map<Id, ReviewStatus>)
    ensures Blocking(claims) == set id | id in claims && claims[id] in {Pending, NeedsRework}
  {
  }

  lemma {:induction false} DecisionIsLogged(db: Db, d: Decision, reportRaises: bool, startVersion: int)
    requires Admitted(db, d, startVersion) && !(reportRaises && Finishes(db, d))
    ensures var after := Resume(db, d, reportRaises).0;
            && NotesIn(after.events) == NotesIn(db.events) + DecisionNotes(d, after)
            && after.degraded == db.degraded && after.artifacts == db.artifacts
  {
    var acts, after := DecisionActs(db, d), Resume(db, d, reportRaises).0;
    AdmittedTakesEffect(db, d, reportRaises, startVersion);
    DecisionAdds(db, d, startVersion);
    ResumedRows(db, d, reportRaises, acts);
    OpenClaims(after.claims);
    WritesAdd(db, acts, SumOf(acts).noted);
  }

  lemma {:induction false} WritesAdd(db: Db, acts: seq<Act>, notes: seq<EventKind>)
    requires SumOf(acts) == Sum([], [], notes) && Proper(acts)
    ensures var after := Run(Open(db, false, false), acts).work;
            && NotesIn(after.events) == NotesIn(db.events) + notes
            && after.degraded == db.degraded && after.artifacts == db.artifacts
  {
    RunAddsTo(Open(db, false, false), acts, Sum(db.artifacts, db.degraded, NotesIn(db.events)));
  }

  // ---------------------------------------------------------------- a report that raises

  lemma {:induction false} NamedTargets(targets: seq<RawId>, id: Id)
    ensures id in TargetIds(targets) <==> exists t :: t in targets && t.parsed == Some(id)
  {
    if targets != [] {
      NamedTargets(targets[1..], id);
      assert targets == [targets[0]] + targets[1..];
    }
  }

  /** The decision names every claim that is still undecided. */
  ghost predicate DecidesTheRest(db: Db, d: Decision) {
    forall id :: id in db.claims && db.claims[id] in {Pending, NeedsRework} ==>
      exists t :: t in d.targets && t.parsed == Some(id)
  }

  /** If the report cannot be written, exactly the rulings that decide everything left are rolled back whole; all
      others take effect as if it could. */
  lemma {:induction false} LostReportRollsBack(db: Db, d: Decision, startVersion: int)
    requires Admitted(db, d, startVersion)
    ensures Resume(db, d, true) ==
              if d.action in {ApproveClaim, RejectClaim} && DecidesTheRest(db, d)
              then (db, Refused(ReportUnavailable)) else Resume(db, d, false)
  {
    SubmissionsNeverPass(db, d, startVersion);
    forall id ensures id in TargetIds(d.targets) <==> exists t :: t in d.targets && t.parsed == Some(id) {
      NamedTargets(d.targets, id);
    }
    if IsRuling(d.action) { RestIsDecided(db, d); }
  }

  lemma {:induction false} RestIsDecided(db: Db, d: Decision)
    requires IsRuling(d.action)
    requires forall id :: id in TargetIds(d.targets) <==> exists t :: t in d.targets && t.parsed == Some(id)
    ensures Finishes(db, d) <==> DecidesTheRest(db, d)
  {
    var after := MarkAll(db.claims, TargetIds(d.targets), Judgement(d.action));
    assert forall id :: id in Blocking(after) <==> id in Blocking(db.claims) && id !in TargetIds(d.targets);
  }
}
