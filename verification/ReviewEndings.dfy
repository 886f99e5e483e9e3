/** How a review goes and ends, read off what its agents return: which failures stop it, what the auditor sees, and what
    the manifest names as degraded (src/creditlens/agents/supervisor.py:236-446). */
module ReviewEndings {
  import opened Common
  import opened Contracts
  import opened EvidenceAuditor
  import opened ClaimAudit
  import opened EventLog
  import opened FullReview
  import opened ReviewInvariants
  import opened ReviewSafety
  import opened AutomaticPath

  // ---------------------------------------------------------------- what an agent call comes to

  /** The agent returned an artifact that does not say FAILED. */
  predicate Succeeded(o: AgentOutcome) {
    o.Produced? && o.artifact.executionStatus != FAILED
  }

  /** The agent raised, or returned an artifact that says FAILED. */
  predicate Failed(o: AgentOutcome) {
    o.Raised? || (o.Produced? && o.artifact.executionStatus == FAILED)
  }

  /** What an agent hands on to the later stages. */
  function HandedOn(o: AgentOutcome): seq<AgentArtifact> {
    match o
    case Produced(a) => [a]
    case _ => []
  }

  function RiskHandedOn(script: Script): seq<AgentArtifact> {
    match script.risk
    case Some(o) => HandedOn(o)
    case None => []
  }

  /** What the challenger leaves: its artifact, or an empty one in its place. */
  function ChallengeOf(o: AgentOutcome): AgentArtifact {
    match o
    case Produced(a) => a
    case _ => AgentArtifact("challenger", FAILED, [], [], [], false)
  }

  function Challenge(script: Script): AgentArtifact {
    ChallengeOf(script.challenger)
  }

  /** Everything the auditor sees: policy, financial, risk if there is one that returned, and the challenge. */
  function Collected(script: Script): seq<AgentArtifact> {
    HandedOn(script.policy) + HandedOn(script.financial) + RiskHandedOn(script) + [Challenge(script)]
  }

  // ---------------------------------------------------------------- the agent loop, turn by turn

  lemma {:induction false} NoTasksYet(tasks: seq<TaskRun>)
    ensures AfterTasks(tasks, 0) == Progress([], [], GoOn)
  {
  }

  lemma {:induction false} FreeAlone(a: AgentArtifact)
    ensures KeysFree([], a) <==> NoDuplicates(ClaimIds(a.claims))
  {
    MoreClaims([], a);
    assert AllIds([]) + ClaimIds(a.claims) == ClaimIds(a.claims);
  }

  /** How a turn of a critical agent goes on, read off what the agent returned. */
  predicate CriticalTurn(before: seq<AgentArtifact>, o: AgentOutcome, p: Progress) {
    match p.next
    case GoOn => Succeeded(o) && KeysFree(before, o.artifact) && p.produced == before + [o.artifact]
    case Stop => (o.Raised? || (Failed(o) && KeysFree(before, o.artifact))) && HasEnd(p.acts, RunFailed)
    case Raise => o.LedgerLost? || (o.Produced? && !KeysFree(before, o.artifact))
  }

  lemma {:induction false} PolicyStep(before: seq<AgentArtifact>, o: AgentOutcome)
    ensures CriticalTurn(before, o, TaskStep(before, TaskRun(PolicyTask, o)))
  {
  }

  lemma {:induction false} FinancialStep(before: seq<AgentArtifact>, o: AgentOutcome)
    ensures CriticalTurn(before, o, TaskStep(before, TaskRun(FinancialTask, o)))
  {
  }

  lemma {:induction false} AfterMore(before: seq<AgentArtifact>, o: AgentOutcome, first: seq<Act>, q: Progress)
    requires CriticalTurn(before, o, q)
    ensures CriticalTurn(before, o, q.(acts := first + q.acts))
  {
    if HasEnd(q.acts, RunFailed) { EndsAlike(first, q.acts, RunFailed); }
  }

  /** The policy agent's turn. */
  lemma {:induction false} PolicyTurn(script: Script)
    ensures CriticalTurn([], script.policy, AfterTasks(AgentTasks(script), 1))
  {
    OneTaskMore(AgentTasks(script), 1);
    NoTasksYet(AgentTasks(script));
    PolicyStep([], script.policy);
    AfterMore([], script.policy, [], TaskStep([], TaskRun(PolicyTask, script.policy)));
  }

  /** The financial agent's turn, once policy has gone through. */
  lemma {:induction false} FinancialTurn(script: Script, before: seq<AgentArtifact>)
    requires AfterTasks(AgentTasks(script), 1).next == GoOn && AfterTasks(AgentTasks(script), 1).produced == before
    ensures CriticalTurn(before, script.financial, AfterTasks(AgentTasks(script), 2))
  {
    OneTaskMore(AgentTasks(script), 2);
    FinancialStep(before, script.financial);
    AfterMore(before, script.financial, AfterTasks(AgentTasks(script), 1).acts,
              TaskStep(before, TaskRun(FinancialTask, script.financial)));
  }

  /** A risk agent never stops the review: it goes on unless its ledger is lost or a claim id is taken. */
  predicate LenientTurn(before: seq<AgentArtifact>, o: AgentOutcome, p: Progress) {
    match p.next
    case GoOn => (o.Raised? || (o.Produced? && KeysFree(before, o.artifact))) && p.produced == before + HandedOn(o)
    case Stop => false
    case Raise => o.LedgerLost? || (o.Produced? && !KeysFree(before, o.artifact))
  }

  lemma {:induction false} RiskStep(before: seq<AgentArtifact>, o: AgentOutcome)
    ensures LenientTurn(before, o, TaskStep(before, TaskRun(RiskTask, o)))
  {
  }

  lemma {:induction false} RiskTurn(script: Script, before: seq<AgentArtifact>)
    requires script.risk.Some?
    requires AfterTasks(AgentTasks(script), 2).next == GoOn && AfterTasks(AgentTasks(script), 2).produced == before
    ensures LenientTurn(before, script.risk.value, AfterTasks(AgentTasks(script), 3))
  {
    OneTaskMore(AgentTasks(script), 3);
    RiskStep(before, script.risk.value);
  }

  lemma {:induction false} StoppedStays(tasks: seq<TaskRun>, n: nat, m: nat)
    requires n <= m <= |tasks| && AfterTasks(tasks, n).next != GoOn
    ensures AfterTasks(tasks, m) == AfterTasks(tasks, n)
    decreases m
  {
    if n < m {
      StoppedStays(tasks, n, m - 1);
      OneTaskMore(tasks, m);
    }
  }

  // ---------------------------------------------------------------- reaching the verdicts, on what the agents return

  /** No agent that matters failed, no ledger was lost, and all claim ids are distinct. */
  predicate GoesThrough(script: Script) {
    && script.caseExists && script.hasDocuments
    && Succeeded(script.policy) && Succeeded(script.financial)
    && (script.risk.Some? ==> !script.risk.value.LedgerLost?) && !script.challenger.LedgerLost?
    && NoDuplicates(AllIds(Collected(script)))
    && script.audit.AuditRan?
  }

  lemma {:induction false} DistinctPrefix(artifacts: seq<AgentArtifact>, more: seq<AgentArtifact>)
    requires NoDuplicates(AllIds(artifacts + more))
    ensures NoDuplicates(AllIds(artifacts))
    decreases |more|
  {
    if more == [] {
      assert artifacts + more == artifacts;
    } else {
      var front := more[..|more| - 1];
      assert artifacts + more == artifacts + front + [more[|more| - 1]];
      MoreClaims(artifacts + front, more[|more| - 1]);
      DistinctFront(AllIds(artifacts + front), ClaimIds(more[|more| - 1].claims));
      DistinctPrefix(artifacts, front);
    }
  }

  lemma {:induction false} DistinctFront(first: seq<Id>, second: seq<Id>)
    requires NoDuplicates(first + second)
    ensures NoDuplicates(first)
  {
    forall i, j | 0 <= i < j < |first| ensures first[i] != first[j] {
      assert (first + second)[i] != (first + second)[j];
    }
  }

  /** The artifacts after the agent loop, if it goes on. */
  function Professional(script: Script): seq<AgentArtifact> {
    HandedOn(script.policy) + HandedOn(script.financial) + RiskHandedOn(script)
  }

  /** What makes the agent loop go on to its end. */
  predicate AgentsGoThrough(script: Script) {
    && Succeeded(script.policy) && Succeeded(script.financial)
    && (script.risk.Some? ==> !script.risk.value.LedgerLost?)
    && NoDuplicates(AllIds(Professional(script)))
  }

  /** The first two artifacts and then the third have free keys exactly if all ids are distinct. */
  lemma {:induction false} KeysFreeInTurn(p: AgentArtifact, f: AgentArtifact, more: seq<AgentArtifact>)
    requires |more| <= 1
    ensures NoDuplicates(AllIds([p, f] + more)) <==>
            KeysFree([], p) && KeysFree([p], f) && (more != [] ==> KeysFree([p, f], more[0]))
  {
    assert [] + [p] == [p] && [p] + [f] == [p, f];
    if more == [] { assert [p, f] + more == [p, f]; } else { assert [p, f] + more == [p, f] + [more[0]]; }
    if NoDuplicates(AllIds([p, f] + more)) {
      DistinctPrefix([p, f], more);
      DistinctPrefix([p], [f]);
    }
  }

  /** Both critical agents have gone through. */
  predicate CriticalThrough(script: Script) {
    && Succeeded(script.policy) && Succeeded(script.financial)
    && KeysFree([], script.policy.artifact) && KeysFree([script.policy.artifact], script.financial.artifact)
  }

  lemma {:induction false} BothWentThrough(script: Script)
    ensures AfterTasks(AgentTasks(script), 2).next == GoOn <==> CriticalThrough(script)
    ensures AfterTasks(AgentTasks(script), 2).next == GoOn ==>
              AfterTasks(AgentTasks(script), 2).produced == [script.policy.artifact, script.financial.artifact]
  {
    PolicyTurn(script);
    if AfterTasks(AgentTasks(script), 1).next == GoOn {
      FinancialTurn(script, [script.policy.artifact]);
    } else {
      StoppedStays(AgentTasks(script), 1, 2);
    }
  }

  /** The whole loop on the outcomes: critical agents, then the risk agent if there is one. */
  predicate LoopGoesOn(script: Script) {
    && CriticalThrough(script)
    && (script.risk.Some? ==>
          && !script.risk.value.LedgerLost?
          && (script.risk.value.Produced? ==>
                KeysFree([script.policy.artifact, script.financial.artifact], script.risk.value.artifact)))
  }

  lemma {:induction false} LoopByTurns(script: Script)
    ensures var p := AfterTasks(AgentTasks(script), |AgentTasks(script)|);
            (p.next == GoOn <==> LoopGoesOn(script)) && (p.next == GoOn ==> p.produced == Professional(script))
  {
    BothWentThrough(script);
    if !CriticalThrough(script) {
      StoppedStays(AgentTasks(script), 2, |AgentTasks(script)|);
    } else if script.risk.Some? {
      RiskTurn(script, [script.policy.artifact, script.financial.artifact]);
    }
  }

  lemma {:induction false} DistinctByTurns(script: Script)
    ensures LoopGoesOn(script) <==> AgentsGoThrough(script)
  {
    if Succeeded(script.policy) && Succeeded(script.financial) {
      var a, b := script.policy.artifact, script.financial.artifact;
      assert Professional(script) == [a, b] + RiskHandedOn(script);
      KeysFreeInTurn(a, b, RiskHandedOn(script));
    }
  }

  lemma {:induction false} AgentLoopExactly(script: Script)
    ensures var p := AfterTasks(AgentTasks(script), |AgentTasks(script)|);
            (p.next == GoOn <==> AgentsGoThrough(script)) && (p.next == GoOn ==> p.produced == Professional(script))
  {
    LoopByTurns(script);
    DistinctByTurns(script);
  }

  /** The challenger's turn goes on unless its ledger is lost or a claim id is taken. */
  predicate ChallengeTurn(before: seq<AgentArtifact>, o: AgentOutcome, p: Progress) {
    match p.next
    case GoOn => !o.LedgerLost? && KeysFree(before, ChallengeOf(o)) && p.produced == before + [ChallengeOf(o)]
    case Stop => false
    case Raise => o.LedgerLost? || !KeysFree(before, ChallengeOf(o))
  }

  lemma {:induction false} ChallengeExactly(produced: seq<AgentArtifact>, o: AgentOutcome)
    requires NoDuplicates(AllIds(produced))
    ensures ChallengeTurn(produced, o, ChallengeStep(produced, o))
  {
    if o.Raised? { NoNewClaims(produced, "challenger"); }
  }

  /** The verdicts come in exactly if the case can be reviewed, policy and financial succeed, no invocation ledger is
      lost, all claim ids are distinct, and the auditor runs; a risk agent or a challenger that raises or says FAILED
      does not matter. The auditor then sees exactly what the agents returned. */
  lemma {:induction false} VerdictsReachedExactly(script: Script)
    ensures ReachesVerdicts(script) <==> GoesThrough(script)
    ensures ReachesVerdicts(script) ==> Examined(script) == Collected(script)
  {
    AgentLoopExactly(script);
    assert Collected(script) == Professional(script) + [Challenge(script)];
    if NoDuplicates(AllIds(Collected(script))) { DistinctPrefix(Professional(script), [Challenge(script)]); }
    if AgentsGoThrough(script) { ChallengeExactly(Professional(script), script.challenger); }
  }

  // ---------------------------------------------------------------- reviews that stop early

  /** The run has ended in this status, and has no report. */
  predicate EndsWithoutReport(
      script: Script, startVersion: int, freshWriter: bool, commitEachStage: bool, status: Status)
  {
    var db := FinalRows(script, startVersion, freshWriter, commitEachStage);
    db.status == status && db.reports == []
  }

  lemma {:induction false} EndingMove(
      script: Script, startVersion: int, freshWriter: bool, commitEachStage: bool, status: Status)
    requires HasEnd(BodyPlan(script).acts, status) && !BodyPlan(script).raises && status != Completed
    ensures EndsWithoutReport(script, startVersion, freshWriter, commitEachStage, status)
  {
    var s, acts := Open(NewRun(startVersion), freshWriter, commitEachStage), ReviewPlan(script).acts;
    EndsAlike([To(Authorized), To(ValidatingCase)], BodyPlan(script).acts, status);
    EndsWithMove(s, acts, status);
    EveryCrashIsGood(script, startVersion, freshWriter, commitEachStage, |acts|);
    OnlyCompletedReports(FinalRows(script, startVersion, freshWriter, commitEachStage), startVersion);
  }

  lemma {:induction false} OnlyCompletedReports(db: Db, startVersion: int)
    requires Good(db, startVersion) && db.status != Completed
    ensures db.reports == []
  {
  }

  /** Without the case, or without a document, nothing is reviewed. */
  lemma {:induction false} NothingToReviewEnds(
      script: Script, startVersion: int, freshWriter: bool, commitEachStage: bool)
    ensures !script.caseExists
            ==> EndsWithoutReport(script, startVersion, freshWriter, commitEachStage, DataQualityBlocked)
    ensures script.caseExists && !script.hasDocuments ==>
              EndsWithoutReport(script, startVersion, freshWriter, commitEachStage, NeedMoreInfo)
  {
    if !script.caseExists {
      EndingMove(script, startVersion, freshWriter, commitEachStage, DataQualityBlocked);
    } else if !script.hasDocuments {
      EndingMove(script, startVersion, freshWriter, commitEachStage, NeedMoreInfo);
    }
  }

  lemma {:induction false} StoppedLoopEnds(
      script: Script, n: nat, startVersion: int, freshWriter: bool, commitEachStage: bool)
    requires script.caseExists && script.hasDocuments && n <= |AgentTasks(script)|
    requires AfterTasks(AgentTasks(script), n).next == Stop && HasEnd(AfterTasks(AgentTasks(script), n).acts, RunFailed)
    ensures EndsWithoutReport(script, startVersion, freshWriter, commitEachStage, RunFailed)
  {
    var tasks := AgentTasks(script);
    StoppedStays(tasks, n, |tasks|);
    EndsAlike([To(Planning), To(Executing)], AfterTasks(tasks, |tasks|).acts, RunFailed);
    StoppedStages(script);
    EndingMove(script, startVersion, freshWriter, commitEachStage, RunFailed);
  }

  lemma {:induction false} StoppedStages(script: Script)
    requires script.caseExists && script.hasDocuments
    requires AfterTasks(AgentTasks(script), |AgentTasks(script)|).next == Stop
    ensures BodyPlan(script).acts ==
            [To(Planning), To(Executing)] + AfterTasks(AgentTasks(script), |AgentTasks(script)|).acts
    ensures !BodyPlan(script).raises
  {
  }

  /** A policy agent that raises, or says FAILED with distinct claim ids, fails the review. */
  lemma {:induction false} PolicyFailureEnds(
      script: Script, startVersion: int, freshWriter: bool, commitEachStage: bool)
    requires script.caseExists && script.hasDocuments && Failed(script.policy)
    requires script.policy.Produced? ==> NoDuplicates(ClaimIds(script.policy.artifact.claims))
    ensures EndsWithoutReport(script, startVersion, freshWriter, commitEachStage, RunFailed)
  {
    if script.policy.Produced? { FreeAlone(script.policy.artifact); }
    PolicyTurn(script);
    StoppedLoopEnds(script, 1, startVersion, freshWriter, commitEachStage);
  }

  /** The agent loop stops at the financial agent. */
  lemma {:induction false} FinancialStops(script: Script)
    requires Failed(script.financial) && Succeeded(script.policy)
    requires NoDuplicates(ClaimIds(script.policy.artifact.claims))
    requires script.financial.Produced? ==>
               NoDuplicates(ClaimIds(script.policy.artifact.claims) + ClaimIds(script.financial.artifact.claims))
    ensures AfterTasks(AgentTasks(script), 1).next == GoOn && AfterTasks(AgentTasks(script), 2).next == Stop
    ensures HasEnd(AfterTasks(AgentTasks(script), 2).acts, RunFailed)
  {
    var a := script.policy.artifact;
    FreeAlone(a);
    PolicyTurn(script);
    if script.financial.Produced? {
      MoreClaims([], a);
      assert AllIds([]) + ClaimIds(a.claims) == ClaimIds(a.claims) && [] + [a] == [a];
      MoreClaims([a], script.financial.artifact);
    }
    FinancialTurn(script, [a]);
  }

  /** A financial agent that raises, or says FAILED with claim ids that are new, fails the review too. */
  lemma {:induction false} FinancialFailureEnds(
      script: Script, startVersion: int, freshWriter: bool, commitEachStage: bool)
    requires script.caseExists && script.hasDocuments && Failed(script.financial)
    requires Succeeded(script.policy) && NoDuplicates(ClaimIds(script.policy.artifact.claims))
    requires script.financial.Produced? ==>
               NoDuplicates(ClaimIds(script.policy.artifact.claims) + ClaimIds(script.financial.artifact.claims))
    ensures EndsWithoutReport(script, startVersion, freshWriter, commitEachStage, RunFailed)
  {
    FinancialStops(script);
    StoppedLoopEnds(script, 2, startVersion, freshWriter, commitEachStage);
  }

  /** An auditor that raises fails the review. */
  lemma {:induction false} AuditFailureEnds(
      script: Script, startVersion: int, freshWriter: bool, commitEachStage: bool, ctx: Context)
    requires GoesThrough(script.(audit := AuditRan(ctx))) && script.audit.AuditRaised?
    ensures EndsWithoutReport(script, startVersion, freshWriter, commitEachStage, RunFailed)
  {
    AgentLoopExactly(script);
    assert Collected(script) == Professional(script) + [Challenge(script)];
    DistinctPrefix(Professional(script), [Challenge(script)]);
    ChallengeExactly(Professional(script), script.challenger);
    var late := LateStages(Professional(script), script);
    AuditRaisedEnds(script, Professional(script));
    EndsAlike([To(Planning), To(Executing)] + AfterTasks(AgentTasks(script), |AgentTasks(script)|).acts, late.acts,
        RunFailed);
    EndingMove(script, startVersion, freshWriter, commitEachStage, RunFailed);
  }

  lemma {:induction false} AuditRaisedEnds(script: Script, produced: seq<AgentArtifact>)
    requires script.audit.AuditRaised? && ChallengeStep(produced, script.challenger).next == GoOn
    ensures HasEnd(LateStages(produced, script).acts, RunFailed) && !LateStages(produced, script).raises
  {
    var challenge := ChallengeStep(produced, script.challenger);
    var audit := AuditActs(challenge.produced, script.audit, script.reportRaises);
    EndsAlike([To(Auditing)], audit, RunFailed);
    EndsAlike([To(Synthesizing), To(Challenging)] + challenge.acts, [To(Auditing)] + audit, RunFailed);
  }

  /** When the verdicts come in, the claim lists and the report decide the status the run ends in. */
  lemma {:induction false} VerdictsEnd(script: Script, startVersion: int, freshWriter: bool, commitEachStage: bool)
    requires GoesThrough(script)
    ensures var l := Verified(script.audit.ctx, Collected(script)).lists;
            FinalRows(script, startVersion, freshWriter, commitEachStage).status ==
              if l.review != [] || l.rejected != [] then HumanReview
              else if script.reportRaises then RunFailed else Completed
  {
    VerdictsReachedExactly(script);
    VerdictsDecideTheEnd(script, startVersion, freshWriter, commitEachStage);
  }

  // ---------------------------------------------------------------- what is kept and what is named degraded

  /** The artifact that is kept of an agent call: what it returned, or an empty failed one in its place. */
  function KeptOf(o: AgentOutcome, producer: string): seq<AgentArtifact> {
    match o
    case Produced(a) => [a]
    case Raised => [AgentArtifact(producer, FAILED, [], [], [], false)]
    case LedgerLost => []
  }

  /** All artifacts of a review whose verdicts come in. */
  function Kept(script: Script): seq<AgentArtifact> {
    KeptOf(script.policy, "policy_analyst") + KeptOf(script.financial, "financial_analyst")
    + (if script.risk.Some? then KeptOf(script.risk.value, "risk_analyst") else [])
        + KeptOf(script.challenger, "challenger")
  }

  function If<T>(due: bool, x: T): seq<T> {
    if due then [x] else []
  }

  predicate SaysDegraded(o: AgentOutcome) {
    o.Produced? && o.artifact.executionStatus == DEGRADED
  }

  /** The manifest's list: agents that say DEGRADED, a risk agent that failed, and a challenger that raised. */
  function Named(script: Script): seq<Task> {
    If(SaysDegraded(script.policy), PolicyTask) + If(SaysDegraded(script.financial), FinancialTask)
    + If(script.risk.Some? && (Failed(script.risk.value) || SaysDegraded(script.risk.value)), RiskTask)
    + If(script.challenger.Raised?, ChallengerTask)
  }

  /** What the log says of a task. */
  function NotesOn(o: AgentOutcome, task: Task): seq<EventKind> {
    if Failed(o) then [TaskFailed(task)] else [TaskCompleted(task)] + If(SaysDegraded(o), TaskDegraded(task))
  }

  /** What the log says beside the changes of status. */
  function Notes(script: Script): seq<EventKind>
    requires script.audit.AuditRan?
  {
    var l := Verified(script.audit.ctx, Collected(script)).lists;
    NotesOn(script.policy, PolicyTask) + NotesOn(script.financial, FinancialTask)
    + (if script.risk.Some? then NotesOn(script.risk.value, RiskTask) else [])
    + If(script.challenger.Raised?, TaskFailed(ChallengerTask))
    + ([AuditCompleted(|l.accepted|, |l.rejected|, |l.review|)]
       + If(l.review == [] && l.rejected == [] && script.reportRaises, ReportFailed))
  }

  // ---------------------------------------------------------------- adding up the writes

  /** Artifacts kept, tasks named, and notes made. */
  datatype Sum = Sum(kept: seq<AgentArtifact>, named: seq<Task>, noted: seq<EventKind>)

  const NOTHING := Sum([], [], [])

  function Plus(a: Sum, b: Sum): Sum {
    Sum(a.kept + b.kept, a.named + b.named, a.noted + b.noted)
  }

  function Adds(act: Act): Sum {
    match act
    case Persist(artifact) => Sum([artifact], [], [])
    case Degrade(task) => Sum([], [task], [])
    case Emit(kind) => Sum([], [], [kind])
    case Record(_, d) => Sum([], [], [HumanDecided(d.action)])
    case _ => NOTHING
  }

  function SumOf(acts: seq<Act>): Sum {
    if acts == [] then NOTHING else Plus(SumOf(acts[..|acts| - 1]), Adds(acts[|acts| - 1]))
  }

  lemma {:induction false} Grouped(a: Sum, b: Sum, c: Sum)
    ensures Plus(Plus(a, b), c) == Plus(a, Plus(b, c)) && Plus(a, NOTHING) == Plus(NOTHING, a) == a
  {
  }

  lemma {:induction false} AddUp(first: seq<Act>, second: seq<Act>)
    ensures SumOf(first + second) == Plus(SumOf(first), SumOf(second))
    decreases |second|
  {
    Grouped(SumOf(first), NOTHING, NOTHING);
    if second == [] {
      assert first + second == first;
    } else {
      var front, last := second[..|second| - 1], second[|second| - 1];
      AddUp(first, front);
      assert (first + second)[..|first + second| - 1] == first + front;
      Grouped(SumOf(first), SumOf(front), Adds(last));
    }
  }

  /** What the log says beside the changes of status. */
  function NotesIn(events: seq<Event>): seq<EventKind> {
    if events == [] then []
    else
      var kind := events[|events| - 1].kind;
      NotesIn(events[..|events| - 1]) + if kind.StateChanged? then [] else [kind]
  }

  /** The rows hold just this. */
  predicate Holds(db: Db, sum: Sum) {
    db.artifacts == sum.kept && db.degraded == sum.named && NotesIn(db.events) == sum.noted
  }

  lemma {:induction false} OneEvent(events: seq<Event>, e: Event)
    ensures NotesIn(events + [e]) == NotesIn(events) + if e.kind.StateChanged? then [] else [e.kind]
  {
    assert (events + [e])[..|events|] == events;
  }

  lemma {:induction false} WriteAdds(s: Session, act: Act, sum: Sum)
    requires Holds(s.work, sum) && !(act.Emit? && act.kind.StateChanged?)
    ensures Holds(Apply(s, act).work, Plus(sum, Adds(act)))
  {
    var n := if s.nextSeq.Some? then s.nextSeq.value else MaxSequence(s.work.events) + 1;
    match act
    case To(status) => OneEvent(s.work.events, Event(n, StateChanged(s.work.status, status)));
    case Emit(kind) => OneEvent(s.work.events, Event(n, kind));
    case Record(_, d) => OneEvent(s.work.events, Event(n, HumanDecided(d.action)));
    case _ =>
  }

  /** No write but a move tells of a change of status. */
  predicate Proper(acts: seq<Act>) {
    forall act :: act in acts ==> !(act.Emit? && act.kind.StateChanged?)
  }

  lemma {:induction false} RunAddsTo(s: Session, acts: seq<Act>, sum: Sum)
    requires Holds(s.work, sum) && Proper(acts)
    ensures Holds(Run(s, acts).work, Plus(sum, SumOf(acts)))
  {
    Grouped(sum, NOTHING, NOTHING);
    if acts != [] {
      var front, last := acts[..|acts| - 1], acts[|acts| - 1];
      assert acts == front + [last];
      RunAddsTo(s, front, sum);
      WriteAdds(Run(s, front), last, Plus(sum, SumOf(front)));
      Grouped(sum, SumOf(front), Adds(last));
    }
  }

  lemma {:induction false} RunAdds(s: Session, acts: seq<Act>)
    requires Holds(s.work, NOTHING) && Proper(acts)
    ensures Holds(Run(s, acts).work, SumOf(acts))
  {
    RunAddsTo(s, acts, NOTHING);
    Grouped(SumOf(acts), NOTHING, NOTHING);
  }

  lemma {:induction false} One(act: Act)
    ensures SumOf([act]) == Adds(act)
  {
    assert [act][..0] == [];
  }

  lemma {:induction false} Two(first: Act, second: Act)
    ensures SumOf([first, second]) == Plus(Adds(first), Adds(second))
  {
    One(first);
    One(second);
    AddUp([first], [second]);
    assert [first] + [second] == [first, second];
  }

  lemma {:induction false} Three(first: Act, second: Act, third: Act)
    ensures SumOf([first, second, third]) == Plus(Plus(Adds(first), Adds(second)), Adds(third))
  {
    Two(first, second);
    One(third);
    AddUp([first, second], [third]);
    assert [first, second] + [third] == [first, second, third];
  }

  // ---------------------------------------------------------------- stage by stage

  function TurnSum(o: AgentOutcome, task: Task, producer: string): Sum {
    Sum(KeptOf(o, producer), If(Failed(o) || SaysDegraded(o), task), NotesOn(o, task))
  }

  lemma {:induction false} SuccessAdds(task: Task, status: ExecutionStatus)
    ensures SumOf(AfterSuccess(task, status)) ==
            Sum([], If(status == DEGRADED, task), [TaskCompleted(task)] + If(status == DEGRADED, TaskDegraded(task)))
  {
    if status == DEGRADED {
      Two(Emit(TaskCompleted(task)), Degrade(task));
      Two(Emit(TaskDegraded(task)), Checkpoint);
      AddUp([Emit(TaskCompleted(task)), Degrade(task)], [Emit(TaskDegraded(task)), Checkpoint]);
      assert AfterSuccess(task, status)
          == [Emit(TaskCompleted(task)), Degrade(task)] + [Emit(TaskDegraded(task)), Checkpoint];
    } else {
      Two(Emit(TaskCompleted(task)), Checkpoint);
      assert AfterSuccess(task, status) == [Emit(TaskCompleted(task)), Checkpoint];
    }
  }

  lemma {:induction false} FailureAdds(task: Task)
    requires AfterFailure(task).1 == GoOn
    ensures SumOf(AfterFailure(task).0) == Sum([], [task], [TaskFailed(task)])
  {
    Three(Emit(TaskFailed(task)), Degrade(task), Checkpoint);
    assert AfterFailure(task).0 == [Emit(TaskFailed(task)), Degrade(task), Checkpoint];
  }

  lemma {:induction false} KeepThen(a: AgentArtifact, rest: seq<Act>, sum: Sum)
    requires SumOf(rest) == sum && sum.kept == []
    ensures SumOf([Persist(a)] + rest) == sum.(kept := [a])
  {
    One(Persist(a));
    AddUp([Persist(a)], rest);
  }

  /** A turn of the agent loop that goes on. */
  lemma {:induction false} TurnAdds(produced: seq<AgentArtifact>, run: TaskRun)
    requires TaskStep(produced, run).next == GoOn
    ensures SumOf(TaskStep(produced, run).acts) == TurnSum(run.outcome, run.task, Producer(run.task))
  {
    match run.outcome
    case Raised =>
      FailureAdds(run.task);
      KeepThen(FailedArtifact(Producer(run.task)), AfterFailure(run.task).0,
          Sum([], [run.task], [TaskFailed(run.task)]));
    case Produced(a) =>
      if a.executionStatus == FAILED {
        FailureAdds(run.task);
        KeepThen(a, AfterFailure(run.task).0, Sum([], [run.task], [TaskFailed(run.task)]));
      } else {
        SuccessAdds(run.task, a.executionStatus);
        KeepThen(a, AfterSuccess(run.task, a.executionStatus), SumOf(AfterSuccess(run.task, a.executionStatus)));
      }
  }

  function TurnsSum(tasks: seq<TaskRun>, n: nat): Sum
    requires n <= |tasks|
  {
    if n == 0 then NOTHING
    else Plus(TurnsSum(tasks, n - 1), TurnSum(tasks[n - 1].outcome, tasks[n - 1].task, Producer(tasks[n - 1].task)))
  }

  lemma {:induction false} TurnsAdd(tasks: seq<TaskRun>, n: nat)
    requires n <= |tasks| && AfterTasks(tasks, n).next == GoOn
    ensures SumOf(AfterTasks(tasks, n).acts) == TurnsSum(tasks, n)
  {
    if n > 0 {
      var p := AfterTasks(tasks, n - 1);
      OneTaskMore(tasks, n);
      TurnsAdd(tasks, n - 1);
      TurnAdds(p.produced, tasks[n - 1]);
      AddUp(p.acts, TaskStep(p.produced, tasks[n - 1]).acts);
    }
  }

  function ChallengeSum(o: AgentOutcome): Sum {
    Sum(KeptOf(o, "challenger"), If(o.Raised?, ChallengerTask), If(o.Raised?, TaskFailed(ChallengerTask)))
  }

  lemma {:induction false} MissingChallengeAdds(failed: AgentArtifact)
    ensures SumOf([Degrade(ChallengerTask), Emit(TaskFailed(ChallengerTask))] + [Persist(failed)]) ==
            Sum([failed], [ChallengerTask], [TaskFailed(ChallengerTask)])
  {
    Two(Degrade(ChallengerTask), Emit(TaskFailed(ChallengerTask)));
    One(Persist(failed));
    AddUp([Degrade(ChallengerTask), Emit(TaskFailed(ChallengerTask))], [Persist(failed)]);
  }

  lemma {:induction false} ChallengeAdds(produced: seq<AgentArtifact>, o: AgentOutcome)
    requires ChallengeStep(produced, o).next == GoOn
    ensures SumOf(ChallengeStep(produced, o).acts) == ChallengeSum(o)
  {
    match o
    case Produced(a) => One(Persist(a));
    case Raised => MissingChallengeAdds(FailedArtifact("challenger"));
  }

  /** From the move to AUDITING on. */
  function LastActs(produced: seq<AgentArtifact>, audit: AuditOutcome, reportRaises: bool): seq<Act> {
    [To(Auditing)] + AuditActs(produced, audit, reportRaises) + [Commit]
  }

  function LastSum(l: Lists, reportRaises: bool): Sum {
    Sum([], [], [AuditCompleted(|l.accepted|, |l.rejected|, |l.review|)]
                + If(l.review == [] && l.rejected == [] && reportRaises, ReportFailed))
  }

  lemma {:induction false} ReportAdds(reportRaises: bool)
    ensures SumOf([To(Reporting)] + ReportActs(reportRaises)) == Sum([], [], If(reportRaises, ReportFailed))
  {
    if reportRaises {
      Three(To(Reporting), Emit(ReportFailed), To(RunFailed));
      assert [To(Reporting)] + ReportActs(reportRaises) == [To(Reporting), Emit(ReportFailed), To(RunFailed)];
    } else {
      Three(To(Reporting), WriteReport(VerifiedDraft), To(Completed));
      assert [To(Reporting)] + ReportActs(reportRaises) == [To(Reporting), WriteReport(VerifiedDraft), To(Completed)];
    }
  }

  lemma {:induction false} AuditAdds(produced: seq<AgentArtifact>, ctx: Context, reportRaises: bool)
    ensures SumOf(AuditActs(produced, AuditRan(ctx), reportRaises))
            == LastSum(Verified(ctx, produced).lists, reportRaises)
  {
    var l := Verified(ctx, produced).lists;
    var noted := AuditCompleted(|l.accepted|, |l.rejected|, |l.review|);
    Two(Emit(noted), ApplyAudit(l));
    if l.review != [] || l.rejected != [] {
      One(To(HumanReview));
      AddUp([Emit(noted), ApplyAudit(l)], [To(HumanReview)]);
    } else {
      ReportAdds(reportRaises);
      AddUp([Emit(noted), ApplyAudit(l)], [To(Reporting)] + ReportActs(reportRaises));
    }
  }

  lemma {:induction false} LastAdds(produced: seq<AgentArtifact>, ctx: Context, reportRaises: bool)
    ensures SumOf(LastActs(produced, AuditRan(ctx), reportRaises))
            == LastSum(Verified(ctx, produced).lists, reportRaises)
  {
    var audit := AuditActs(produced, AuditRan(ctx), reportRaises);
    One(To(Auditing));
    One(Commit);
    AuditAdds(produced, ctx, reportRaises);
    AddUp([To(Auditing)], audit);
    AddUp([To(Auditing)] + audit, [Commit]);
    Grouped(SumOf(audit), NOTHING, NOTHING);
  }

  // ---------------------------------------------------------------- the whole review

  const START: seq<Act> := [To(Authorized), To(ValidatingCase)] + [To(Planning), To(Executing)]
  const MIDDLE: seq<Act> := [To(Synthesizing), To(Challenging)]

  lemma {:induction false} MovesAddNothing()
    ensures SumOf(START) == NOTHING && SumOf(MIDDLE) == NOTHING
  {
    Two(To(Authorized), To(ValidatingCase));
    Two(To(Planning), To(Executing));
    AddUp([To(Authorized), To(ValidatingCase)], [To(Planning), To(Executing)]);
    Two(To(Synthesizing), To(Challenging));
  }

  lemma {:induction false} Regroup(
      plan: seq<Act>, a: seq<Act>, stages: seq<Act>, commit: seq<Act>, b: seq<Act>, agents: seq<Act>, late: seq<Act>,
      middle: seq<Act>, rest: seq<Act>)
    requires plan == a + stages + commit && stages == b + agents + late && late == middle + rest
    ensures plan == a + b + agents + (middle + (rest + commit))
  {
  }

  /** Every agent's turn goes on, whatever the audit then does. */
  predicate TurnsGoOn(script: Script) {
    var agents := AfterTasks(AgentTasks(script), |AgentTasks(script)|);
    && script.caseExists && script.hasDocuments && agents.next == GoOn
    && ChallengeStep(agents.produced, script.challenger).next == GoOn
  }

  lemma {:induction false} StageParts(script: Script)
    requires TurnsGoOn(script)
    ensures BodyPlan(script) == StagesPlan(script) && !StagesPlan(script).raises
    ensures var agents := AfterTasks(AgentTasks(script), |AgentTasks(script)|);
            StagesPlan(script).acts == [To(Planning), To(Executing)] + agents.acts
                + LateStages(agents.produced, script).acts
  {
  }

  lemma {:induction false} LateParts(produced: seq<AgentArtifact>, script: Script)
    requires ChallengeStep(produced, script.challenger).next == GoOn
    ensures var challenge := ChallengeStep(produced, script.challenger);
            LateStages(produced, script).acts ==
              [To(Synthesizing), To(Challenging)] + challenge.acts
              + ([To(Auditing)] + AuditActs(challenge.produced, script.audit, script.reportRaises))
  {
  }

  /** The parts of a review plan that gets to its audit. */
  lemma {:induction false} PlanParts(script: Script, agents: Progress, challenge: Progress)
    requires TurnsGoOn(script) && agents == AfterTasks(AgentTasks(script), |AgentTasks(script)|)
    requires challenge == ChallengeStep(agents.produced, script.challenger)
    ensures ReviewPlan(script).acts ==
            START + agents.acts
            + (MIDDLE + challenge.acts + LastActs(challenge.produced, script.audit, script.reportRaises))
  {
    var audit := [To(Auditing)] + AuditActs(challenge.produced, script.audit, script.reportRaises);
    StageParts(script);
    PlanOfStages(script);
    LateParts(agents.produced, script);
    Regroup(ReviewPlan(script).acts, [To(Authorized), To(ValidatingCase)], StagesPlan(script).acts, [Commit],
            [To(Planning), To(Executing)], agents.acts, LateStages(agents.produced, script).acts,
            MIDDLE + challenge.acts, audit);
  }

  /** Five stretches, of which two add nothing. */
  lemma {:induction false} AddAll(
      start: seq<Act>, agents: seq<Act>, a: Sum, middle: seq<Act>, challenge: seq<Act>, b: Sum, last: seq<Act>, c: Sum)
    requires SumOf(start) == NOTHING && SumOf(agents) == a && SumOf(middle) == NOTHING && SumOf(challenge) == b
    requires SumOf(last) == c
    ensures SumOf(start + agents + (middle + challenge + last)) == Plus(a, Plus(b, c))
  {
    AddUp(start, agents);
    AddUp(middle, challenge);
    AddUp(middle + challenge, last);
    AddUp(start + agents, middle + challenge + last);
    Grouped(a, NOTHING, NOTHING);
    Grouped(b, NOTHING, NOTHING);
  }

  lemma {:induction false} FirstTwoTurns(tasks: seq<TaskRun>, policy: AgentOutcome, financial: AgentOutcome)
    requires |tasks| >= 2 && tasks[0] == TaskRun(PolicyTask, policy) && tasks[1] == TaskRun(FinancialTask, financial)
    ensures TurnsSum(tasks, 2) ==
            Plus(TurnSum(policy, PolicyTask, "policy_analyst"), TurnSum(financial, FinancialTask, "financial_analyst"))
  {
    assert TurnsSum(tasks, 1) == Plus(NOTHING, TurnSum(policy, PolicyTask, "policy_analyst"));
    Grouped(TurnSum(policy, PolicyTask, "policy_analyst"), NOTHING, NOTHING);
  }

  lemma {:induction false} ThirdTurn(tasks: seq<TaskRun>, risk: AgentOutcome)
    requires |tasks| == 3 && tasks[2] == TaskRun(RiskTask, risk)
    ensures TurnsSum(tasks, 3) == Plus(TurnsSum(tasks, 2), TurnSum(risk, RiskTask, "risk_analyst"))
  {
  }

  function AgentsSum(script: Script): Sum {
    var two := Plus(TurnSum(script.policy, PolicyTask, "policy_analyst"),
                    TurnSum(script.financial, FinancialTask, "financial_analyst"));
    match script.risk
    case Some(o) => Plus(two, TurnSum(o, RiskTask, "risk_analyst"))
    case None => two
  }

  lemma {:induction false} AgentsAdd(script: Script)
    ensures TurnsSum(AgentTasks(script), |AgentTasks(script)|) == AgentsSum(script)
  {
    FirstTwoTurns(AgentTasks(script), script.policy, script.financial);
    if script.risk.Some? { ThirdTurn(AgentTasks(script), script.risk.value); }
  }

  function RiskSum(script: Script): Sum {
    match script.risk
    case Some(o) => TurnSum(o, RiskTask, "risk_analyst")
    case None => NOTHING
  }

  lemma {:induction false} AgentsSumParts(script: Script)
    ensures AgentsSum(script) ==
            Plus(Plus(TurnSum(script.policy, PolicyTask, "policy_analyst"),
                      TurnSum(script.financial, FinancialTask, "financial_analyst")), RiskSum(script))
  {
    Grouped(AgentsSum(script), NOTHING, NOTHING);
  }

  lemma {:induction false} FourSums(p: Sum, f: Sum, r: Sum, c: Sum, last: seq<EventKind>)
    ensures Plus(Plus(Plus(p, f), r), Plus(c, Sum([], [], last))) ==
            Sum(p.kept + f.kept + r.kept + c.kept, p.named + f.named + r.named + c.named,
                p.noted + f.noted + r.noted + c.noted + last)
  {
  }

  lemma {:induction false} WholeSum(script: Script)
    requires script.audit.AuditRan? && Succeeded(script.policy) && Succeeded(script.financial)
    ensures var l := Verified(script.audit.ctx, Collected(script)).lists;
            Plus(AgentsSum(script), Plus(ChallengeSum(script.challenger), LastSum(l, script.reportRaises)))
            == Sum(Kept(script), Named(script), Notes(script))
  {
    var l := Verified(script.audit.ctx, Collected(script)).lists;
    AgentsSumParts(script);
    FourSums(TurnSum(script.policy, PolicyTask, "policy_analyst"),
             TurnSum(script.financial, FinancialTask, "financial_analyst"), RiskSum(script),
             ChallengeSum(script.challenger), LastSum(l, script.reportRaises).noted);
  }

  lemma {:induction false} PlanAdds(script: Script)
    requires GoesThrough(script) && ReachesVerdicts(script) && Examined(script) == Collected(script)
    ensures SumOf(ReviewPlan(script).acts) == Sum(Kept(script), Named(script), Notes(script))
  {
    var tasks := AgentTasks(script);
    var agents := AfterTasks(tasks, |tasks|);
    var challenge := ChallengeStep(agents.produced, script.challenger);
    PlanParts(script, agents, challenge);
    MovesAddNothing();
    TurnsAdd(tasks, |tasks|);
    AgentsAdd(script);
    ChallengeAdds(agents.produced, script.challenger);
    LastAdds(challenge.produced, script.audit.ctx, script.reportRaises);
    AddAll(START, agents.acts, AgentsSum(script), MIDDLE, challenge.acts, ChallengeSum(script.challenger),
           LastActs(challenge.produced, script.audit, script.reportRaises),
           LastSum(Verified(script.audit.ctx, challenge.produced).lists, script.reportRaises));
    WholeSum(script);
  }

  /** A review whose verdicts come in keeps exactly one artifact per agent, failed ones included; its manifest names
      exactly the agents that say DEGRADED, a risk agent that failed, and a challenger that raised; and beside the
      changes of status its log tells, in order, how each agent came out and how many claims the auditor put where. */
  lemma {:induction false} ManifestIsExact(script: Script, startVersion: int, freshWriter: bool, commitEachStage: bool)
    requires GoesThrough(script)
    ensures var db := FinalRows(script, startVersion, freshWriter, commitEachStage);
            db.artifacts == Kept(script) && db.degraded == Named(script) && NotesIn(db.events) == Notes(script)
  {
    VerdictsReachedExactly(script);
    PlanAdds(script);
    PlanIsProper(script);
    AllAdded(script, startVersion, freshWriter, commitEachStage, Sum(Kept(script), Named(script), Notes(script)));
  }

  lemma {:induction false} AllAdded(
      script: Script, startVersion: int, freshWriter: bool, commitEachStage: bool, sum: Sum)
    requires ReachesVerdicts(script) && SumOf(ReviewPlan(script).acts) == sum && Proper(ReviewPlan(script).acts)
    ensures Holds(FinalRows(script, startVersion, freshWriter, commitEachStage), sum)
  {
    var s, acts := Open(NewRun(startVersion), freshWriter, commitEachStage), ReviewPlan(script).acts;
    EndOfPlan(script);
    EndsWithMove(s, acts, LastStatus(script));
    RunAdds(s, acts);
  }

  lemma {:induction false} TurnIsProper(produced: seq<AgentArtifact>, run: TaskRun)
    ensures Proper(TaskStep(produced, run).acts)
  {
  }

  lemma {:induction false} TurnsAreProper(tasks: seq<TaskRun>, n: nat)
    requires n <= |tasks|
    ensures Proper(AfterTasks(tasks, n).acts)
  {
    if n > 0 {
      OneTaskMore(tasks, n);
      TurnsAreProper(tasks, n - 1);
      TurnIsProper(AfterTasks(tasks, n - 1).produced, tasks[n - 1]);
    }
  }

  lemma {:induction false} ChallengeIsProper(produced: seq<AgentArtifact>, o: AgentOutcome)
    ensures Proper(ChallengeStep(produced, o).acts)
  {
  }

  lemma {:induction false} AuditIsProper(produced: seq<AgentArtifact>, audit: AuditOutcome, reportRaises: bool)
    ensures Proper(AuditActs(produced, audit, reportRaises))
  {
  }

  lemma {:induction false} ProperParts(first: seq<Act>, second: seq<Act>)
    requires Proper(first) && Proper(second)
    ensures Proper(first + second)
  {
  }

  lemma {:induction false} MovesAreProper()
    ensures Proper(START) && Proper(MIDDLE) && Proper([To(Auditing)]) && Proper([Commit])
  {
  }

  lemma {:induction false} PlanIsProper(script: Script)
    requires TurnsGoOn(script)
    ensures Proper(ReviewPlan(script).acts)
  {
    var tasks := AgentTasks(script);
    var agents := AfterTasks(tasks, |tasks|);
    var challenge := ChallengeStep(agents.produced, script.challenger);
    var audit := AuditActs(challenge.produced, script.audit, script.reportRaises);
    PlanParts(script, agents, challenge);
    MovesAreProper();
    TurnsAreProper(tasks, |tasks|);
    ChallengeIsProper(agents.produced, script.challenger);
    AuditIsProper(challenge.produced, script.audit, script.reportRaises);
    ProperParts(START, agents.acts);
    ProperParts(MIDDLE, challenge.acts);
    ProperParts([To(Auditing)], audit);
    ProperParts([To(Auditing)] + audit, [Commit]);
    ProperParts(MIDDLE + challenge.acts, LastActs(challenge.produced, script.audit, script.reportRaises));
    ProperParts(START + agents.acts,
                MIDDLE + challenge.acts + LastActs(challenge.produced, script.audit, script.reportRaises));
  }
}
