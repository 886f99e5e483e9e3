/** The supervisor completes by the claim lists alone: when a run is completed although the auditor's overall verdict is
    negative (src/creditlens/agents/supervisor.py:401-446, src/creditlens/agents/auditor.py:131-180). */
module OverallVerdict {
  import opened Common
  import opened Contracts
  import opened EvidenceAuditor
  import opened ClaimAudit
  import opened FullReview
  import opened ReviewSafety
  import opened AutomaticPath

  // ---------------------------------------------------------------- the lists, the replays and the blocking codes

  predicate AllAccepted(filings: seq<Filing>) {
    forall f :: f in filings ==> f.ruling.Accepted?
  }

  lemma {:induction false} NothingOpenIfAllAccepted(filings: seq<Filing>)
    ensures var l := FileEach(NO_CLAIMS, filings); l.review == [] && l.rejected == [] <==> AllAccepted(filings)
  {
    var l := FileEach(NO_CLAIMS, filings);
    if AllAccepted(filings) {
      if l.review != [] { FiledUnder(NO_CLAIMS, filings, l.review[0]); }
      if l.rejected != [] { FiledUnder(NO_CLAIMS, filings, l.rejected[0]); }
    } else {
      var f :| f in filings && !f.ruling.Accepted?;
      FiledUnder(NO_CLAIMS, filings, f.id);
    }
  }

  /** The auditor accepts the claim, or never looks at it. */
  predicate NotHeldUp(ctx: Context, artifact: AgentArtifact, claim: AgentClaim) {
    TreatmentOf(ctx, artifact).Skip? || Acceptable(ctx, artifact, claim)
  }

  predicate NoneHeldUp(ctx: Context, artifacts: seq<AgentArtifact>) {
    forall a, c :: a in artifacts && c in a.claims ==> NotHeldUp(ctx, a, c)
  }

  lemma {:induction false} OwnIdsAreDistinct(artifacts: seq<AgentArtifact>, i: nat)
    requires NoDuplicates(AllIds(artifacts)) && i < |artifacts|
    ensures NoDuplicates(ClaimIds(artifacts[i].claims))
  {
    forall j, k | 0 <= j < k < |artifacts[i].claims|
      ensures artifacts[i].claims[j].claimId != artifacts[i].claims[k].claimId
    {
      if artifacts[i].claims[j].claimId == artifacts[i].claims[k].claimId { IdNamesOneClaim(artifacts, i, j, i, k); }
    }
  }

  lemma {:induction false} AcceptedIfNotHeldUp(ctx: Context, artifacts: seq<AgentArtifact>)
    requires NoDuplicates(AllIds(artifacts))
    ensures AllAccepted(AllFilings(ctx, artifacts)) <==> NoneHeldUp(ctx, artifacts)
  {
    if NoneHeldUp(ctx, artifacts) {
      forall f | f in AllFilings(ctx, artifacts) ensures f.ruling.Accepted? {
        FilingsOf(ctx, artifacts, f);
        var i, k :| 0 <= i < |artifacts| && 0 <= k < |artifacts[i].claims| && !TreatmentOf(ctx, artifacts[i]).Skip?
                    && f == Filing(artifacts[i].claims[k].claimId,
                        ClaimRuling(ctx, artifacts[i], artifacts[i].claims[k]));
        assert NotHeldUp(ctx, artifacts[i], artifacts[i].claims[k]);
        OwnIdsAreDistinct(artifacts, i);
        RuledAccepted(ctx, artifacts[i], k);
      }
    }
    if AllAccepted(AllFilings(ctx, artifacts)) {
      forall a, c | a in artifacts && c in a.claims ensures NotHeldUp(ctx, a, c) {
        var i :| 0 <= i < |artifacts| && artifacts[i] == a;
        var k :| 0 <= k < |a.claims| && a.claims[k] == c;
        FilingsOf(ctx, artifacts, Filing(c.claimId, ClaimRuling(ctx, artifacts[i], artifacts[i].claims[k])));
        OwnIdsAreDistinct(artifacts, i);
        RuledAccepted(ctx, a, k);
      }
    }
  }

  /** An artifact that fails the audit as a whole: it is rejected outright, or one of its calculations does not
      replay. */
  predicate Spoils(ctx: Context, a: AgentArtifact) {
    match TreatmentOf(ctx, a)
    case RejectAll(_) => true
    case Skip => false
    case RuleEach => exists c :: c in a.calculations && !c.replays
  }

  lemma {:induction false} SomeReplayFailed(calculations: seq<Calculation>)
    ensures FailedReplays(calculations) != [] <==> exists c :: c in calculations && !c.replays
  {
    if calculations != [] {
      SomeReplayFailed(calculations[..|calculations| - 1]);
      assert calculations == calculations[..|calculations| - 1] + [calculations[|calculations| - 1]];
    }
  }

  lemma {:induction false} SpoiledIfAnySpoils(ctx: Context, artifacts: seq<AgentArtifact>)
    requires CaseOk(ctx)
    ensures AllReplays(ctx, artifacts) != [] || AllBlocking(ctx, artifacts) != []
            <==> exists a :: a in artifacts && Spoils(ctx, a)
  {
    if artifacts != [] {
      var front, last := artifacts[..|artifacts| - 1], artifacts[|artifacts| - 1];
      assert artifacts == front + [last];
      SpoiledIfAnySpoils(ctx, front);
      SomeReplayFailed(last.calculations);
      assert ReplaysOf(ctx, last) != [] || BlockingOf(ctx, last) != [] <==> Spoils(ctx, last);
    }
  }

  // ---------------------------------------------------------------- what reaches the audit has distinct claim ids

  lemma {:induction false} StepKeepsDistinct(produced: seq<AgentArtifact>, run: TaskRun)
    requires NoDuplicates(AllIds(produced))
    ensures NoDuplicates(AllIds(TaskStep(produced, run).produced))
  {
  }

  lemma {:induction false} TasksKeepDistinct(tasks: seq<TaskRun>, n: nat)
    requires n <= |tasks|
    ensures NoDuplicates(AllIds(AfterTasks(tasks, n).produced))
  {
    if n > 0 {
      TasksKeepDistinct(tasks, n - 1);
      OneTaskMore(tasks, n);
      StepKeepsDistinct(AfterTasks(tasks, n - 1).produced, tasks[n - 1]);
    }
  }

  lemma {:induction false} AuditedAreDistinct(script: Script)
    ensures NoDuplicates(AllIds(Examined(script)))
  {
    var tasks := AgentTasks(script);
    TasksKeepDistinct(tasks, |tasks|);
    NoNewClaims(AfterTasks(tasks, |tasks|).produced, Producer(ChallengerTask));
  }

  // ---------------------------------------------------------------- nothing completes before the verdicts are in

  predicate NoCompletion(acts: seq<Act>) {
    To(Completed) !in acts
  }

  lemma {:induction false} TasksDoNotComplete(tasks: seq<TaskRun>, n: nat)
    requires n <= |tasks|
    ensures NoCompletion(AfterTasks(tasks, n).acts)
  {
    if n > 0 {
      TasksDoNotComplete(tasks, n - 1);
      OneTaskMore(tasks, n);
      TaskDoesNotComplete(AfterTasks(tasks, n - 1).produced, tasks[n - 1]);
    }
  }

  lemma {:induction false} TaskDoesNotComplete(produced: seq<AgentArtifact>, run: TaskRun)
    ensures NoCompletion(TaskStep(produced, run).acts)
  {
  }

  lemma {:induction false} ChallengeDoesNotComplete(produced: seq<AgentArtifact>, outcome: AgentOutcome)
    ensures NoCompletion(ChallengeStep(produced, outcome).acts)
  {
  }

  lemma {:induction false} LateStagesDoNotComplete(produced: seq<AgentArtifact>, script: Script)
    requires ChallengeStep(produced, script.challenger).next == GoOn ==> script.audit.AuditRaised?
    ensures NoCompletion(LateStages(produced, script).acts)
  {
    ChallengeDoesNotComplete(produced, script.challenger);
  }

  lemma {:induction false} StagesDoNotComplete(script: Script)
    requires script.caseExists && script.hasDocuments && !ReachesVerdicts(script)
    ensures NoCompletion(StagesPlan(script).acts)
  {
    var tasks := AgentTasks(script);
    TasksDoNotComplete(tasks, |tasks|);
    if AfterTasks(tasks, |tasks|).next == GoOn { LateStagesDoNotComplete(AfterTasks(tasks, |tasks|).produced, script); }
  }

  lemma {:induction false} PlanDoesNotComplete(script: Script)
    requires !ReachesVerdicts(script)
    ensures NoCompletion(ReviewPlan(script).acts)
  {
    if script.caseExists && script.hasDocuments { StagesDoNotComplete(script); }
    assert NoCompletion(BodyPlan(script).acts);
  }

  lemma {:induction false} RunStaysOpen(s: Session, acts: seq<Act>)
    requires s.work.status != Completed && s.committed.status != Completed && NoCompletion(acts)
    ensures Run(s, acts).work.status != Completed && Run(s, acts).committed.status != Completed
  {
    if acts != [] {
      assert acts == acts[..|acts| - 1] + [acts[|acts| - 1]];
      RunStaysOpen(s, acts[..|acts| - 1]);
      WriteStaysOpen(Run(s, acts[..|acts| - 1]), acts[|acts| - 1]);
    }
  }

  lemma {:induction false} WriteStaysOpen(s: Session, act: Act)
    requires s.work.status != Completed && s.committed.status != Completed && act != To(Completed)
    ensures Apply(s, act).work.status != Completed && Apply(s, act).committed.status != Completed
  {
  }

  /** An execution that stops, raises or loses its audit before the verdicts are in leaves no completed run. */
  lemma {:induction false} CompletesOnlyWithVerdicts(
      script: Script, startVersion: int, freshWriter: bool, commitEachStage: bool)
    requires !ReachesVerdicts(script)
    ensures FinalRows(script, startVersion, freshWriter, commitEachStage).status != Completed
  {
    var acts := ReviewPlan(script).acts;
    PlanDoesNotComplete(script);
    assert acts[..|acts|] == acts;
    RunStaysOpen(Open(NewRun(startVersion), freshWriter, commitEachStage), acts);
  }

  // ---------------------------------------------------------------- completed against the verdict

  /** The run is completed without an auditor whose verdict on it is positive. */
  predicate CompletedAgainst(script: Script, db: Db) {
    match script.audit
    case AuditRan(ctx) => db.status == Completed && !Verified(ctx, Examined(script)).Ok()
    case AuditRaised => db.status == Completed
  }

  /** What it takes: a case that is not valid and agents that claim nothing; or, on a valid case, claims that are all
      accepted or passed over beside an artifact that fails as a whole. */
  predicate NothingToHoldUp(ctx: Context, artifacts: seq<AgentArtifact>) {
    if !CaseOk(ctx) then forall a :: a in artifacts ==> a.claims == []
    else NoneHeldUp(ctx, artifacts) && exists a :: a in artifacts && Spoils(ctx, a)
  }

  lemma {:induction false} InvalidCaseHoldsUp(ctx: Context, artifacts: seq<AgentArtifact>)
    requires !CaseOk(ctx)
    ensures NoneHeldUp(ctx, artifacts) <==> forall a :: a in artifacts ==> a.claims == []
  {
    if a :| a in artifacts && a.claims != [] { assert a.claims[0] in a.claims; }
  }

  lemma {:induction false} NegativeWithoutOpenClaims(ctx: Context, artifacts: seq<AgentArtifact>)
    requires NoDuplicates(AllIds(artifacts))
    ensures var f := Verified(ctx, artifacts);
            f.lists.review == [] && f.lists.rejected == [] && !f.Ok() <==> NothingToHoldUp(ctx, artifacts)
  {
    NothingOpenIfAllAccepted(AllFilings(ctx, artifacts));
    AcceptedIfNotHeldUp(ctx, artifacts);
    if CaseOk(ctx) {
      SpoiledIfAnySpoils(ctx, artifacts);
    } else {
      InvalidCaseHoldsUp(ctx, artifacts);
      InvalidCaseVerifiesNothing(ctx, artifacts);
    }
  }

  /** An execution completes against the auditor exactly if its verdicts come in, nothing it made could be held up, and
      the report does not raise. */
  lemma {:induction false} CompletesAgainstTheAuditor(
      script: Script, startVersion: int, freshWriter: bool, commitEachStage: bool)
    ensures CompletedAgainst(script, FinalRows(script, startVersion, freshWriter, commitEachStage))
       <==> ReachesVerdicts(script) && !script.reportRaises && NothingToHoldUp(script.audit.ctx, Examined(script))
  {
    if ReachesVerdicts(script) {
      VerdictsDecideTheEnd(script, startVersion, freshWriter, commitEachStage);
      AuditedAreDistinct(script);
      NegativeWithoutOpenClaims(script.audit.ctx, Examined(script));
    } else {
      CompletesOnlyWithVerdicts(script, startVersion, freshWriter, commitEachStage);
    }
  }

  // ---------------------------------------------------------------- two such executions

  /** The policy analyst has calculated something; nobody claims anything. */
  function Unclaiming(calculations: seq<Calculation>): AgentArtifact {
    Silent("policy_analyst").(calculations := calculations)
  }

  function UnclaimingScript(ctx: Context, calculations: seq<Calculation>): Script {
    Script(true, true, Produced(Unclaiming(calculations)), Produced(Silent("financial_analyst")), None,
           Produced(Silent("challenger")), AuditRan(ctx), false)
  }

  lemma {:induction false} NoClaimsAreFree(produced: seq<AgentArtifact>, a: AgentArtifact)
    requires NoDuplicates(AllIds(produced)) && a.claims == []
    ensures KeysFree(produced, a)
  {
    MoreClaims(produced, a);
  }

  lemma {:induction false} SuccessGoesOn(produced: seq<AgentArtifact>, run: TaskRun, a: AgentArtifact)
    requires NoDuplicates(AllIds(produced)) && a.claims == [] && a.executionStatus == SUCCESS
             && run.outcome == Produced(a)
    ensures TaskStep(produced, run).next == GoOn && TaskStep(produced, run).produced == produced + [a]
  {
    NoClaimsAreFree(produced, a);
  }

  lemma {:induction false} UnclaimingTasks(ctx: Context, calculations: seq<Calculation>)
    ensures var tasks := AgentTasks(UnclaimingScript(ctx, calculations));
            && |tasks| == 2 && AfterTasks(tasks, 2).next == GoOn
            && AfterTasks(tasks, 2).produced == [Unclaiming(calculations), Silent("financial_analyst")]
  {
    var tasks := AgentTasks(UnclaimingScript(ctx, calculations));
    TasksKeepDistinct(tasks, 0);
    OneTaskMore(tasks, 1);
    SuccessGoesOn([], tasks[0], Unclaiming(calculations));
    TasksKeepDistinct(tasks, 1);
    OneTaskMore(tasks, 2);
    SuccessGoesOn([Unclaiming(calculations)], tasks[1], Silent("financial_analyst"));
  }

  lemma {:induction false} UnclaimingGoesOn(ctx: Context, calculations: seq<Calculation>)
    ensures ReachesVerdicts(UnclaimingScript(ctx, calculations))
    ensures Examined(UnclaimingScript(ctx, calculations))
            == [Unclaiming(calculations), Silent("financial_analyst"), Silent("challenger")]
  {
    var script := UnclaimingScript(ctx, calculations);
    UnclaimingTasks(ctx, calculations);
    TasksKeepDistinct(AgentTasks(script), 2);
    NoClaimsAreFree([Unclaiming(calculations), Silent("financial_analyst")], Silent("challenger"));
  }

  /** The case belongs to another tenant, or is gone, and no agent claims anything: completed, with a report. */
  lemma {:induction false} InvalidCaseCompletes(
      ctx: Context, startVersion: int, freshWriter: bool, commitEachStage: bool)
    requires !CaseOk(ctx)
    ensures var script := UnclaimingScript(ctx, []);
            ReachesVerdicts(script)
                && CompletedAgainst(script, FinalRows(script, startVersion, freshWriter, commitEachStage))
  {
    UnclaimingGoesOn(ctx, []);
    CompletesAgainstTheAuditor(UnclaimingScript(ctx, []), startVersion, freshWriter, commitEachStage);
  }

  /** A calculation that no claim cites does not replay: completed, with a report. */
  lemma {:induction false} FailedReplayCompletes(
      ctx: Context, c: Calculation, startVersion: int, freshWriter: bool, commitEachStage: bool)
    requires CaseOk(ctx) && !c.replays
    ensures var script := UnclaimingScript(ctx, [c]);
            ReachesVerdicts(script)
                && CompletedAgainst(script, FinalRows(script, startVersion, freshWriter, commitEachStage))
  {
    UnclaimingGoesOn(ctx, [c]);
    assert c in Unclaiming([c]).calculations && Unclaiming([c]) in Examined(UnclaimingScript(ctx, [c]));
    assert Spoils(ctx, Unclaiming([c]));
    CompletesAgainstTheAuditor(UnclaimingScript(ctx, [c]), startVersion, freshWriter, commitEachStage);
  }
}
