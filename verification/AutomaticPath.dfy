/** How an execution that is not interrupted ends, and what the automatic path can leave undecided. */
module AutomaticPath {
  import opened Common
  import opened Contracts
  import opened EvidenceAuditor
  import opened ClaimAudit
  import opened FullReview
  import opened ReviewInvariants
  import opened ReviewSafety

  /** The artifacts the auditor sees, if every stage before it goes through. */
  function Examined(script: Script): seq<AgentArtifact> {
    var tasks := AgentTasks(script);
    ChallengeStep(AfterTasks(tasks, |tasks|).produced, script.challenger).produced
  }

  /** No stage stops the execution or raises before the verdicts are in. */
  predicate ReachesVerdicts(script: Script) {
    var tasks := AgentTasks(script);
    var agents := AfterTasks(tasks, |tasks|);
    && script.caseExists && script.hasDocuments && agents.next == GoOn
    && ChallengeStep(agents.produced, script.challenger).next == GoOn && script.audit.AuditRan?
  }

  function LastStatus(script: Script): Status
    requires ReachesVerdicts(script)
  {
    var l := Verified(script.audit.ctx, Examined(script)).lists;
    if l.review != [] || l.rejected != [] then HumanReview else if script.reportRaises then RunFailed else Completed
  }

  /** The last writes before the commit: the move to the final status, after the report if it completes. */
  predicate HasEnd(acts: seq<Act>, status: Status) {
    && acts != [] && acts[|acts| - 1] == To(status)
    && (status == Completed ==> |acts| >= 2 && acts[|acts| - 2] == WriteReport(VerifiedDraft))
  }

  lemma {:induction false} EndsAlike(first: seq<Act>, second: seq<Act>, status: Status)
    requires HasEnd(second, status)
    ensures HasEnd(first + second, status)
  {
  }

  lemma {:induction false} EndOfAudit(produced: seq<AgentArtifact>, ctx: Context, reportRaises: bool)
    ensures var l := Verified(ctx, produced).lists;
            HasEnd(AuditActs(produced, AuditRan(ctx), reportRaises),
                   if l.review != [] || l.rejected != [] then HumanReview else if reportRaises then RunFailed
                   else Completed)
  {
  }

  lemma {:induction false} EndOfLateStages(script: Script)
    requires ReachesVerdicts(script)
    ensures var produced := AfterTasks(AgentTasks(script), |AgentTasks(script)|).produced;
            HasEnd(LateStages(produced, script).acts, LastStatus(script)) && !LateStages(produced, script).raises
  {
    var produced := AfterTasks(AgentTasks(script), |AgentTasks(script)|).produced;
    var challenge := ChallengeStep(produced, script.challenger);
    var audit := AuditActs(challenge.produced, script.audit, script.reportRaises);
    EndOfAudit(challenge.produced, script.audit.ctx, script.reportRaises);
    EndsAlike([To(Auditing)], audit, LastStatus(script));
    EndsAlike([To(Synthesizing), To(Challenging)] + challenge.acts, [To(Auditing)] + audit, LastStatus(script));
  }

  lemma {:induction false} EndOfStages(script: Script)
    requires ReachesVerdicts(script)
    ensures HasEnd(StagesPlan(script).acts, LastStatus(script)) && !StagesPlan(script).raises
  {
    var agents := AfterTasks(AgentTasks(script), |AgentTasks(script)|);
    EndOfLateStages(script);
    EndsAlike([To(Planning), To(Executing)] + agents.acts, LateStages(agents.produced, script).acts,
        LastStatus(script));
  }

  predicate EndsInReport(acts: seq<Act>) {
    && |acts| >= 3 && acts[|acts| - 1] == Commit && acts[|acts| - 2] == To(Completed)
    && acts[|acts| - 3] == WriteReport(VerifiedDraft)
  }

  lemma {:induction false} EndOfPlan(script: Script)
    requires ReachesVerdicts(script)
    ensures var acts := ReviewPlan(script).acts;
            |acts| >= 2 && acts[|acts| - 1] == Commit && acts[|acts| - 2] == To(LastStatus(script))
    ensures LastStatus(script) == Completed ==> EndsInReport(ReviewPlan(script).acts)
  {
    EndOfStages(script);
    EndsAlike([To(Authorized), To(ValidatingCase)], StagesPlan(script).acts, LastStatus(script));
    PlanOfStages(script);
    EndsInCommit([To(Authorized), To(ValidatingCase)] + StagesPlan(script).acts, LastStatus(script));
  }

  lemma {:induction false} PlanOfStages(script: Script)
    requires script.caseExists && script.hasDocuments && !StagesPlan(script).raises
    ensures ReviewPlan(script).acts == [To(Authorized), To(ValidatingCase)] + StagesPlan(script).acts + [Commit]
  {
  }

  lemma {:induction false} EndsInCommit(acts: seq<Act>, status: Status)
    requires HasEnd(acts, status)
    ensures var all := acts + [Commit];
            && |all| >= 2 && all[|all| - 1] == Commit && all[|all| - 2] == To(status)
            && (status == Completed ==> EndsInReport(all))
  {
  }

  function FinalRows(script: Script, startVersion: int, freshWriter: bool, commitEachStage: bool): Db {
    Survives(script, startVersion, freshWriter, commitEachStage, |ReviewPlan(script).acts|)
  }

  /** The verdicts alone decide where the run ends: the auditor's overall judgement is not consulted. */
  lemma {:induction false} VerdictsDecideTheEnd(
      script: Script, startVersion: int, freshWriter: bool, commitEachStage: bool)
    requires ReachesVerdicts(script)
    ensures FinalRows(script, startVersion, freshWriter, commitEachStage).status == LastStatus(script)
  {
    var s, acts := Open(NewRun(startVersion), freshWriter, commitEachStage), ReviewPlan(script).acts;
    EndOfPlan(script);
    EndsWithMove(s, acts, LastStatus(script));
  }

  lemma {:induction false} EndsWithMove(s: Session, acts: seq<Act>, status: Status)
    requires |acts| >= 2 && acts[|acts| - 1] == Commit && acts[|acts| - 2] == To(status)
    ensures Run(s, acts[..|acts|]).committed.status == status && Run(s, acts[..|acts|]).committed == Run(s, acts).work
  {
    assert acts[..|acts|] == acts;
    var front := acts[..|acts| - 1];
    assert front[|front| - 1] == To(status);
    assert Run(s, front) == Apply(Run(s, front[..|front| - 1]), To(status));
  }

  lemma {:induction false} ReportSurvivesMove(s: Session, status: Status, reportStatus: ReportStatus)
    ensures var reports := Apply(Apply(Apply(s, WriteReport(reportStatus)), To(status)), Commit).committed.reports;
            reports != [] && reports[|reports| - 1].status == reportStatus
  {
  }

  lemma {:induction false} LastAct(s: Session, acts: seq<Act>, n: nat)
    requires 0 < n <= |acts|
    ensures Run(s, acts[..n]) == Apply(Run(s, acts[..n - 1]), acts[n - 1])
  {
    assert acts[..n][..n - 1] == acts[..n - 1];
  }

  lemma {:induction false} LastThree(s: Session, acts: seq<Act>)
    requires |acts| >= 3
    ensures var n := |acts|;
            Run(s, acts[..n]) == Apply(Apply(Apply(Run(s, acts[..n - 3]), acts[n - 3]), acts[n - 2]), acts[n - 1])
  {
    LastAct(s, acts, |acts|);
    LastAct(s, acts, |acts| - 1);
    LastAct(s, acts, |acts| - 2);
  }

  lemma {:induction false} PersistedStays(s: Session, acts: seq<Act>, a: AgentArtifact)
    requires Persist(a) in acts
    ensures a in Run(s, acts).work.artifacts
  {
    var front, last := acts[..|acts| - 1], acts[|acts| - 1];
    ArtifactsStay(Run(s, front), last, a);
    if last != Persist(a) {
      assert acts == front + [last];
      PersistedStays(s, front, a);
    }
  }

  lemma {:induction false} ArtifactsStay(s: Session, act: Act, a: AgentArtifact)
    ensures a in s.work.artifacts || act == Persist(a) ==> a in Apply(s, act).work.artifacts
  {
  }

  lemma {:induction false} NothingFiled(ctx: Context, artifacts: seq<AgentArtifact>)
    requires forall a :: a in artifacts ==> a.claims == [] || TreatmentOf(ctx, a).Skip?
    ensures AllFilings(ctx, artifacts) == []
  {
    if artifacts != [] {
      var front, last := artifacts[..|artifacts| - 1], artifacts[|artifacts| - 1];
      assert artifacts == front + [last];
      NothingFiled(ctx, front);
      assert last in artifacts;
    }
  }

  function Silent(producer: string): AgentArtifact {
    AgentArtifact(producer, SUCCESS, [], [], [], false)
  }

  /** A risk analyst that reports failure but still hands over a claim. */
  function FailedWithClaim(claim: AgentClaim): AgentArtifact {
    AgentArtifact("risk_analyst", FAILED, [claim], [], [], false)
  }

  function FailedRiskScript(ctx: Context, claim: AgentClaim): Script {
    Script(true, true, Produced(Silent("policy_analyst")), Produced(Silent("financial_analyst")),
        Some(Produced(FailedWithClaim(claim))),
           Produced(Silent("challenger")), AuditRan(ctx), false)
  }

  /** The ids of one claim, whatever silent artifacts come with it. */
  lemma {:induction false} OneClaimIsFree(claim: AgentClaim)
    ensures var a, b, c, d := Silent("policy_analyst"), Silent("financial_analyst"), FailedWithClaim(claim),
            Silent("challenger");
            KeysFree([], a) && KeysFree([a], b) && KeysFree([a, b], c) && KeysFree([a, b, c], d)
  {
    var a, b, c, d := Silent("policy_analyst"), Silent("financial_analyst"), FailedWithClaim(claim),
        Silent("challenger");
    MoreClaims([], a);
    MoreClaims([a], b);
    MoreClaims([a, b], c);
    MoreClaims([a, b, c], d);
    assert [] + [a] == [a] && [a] + [b] == [a, b] && [a, b] + [c] == [a, b, c];
  }

  lemma {:induction false} FailedRiskTasks(ctx: Context, claim: AgentClaim)
    ensures var tasks := AgentTasks(FailedRiskScript(ctx, claim));
            var p := AfterTasks(tasks, 3);
            && |tasks| == 3 && p.next == GoOn && Persist(FailedWithClaim(claim)) in p.acts
            && p.produced == [Silent("policy_analyst"), Silent("financial_analyst"), FailedWithClaim(claim)]
  {
    var tasks := AgentTasks(FailedRiskScript(ctx, claim));
    OneClaimIsFree(claim);
    OneTaskMore(tasks, 1);
    assert AfterTasks(tasks, 1).produced == [Silent("policy_analyst")] && AfterTasks(tasks, 1).next == GoOn;
    OneTaskMore(tasks, 2);
    assert AfterTasks(tasks, 2).produced == [Silent("policy_analyst"), Silent("financial_analyst")]
           && AfterTasks(tasks, 2).next == GoOn;
    OneTaskMore(tasks, 3);
  }

  lemma {:induction false} FailedRiskGoesOn(ctx: Context, claim: AgentClaim)
    ensures ReachesVerdicts(FailedRiskScript(ctx, claim))
    ensures Examined(FailedRiskScript(ctx, claim)) ==
            [Silent("policy_analyst"), Silent("financial_analyst"), FailedWithClaim(claim), Silent("challenger")]
    ensures Persist(FailedWithClaim(claim)) in StagesPlan(FailedRiskScript(ctx, claim)).acts
  {
    FailedRiskTasks(ctx, claim);
    OneClaimIsFree(claim);
    var agents := AfterTasks(AgentTasks(FailedRiskScript(ctx, claim)), 3);
    assert forall act :: act in agents.acts ==> act in StagesPlan(FailedRiskScript(ctx, claim)).acts;
  }

  lemma {:induction false} FinalReport(script: Script, startVersion: int, freshWriter: bool, commitEachStage: bool)
    requires EndsInReport(ReviewPlan(script).acts)
    ensures var reports := FinalRows(script, startVersion, freshWriter, commitEachStage).reports;
            reports != [] && reports[|reports| - 1].status == VerifiedDraft
  {
    ReportAtTheEnd(Open(NewRun(startVersion), freshWriter, commitEachStage), ReviewPlan(script).acts);
  }

  lemma {:induction false} ReportAtTheEnd(s: Session, acts: seq<Act>)
    requires EndsInReport(acts)
    ensures var reports := Run(s, acts[..|acts|]).committed.reports;
            reports != [] && reports[|reports| - 1].status == VerifiedDraft
  {
    LastThree(s, acts);
    ReportSurvivesMove(Run(s, acts[..|acts| - 3]), Completed, VerifiedDraft);
  }

  lemma {:induction false} VerifiedDraftRows(db: Db, startVersion: int)
    requires Good(db, startVersion) && db.status == Completed
    requires db.reports != [] && db.reports[|db.reports| - 1].status == VerifiedDraft
    ensures Blocking(db.claims) == PassedOverIds(db.artifacts)
  {
  }

  /** A run completed without review leaves undecided exactly the claims of the failed non-core artifacts. */
  lemma {:induction false} CompletedWithoutReview(
      script: Script, startVersion: int, freshWriter: bool, commitEachStage: bool)
    requires ReachesVerdicts(script) && LastStatus(script) == Completed
    ensures var db := FinalRows(script, startVersion, freshWriter, commitEachStage);
            db.status == Completed && Blocking(db.claims) == PassedOverIds(db.artifacts)
  {
    VerdictsDecideTheEnd(script, startVersion, freshWriter, commitEachStage);
    EndOfPlan(script);
    FinalReport(script, startVersion, freshWriter, commitEachStage);
    EveryCrashIsGood(script, startVersion, freshWriter, commitEachStage, |ReviewPlan(script).acts|);
    VerifiedDraftRows(FinalRows(script, startVersion, freshWriter, commitEachStage), startVersion);
  }

  lemma {:induction false} ShownArtifact(
      script: Script, startVersion: int, freshWriter: bool, commitEachStage: bool, a: AgentArtifact)
    requires ReachesVerdicts(script) && Persist(a) in ReviewPlan(script).acts
    ensures a in FinalRows(script, startVersion, freshWriter, commitEachStage).artifacts
  {
    EndOfPlan(script);
    ShownAtTheEnd(Open(NewRun(startVersion), freshWriter, commitEachStage), ReviewPlan(script).acts, LastStatus(script),
        a);
  }

  lemma {:induction false} ShownAtTheEnd(s: Session, acts: seq<Act>, status: Status, a: AgentArtifact)
    requires |acts| >= 2 && acts[|acts| - 1] == Commit && acts[|acts| - 2] == To(status) && Persist(a) in acts
    ensures a in Run(s, acts[..|acts|]).committed.artifacts
  {
    EndsWithMove(s, acts, status);
    assert acts[..|acts|] == acts;
    PersistedStays(s, acts, a);
  }

  lemma {:induction false} FailedRiskIsPersisted(ctx: Context, claim: AgentClaim)
    ensures Persist(FailedWithClaim(claim)) in ReviewPlan(FailedRiskScript(ctx, claim)).acts
  {
    FailedRiskGoesOn(ctx, claim);
    var script := FailedRiskScript(ctx, claim);
    assert BodyPlan(script) == StagesPlan(script);
    assert forall act :: act in BodyPlan(script).acts ==> act in ReviewPlan(script).acts;
  }

  lemma {:induction false} ShownClaims(artifacts: seq<AgentArtifact>, claim: AgentClaim)
    requires FailedWithClaim(claim) in artifacts
    ensures claim.claimId in PassedOverIds(artifacts)
  {
    var a := FailedWithClaim(claim);
    assert ClaimIds(a.claims)[0] == claim.claimId && claim.claimId in ClaimIds(a.claims);
    assert PassedOver(a);
  }

  lemma {:induction false} FailedRiskEnds(ctx: Context, claim: AgentClaim)
    requires CaseOk(ctx)
    ensures ReachesVerdicts(FailedRiskScript(ctx, claim)) && LastStatus(FailedRiskScript(ctx, claim)) == Completed
  {
    FailedRiskGoesOn(ctx, claim);
    NothingOfTheseFiled(ctx, claim);
    NothingToReview(FailedRiskScript(ctx, claim));
  }

  lemma {:induction false} NothingOfTheseFiled(ctx: Context, claim: AgentClaim)
    requires CaseOk(ctx)
    ensures AllFilings(ctx,
            [Silent("policy_analyst"), Silent("financial_analyst"), FailedWithClaim(claim), Silent("challenger")]) == []
  {
    assert TreatmentOf(ctx, FailedWithClaim(claim)).Skip?;
    NothingFiled(ctx,
        [Silent("policy_analyst"), Silent("financial_analyst"), FailedWithClaim(claim), Silent("challenger")]);
  }

  lemma {:induction false} NothingToReview(script: Script)
    requires ReachesVerdicts(script) && AllFilings(script.audit.ctx, Examined(script)) == [] && !script.reportRaises
    ensures LastStatus(script) == Completed
  {
  }

  /** Where the guarantee fails: a failed risk analyst's claim is completed over, still undecided. */
  lemma {:induction false} FailedRiskCompletesUndecided(
      ctx: Context, claim: AgentClaim, startVersion: int, freshWriter: bool, commitEachStage: bool)
    requires CaseOk(ctx)
    ensures var db := FinalRows(FailedRiskScript(ctx, claim), startVersion, freshWriter, commitEachStage);
            db.status == Completed && claim.claimId in Blocking(db.claims)
  {
    var script := FailedRiskScript(ctx, claim);
    FailedRiskEnds(ctx, claim);
    FailedRiskIsPersisted(ctx, claim);
    CompletedWithoutReview(script, startVersion, freshWriter, commitEachStage);
    ShownArtifact(script, startVersion, freshWriter, commitEachStage, FailedWithClaim(claim));
    ShownClaims(FinalRows(script, startVersion, freshWriter, commitEachStage).artifacts, claim);
  }
}
