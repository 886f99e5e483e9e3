/** Where the verdict on a claim comes from: the auditor's own acceptance, or a recorded human decision that names the
    claim (src/creditlens/agents/supervisor.py:401-446, 706-719, 914-982). */
module ClaimProvenance {
  import opened Common
  import opened Contracts
  import opened EvidenceAuditor
  import opened ClaimAudit
  import opened FullReview
  import opened ReviewInvariants
  import opened ReviewSafety
  import opened HumanReview
  import opened DecisionHistory
  import opened AutomaticPath
  import opened OverallVerdict

  // ---------------------------------------------------------------- the automatic path

  /** A write that leaves verdicts to humans alone and applies no audit but l. */
  predicate Automatic(act: Act, l: Lists) {
    !act.Judge? && !act.Record? && (act.ApplyAudit? ==> act.lists == l)
  }

  predicate AllAutomatic(acts: seq<Act>, l: Lists) {
    forall act :: act in acts ==> Automatic(act, l)
  }

  lemma {:induction false} AutomaticTask(produced: seq<AgentArtifact>, run: TaskRun, l: Lists)
    ensures AllAutomatic(TaskStep(produced, run).acts, l)
  {
  }

  lemma {:induction false} AutomaticTasks(tasks: seq<TaskRun>, n: nat, l: Lists)
    requires n <= |tasks|
    ensures AllAutomatic(AfterTasks(tasks, n).acts, l)
  {
    if n > 0 {
      AutomaticTasks(tasks, n - 1, l);
      OneTaskMore(tasks, n);
      AutomaticTask(AfterTasks(tasks, n - 1).produced, tasks[n - 1], l);
    }
  }

  lemma {:induction false} AutomaticChallenge(produced: seq<AgentArtifact>, outcome: AgentOutcome, l: Lists)
    ensures AllAutomatic(ChallengeStep(produced, outcome).acts, l)
  {
  }

  /** The lists the supervisor applies, if it gets that far. */
  function ListsOf(script: Script): Lists {
    match script.audit
    case AuditRan(ctx) => Verified(ctx, Examined(script)).lists
    case AuditRaised => NO_CLAIMS
  }

  lemma {:induction false} AutomaticAudit(
      produced: seq<AgentArtifact>, audit: AuditOutcome, reportRaises: bool, l: Lists)
    requires audit.AuditRan? ==> l == Verified(audit.ctx, produced).lists
    ensures AllAutomatic(AuditActs(produced, audit, reportRaises), l)
  {
  }

  lemma {:induction false} AutomaticLateStages(script: Script)
    ensures AllAutomatic(LateStages(AfterTasks(AgentTasks(script), |AgentTasks(script)|).produced, script).acts,
            ListsOf(script))
  {
    var produced := AfterTasks(AgentTasks(script), |AgentTasks(script)|).produced;
    AutomaticChallenge(produced, script.challenger, ListsOf(script));
    AutomaticAudit(Examined(script), script.audit, script.reportRaises, ListsOf(script));
  }

  lemma {:induction false} AutomaticStages(script: Script)
    ensures AllAutomatic(StagesPlan(script).acts, ListsOf(script))
  {
    var tasks := AgentTasks(script);
    AutomaticTasks(tasks, |tasks|, ListsOf(script));
    AutomaticLateStages(script);
  }

  lemma {:induction false} AutomaticPlan(script: Script)
    ensures AllAutomatic(ReviewPlan(script).acts, ListsOf(script))
  {
    AutomaticStages(script);
    assert AllAutomatic(BodyPlan(script).acts, ListsOf(script));
  }

  // ---------------------------------------------------------------- verdicts and their origin

  /** A recorded decision with this action names the claim. */
  predicate OnRecord(decisions: map<string, Decision>, id: Id, action: HumanAction) {
    exists key :: key in decisions && Names(decisions[key], id, action)
  }

  predicate Names(d: Decision, id: Id, action: HumanAction) {
    d.action == action && id in Ids(d)
  }

  /** Audited only if among the accepted; approved or rejected by a human exactly if a recorded decision says so. */
  predicate Explained(db: Db, accepted: seq<Id>) {
    forall id :: id in db.claims ==>
      && (db.claims[id] == Audited ==> id in accepted)
      && (db.claims[id] == HumanApproved <==> OnRecord(db.decisions, id, ApproveClaim))
      && (db.claims[id] == HumanRejected <==> OnRecord(db.decisions, id, RejectClaim))
  }

  /** Before any human has decided. */
  predicate Untouched(db: Db, accepted: seq<Id>) {
    && db.decisions == map[]
    && forall id :: id in db.claims
        ==> db.claims[id] in {Pending, NeedsRework, Audited} && (db.claims[id] == Audited ==> id in accepted)
  }

  lemma {:induction false} AutomaticWrite(s: Session, act: Act, l: Lists)
    requires Untouched(s.work, l.accepted) && Untouched(s.committed, l.accepted) && Automatic(act, l)
    ensures Untouched(Apply(s, act).work, l.accepted) && Untouched(Apply(s, act).committed, l.accepted)
  {
  }

  lemma {:induction false} AutomaticRun(s: Session, acts: seq<Act>, l: Lists)
    requires Untouched(s.work, l.accepted) && Untouched(s.committed, l.accepted) && AllAutomatic(acts, l)
    ensures Untouched(Run(s, acts).work, l.accepted) && Untouched(Run(s, acts).committed, l.accepted)
  {
    if acts != [] {
      var front, last := acts[..|acts| - 1], acts[|acts| - 1];
      assert acts == front + [last];
      AutomaticRun(s, front, l);
      AutomaticWrite(Run(s, front), last, l);
    }
  }

  lemma {:induction false} SurvivorsAreExplained(
      script: Script, startVersion: int, freshWriter: bool, commitEachStage: bool, k: nat)
    requires k <= |ReviewPlan(script).acts|
    ensures Explained(Survives(script, startVersion, freshWriter, commitEachStage, k), ListsOf(script).accepted)
  {
    var acts := ReviewPlan(script).acts;
    AutomaticPlan(script);
    assert forall act :: act in acts[..k] ==> act in acts;
    AutomaticRun(Open(NewRun(startVersion), freshWriter, commitEachStage), acts[..k], ListsOf(script));
  }

  // ---------------------------------------------------------------- human decisions

  lemma {:induction false} OneDecisionMore(
      decisions: map<string, Decision>, key: string, d: Decision, id: Id, action: HumanAction)
    requires key !in decisions
    ensures OnRecord(decisions[key := d], id, action) <==> OnRecord(decisions, id, action) || Names(d, id, action)
  {
    var after := decisions[key := d];
    if k :| k in decisions && Names(decisions[k], id, action) { assert after[k] == decisions[k]; }
    if Names(d, id, action) { assert after[key] == d; }
  }

  lemma {:induction false} DecisionIsExplained(db: Db, d: Decision, after: Db, accepted: seq<Id>, id: Id)
    requires Explained(db, accepted) && Refuses(db, d).None? && Effect(db, d, after) && id in db.claims
    ensures id in after.claims
    ensures after.claims[id] == Audited ==> id in accepted
    ensures after.claims[id] == HumanApproved <==> OnRecord(after.decisions, id, ApproveClaim)
    ensures after.claims[id] == HumanRejected <==> OnRecord(after.decisions, id, RejectClaim)
  {
    var key := d.idempotencyKey.value;
    OneDecisionMore(db.decisions, key, d, id, ApproveClaim);
    OneDecisionMore(db.decisions, key, d, id, RejectClaim);
    if IsRuling(d.action) { TargetsAreOpen(db.claims, d.targets); }
  }

  lemma {:induction false} RequestsAreExplained(db: Db, requests: seq<Request>, accepted: seq<Id>, startVersion: int)
    requires Good(db, startVersion) && Explained(db, accepted)
    ensures Explained(ServeAll(db, requests), accepted)
  {
    if requests != [] {
      var front, last := requests[..|requests| - 1], requests[|requests| - 1];
      var before, after := ServeAll(db, front), ServeAll(db, requests);
      RequestsAreExplained(db, front, accepted, startVersion);
      RequestsKeepGood(db, front, startVersion);
      ServeCases(before, last, startVersion);
      if Applies(before, last) {
        forall id | id in after.claims
          ensures (after.claims[id] == Audited ==> id in accepted)
               && (after.claims[id] == HumanApproved <==> OnRecord(after.decisions, id, ApproveClaim))
               && (after.claims[id] == HumanRejected <==> OnRecord(after.decisions, id, RejectClaim))
        {
          DecisionIsExplained(before, last.decision, after, accepted, id);
        }
      }
    }
  }

  /** In every reachable state a claim is human-approved, or human-rejected, exactly if a recorded decision approved, or
      rejected, it by name, and audited only if the auditor accepted it. */
  lemma {:induction false} VerdictsAreExplained(
      script: Script, startVersion: int, freshWriter: bool, commitEachStage: bool, k: nat, requests: seq<Request>)
    requires k <= |ReviewPlan(script).acts|
    ensures Explained(Reached(script, startVersion, freshWriter, commitEachStage, k, requests),
            ListsOf(script).accepted)
  {
    EveryCrashIsGood(script, startVersion, freshWriter, commitEachStage, k);
    SurvivorsAreExplained(script, startVersion, freshWriter, commitEachStage, k);
    RequestsAreExplained(Survives(script, startVersion, freshWriter, commitEachStage, k), requests,
        ListsOf(script).accepted, startVersion);
  }

  // ---------------------------------------------------------------- reported claims

  /** Some artifact the auditor saw has a claim with this id about which nothing is wrong. */
  predicate FoundAcceptable(ctx: Context, artifacts: seq<AgentArtifact>, id: Id) {
    exists a, c :: a in artifacts && c in a.claims && c.claimId == id && Acceptable(ctx, a, c)
  }

  lemma {:induction false} AcceptedIsAcceptable(ctx: Context, artifacts: seq<AgentArtifact>, id: Id)
    requires NoDuplicates(AllIds(artifacts)) && id in Verified(ctx, artifacts).lists.accepted
    ensures FoundAcceptable(ctx, artifacts, id)
  {
    FiledUnder(NO_CLAIMS, AllFilings(ctx, artifacts), id);
    FilingsOf(ctx, artifacts, Filing(id, Accepted));
    var i, k :| 0 <= i < |artifacts| && 0 <= k < |artifacts[i].claims| && !TreatmentOf(ctx, artifacts[i]).Skip?
                && Filing(id, Accepted)
                    == Filing(artifacts[i].claims[k].claimId, ClaimRuling(ctx, artifacts[i], artifacts[i].claims[k]));
    AcceptedExactlyWhenAcceptable(ctx, artifacts, i, k);
    assert artifacts[i] in artifacts && artifacts[i].claims[k] in artifacts[i].claims;
  }

  /** Every claim shown in a report was found acceptable by an audit that ran, or approved by name in a recorded human
      decision, and no recorded decision rejects it. */
  lemma {:induction false} ReportedClaimsAreVouchedFor(
      script: Script, startVersion: int, freshWriter: bool, commitEachStage: bool, k: nat, requests: seq<Request>,
      report: Report, id: Id)
    requires k <= |ReviewPlan(script).acts|
    requires var db := Reached(script, startVersion, freshWriter, commitEachStage, k, requests);
             report in db.reports && id in report.claims
    ensures var db := Reached(script, startVersion, freshWriter, commitEachStage, k, requests);
            && ((script.audit.AuditRan? && FoundAcceptable(script.audit.ctx, Examined(script), id))
                  || OnRecord(db.decisions, id, ApproveClaim))
            && !OnRecord(db.decisions, id, RejectClaim)
  {
    var db := Reached(script, startVersion, freshWriter, commitEachStage, k, requests);
    VerdictsAreExplained(script, startVersion, freshWriter, commitEachStage, k, requests);
    ReachableIsGood(script, startVersion, freshWriter, commitEachStage, k, requests);
    ShownIsReportable(db, startVersion, report, id);
    if db.claims[id] == Audited {
      AuditedAreDistinct(script);
      AcceptedIsAcceptable(script.audit.ctx, Examined(script), id);
    }
  }

  lemma {:induction false} ShownIsReportable(db: Db, startVersion: int, report: Report, id: Id)
    requires Good(db, startVersion) && report in db.reports && id in report.claims
    ensures id in db.claims && (db.claims[id] == Audited || db.claims[id] == HumanApproved)
  {
    assert db.status == Completed && db.reports == [db.reports[0]] && report == db.reports[0];
  }
}
