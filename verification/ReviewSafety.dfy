/** Wherever an execution is cut off, its committed rows satisfy the invariant. */
module ReviewSafety {
  import opened Common
  import opened Contracts
  import opened EvidenceAuditor
  import opened ClaimAudit
  import opened FullReview
  import opened ReviewInvariants
  import opened ReviewVerdicts

  predicate Settled(db: Db) {
    ReportsFit(db) && ReviewHasWork(db)
  }

  // ---------------------------------------------------------------- one more write

  lemma {:induction false} Then(s: Session, acts: seq<Act>, act: Act, startVersion: int)
    requires SafeRun(s, acts, startVersion) && Safe(Run(s, acts), startVersion) && Legal(Run(s, acts), act)
    requires Commits(Run(s, acts), act)
             ==> ReportsFit(Apply(Run(s, acts), act).work) && ReviewHasWork(Apply(Run(s, acts), act).work)
    ensures SafeRun(s, acts + [act], startVersion)
    ensures Run(s, acts + [act]) == Apply(Run(s, acts), act)
    ensures Safe(Run(s, acts + [act]), startVersion)
  {
    assert (acts + [act])[..|acts + [act]| - 1] == acts;
    StepIsSafe(Run(s, acts), act, startVersion);
  }

  lemma {:induction false} One(s: Session, act: Act, startVersion: int)
    requires Safe(s, startVersion) && Legal(s, act)
    requires Commits(s, act) ==> ReportsFit(Apply(s, act).work) && ReviewHasWork(Apply(s, act).work)
    ensures SafeRun(s, [act], startVersion)
    ensures Run(s, [act]) == Apply(s, act)
    ensures Safe(Run(s, [act]), startVersion)
  {
    Then(s, [], act, startVersion);
    assert [] + [act] == [act];
  }

  lemma {:induction false} Two(s: Session, first: Act, second: Act, startVersion: int)
    requires Safe(s, startVersion) && Legal(s, first) && Legal(Apply(s, first), second)
    requires Commits(s, first) ==> Settled(Apply(s, first).work)
    requires Commits(Apply(s, first), second) ==> Settled(Apply(Apply(s, first), second).work)
    ensures SafeRun(s, [first, second], startVersion)
    ensures Run(s, [first, second]) == Apply(Apply(s, first), second)
    ensures Safe(Run(s, [first, second]), startVersion)
  {
    One(s, first, startVersion);
    Then(s, [first], second, startVersion);
    assert [first] + [second] == [first, second];
  }

  // ---------------------------------------------------------------- before the audit

  predicate SameClaims(a: seq<AgentArtifact>, b: seq<AgentArtifact>) {
    AllIds(a) == AllIds(b) && PassedOverIds(a) == PassedOverIds(b)
  }

  /** All claims await their first verdict. */
  predicate AllPending(claims: map<Id, ReviewStatus>, ids: seq<Id>) {
    claims.Keys == (set id | id in ids) && forall id :: id in claims ==> claims[id] == Pending
  }

  predicate Unreported(db: Db) {
    db.reports == [] && db.decisions == map[] && db.status !in {Completed, HumanReview, Rework}
  }

  /** The rows in the DAG before the audit is applied. */
  predicate Early(db: Db, status: Status, produced: seq<AgentArtifact>) {
    && db.status == status && Unreported(db)
    && AllPending(db.claims, AllIds(produced))
    && SameClaims(db.artifacts, produced)
    && NoDuplicates(AllIds(produced))
  }

  predicate Stage(s: Session, status: Status, produced: seq<AgentArtifact>, startVersion: int) {
    Safe(s, startVersion) && Early(s.work, status, produced)
  }

  lemma {:induction false} MoreClaims(artifacts: seq<AgentArtifact>, a: AgentArtifact)
    ensures AllIds(artifacts + [a]) == AllIds(artifacts) + ClaimIds(a.claims)
    ensures PassedOverIds(artifacts + [a]) ==
            PassedOverIds(artifacts) + if PassedOver(a) then set id | id in ClaimIds(a.claims) else {}
  {
    assert (artifacts + [a])[..|artifacts + [a]| - 1] == artifacts;
  }

  lemma {:induction false} SameClaimsMore(a: seq<AgentArtifact>, b: seq<AgentArtifact>, more: AgentArtifact)
    requires SameClaims(a, b)
    ensures SameClaims(a + [more], b + [more])
    ensures more.claims == [] ==> SameClaims(a + [more], b)
  {
    MoreClaims(a, more);
    MoreClaims(b, more);
  }

  lemma {:induction false} PendingMore(claims: map<Id, ReviewStatus>, ids: seq<Id>, a: AgentArtifact)
    requires AllPending(claims, ids)
    ensures AllPending(NewClaims(claims, a), ids + ClaimIds(a.claims))
    ensures a.claims == [] ==> AllPending(NewClaims(claims, a), ids)
  {
  }

  lemma {:induction false} PersistRows(s: Session, status: Status, produced: seq<AgentArtifact>, a: AgentArtifact)
    requires Early(s.work, status, produced) && KeysFree(produced, a)
    ensures Early(Apply(s, Persist(a)).work, status, produced + [a])
  {
    SameClaimsMore(s.work.artifacts, produced, a);
    MoreClaims(produced, a);
    PendingMore(s.work.claims, AllIds(produced), a);
  }

  lemma {:induction false} PersistEmptyRows(s: Session, status: Status, produced: seq<AgentArtifact>, a: AgentArtifact)
    requires Early(s.work, status, produced) && a.claims == []
    ensures Early(Apply(s, Persist(a)).work, status, produced)
  {
    SameClaimsMore(s.work.artifacts, produced, a);
    PendingMore(s.work.claims, AllIds(produced), a);
  }

  /** Writing down an artifact adds its claims, all pending. */
  lemma {:induction false} PersistStage(
      s: Session, status: Status, produced: seq<AgentArtifact>, a: AgentArtifact, startVersion: int)
    requires Stage(s, status, produced, startVersion) && KeysFree(produced, a)
    ensures Stage(Apply(s, Persist(a)), status, produced + [a], startVersion)
    ensures a.claims == [] ==> Stage(Apply(s, Persist(a)), status, produced, startVersion)
    ensures SafeRun(s, [Persist(a)], startVersion) && Run(s, [Persist(a)]) == Apply(s, Persist(a))
  {
    One(s, Persist(a), startVersion);
    PersistRows(s, status, produced, a);
    if a.claims == [] { PersistEmptyRows(s, status, produced, a); }
  }

  /** Writes that concern neither claims nor the status. */
  predicate Quiet(act: Act) {
    act.Degrade? || act.Checkpoint? || act.Commit? || (act.Emit? && !BumpsVersion(act.kind))
  }

  lemma {:induction false} QuietStep(s: Session, act: Act, status: Status, produced: seq<AgentArtifact>)
    requires Quiet(act) && Early(s.work, status, produced)
    ensures Early(Apply(s, act).work, status, produced) && Legal(s, act)
    ensures ReportsFit(Apply(s, act).work) && ReviewHasWork(Apply(s, act).work)
  {
  }

  lemma {:induction false} QuietStage(
      s: Session, acts: seq<Act>, status: Status, produced: seq<AgentArtifact>, startVersion: int)
    requires Stage(s, status, produced, startVersion) && forall act :: act in acts ==> Quiet(act)
    ensures SafeRun(s, acts, startVersion) && Stage(Run(s, acts), status, produced, startVersion)
  {
    if acts != [] {
      var front, last := acts[..|acts| - 1], acts[|acts| - 1];
      assert acts == front + [last];
      QuietStage(s, front, status, produced, startVersion);
      QuietStep(Run(s, front), last, status, produced);
      Then(s, front, last, startVersion);
    }
  }

  lemma {:induction false} MoveStage(
      s: Session, status: Status, next: Status, produced: seq<AgentArtifact>, startVersion: int)
    requires Stage(s, status, produced, startVersion) && Edge(status, next) && next !in {Completed, HumanReview, Rework}
    ensures SafeRun(s, [To(next)], startVersion) && Stage(Run(s, [To(next)]), next, produced, startVersion)
  {
    One(s, To(next), startVersion);
  }

  lemma {:induction false} Chain(s: Session, first: seq<Act>, second: seq<Act>, startVersion: int)
    requires SafeRun(s, first, startVersion) && SafeRun(Run(s, first), second, startVersion)
    ensures SafeRun(s, first + second, startVersion) && Run(s, first + second) == Run(Run(s, first), second)
  {
    SafeRunAppend(s, first, second, startVersion);
    RunAppend(s, first, second);
  }

  // ---------------------------------------------------------------- the agents

  /** A stretch of writes is safe, and leaves the rows ready for what follows it. */
  predicate Fits(s: Session, p: Progress, status: Status, startVersion: int) {
    match p.next
    case GoOn => SafeRun(s, p.acts, startVersion) && Stage(Run(s, p.acts), status, p.produced, startVersion)
    case Stop => SafeRun(s, p.acts, startVersion) && Safe(Run(s, p.acts), startVersion) && Settled(Run(s, p.acts).work)
    case Raise => SafeRun(s, p.acts, startVersion)
  }

  /** An artifact followed by quiet writes. */
  lemma {:induction false} PersistThenQuiet(
      s: Session, a: AgentArtifact, quiet: seq<Act>, status: Status, produced: seq<AgentArtifact>, startVersion: int)
    requires Stage(s, status, produced, startVersion) && KeysFree(produced, a)
    requires forall act :: act in quiet ==> Quiet(act)
    ensures var acts := [Persist(a)] + quiet;
            && SafeRun(s, acts, startVersion) && Stage(Run(s, acts), status, produced + [a], startVersion)
            && (a.claims == [] ==> Stage(Run(s, acts), status, produced, startVersion))
  {
    PersistStage(s, status, produced, a, startVersion);
    QuietStage(Run(s, [Persist(a)]), quiet, status, produced + [a], startVersion);
    if a.claims == [] { QuietStage(Run(s, [Persist(a)]), quiet, status, produced, startVersion); }
    Chain(s, [Persist(a)], quiet, startVersion);
  }

  lemma {:induction false} QuietThenMove(
      s: Session, quiet: seq<Act>, status: Status, next: Status, produced: seq<AgentArtifact>, startVersion: int)
    requires Stage(s, status, produced, startVersion) && Edge(status, next) && next !in {Completed, HumanReview, Rework}
    requires forall act :: act in quiet ==> Quiet(act)
    ensures SafeRun(s, quiet + [To(next)], startVersion)
            && Stage(Run(s, quiet + [To(next)]), next, produced, startVersion)
  {
    QuietStage(s, quiet, status, produced, startVersion);
    MoveStage(Run(s, quiet), status, next, produced, startVersion);
    Chain(s, quiet, [To(next)], startVersion);
  }

  lemma {:induction false} EarlyIsSettled(db: Db, status: Status, produced: seq<AgentArtifact>)
    requires Early(db, status, produced)
    ensures Settled(db)
  {
  }

  /** A stretch of writes after which the session may commit. */
  predicate EndsWell(s: Session, acts: seq<Act>, startVersion: int) {
    SafeRun(s, acts, startVersion) && Safe(Run(s, acts), startVersion) && Settled(Run(s, acts).work)
  }

  lemma {:induction false} ChainEnds(s: Session, first: seq<Act>, second: seq<Act>, startVersion: int)
    requires SafeRun(s, first, startVersion) && EndsWell(Run(s, first), second, startVersion)
    ensures EndsWell(s, first + second, startVersion)
  {
    Chain(s, first, second, startVersion);
  }

  /** ... and then by a move to FAILED. */
  lemma {:induction false} PersistThenFail(
      s: Session, a: AgentArtifact, quiet: seq<Act>, status: Status, produced: seq<AgentArtifact>, startVersion: int)
    requires Stage(s, status, produced, startVersion) && KeysFree(produced, a) && Edge(status, RunFailed)
    requires forall act :: act in quiet ==> Quiet(act)
    ensures var acts := [Persist(a)] + (quiet + [To(RunFailed)]);
            EndsWell(s, acts, startVersion)
  {
    PersistStage(s, status, produced, a, startVersion);
    var t, rest := Run(s, [Persist(a)]), quiet + [To(RunFailed)];
    QuietThenMove(t, quiet, status, RunFailed, produced + [a], startVersion);
    EarlyIsSettled(Run(t, rest).work, RunFailed, produced + [a]);
    ChainEnds(s, [Persist(a)], rest, startVersion);
  }

  lemma {:induction false} NoNewClaims(produced: seq<AgentArtifact>, producer: string)
    requires NoDuplicates(AllIds(produced))
    ensures KeysFree(produced, FailedArtifact(producer))
  {
    MoreClaims(produced, FailedArtifact(producer));
  }

  lemma {:induction false} TaskFits(s: Session, produced: seq<AgentArtifact>, run: TaskRun, startVersion: int)
    requires Stage(s, Executing, produced, startVersion)
    ensures Fits(s, TaskStep(produced, run), Executing, startVersion)
  {
    var task := run.task;
    match run.outcome
    case LedgerLost =>
    case Raised => {
      NoNewClaims(produced, Producer(task));
      FailureFits(s, produced, task, FailedArtifact(Producer(task)), produced, startVersion);
    }
    case Produced(a) =>
      if KeysFree(produced, a) {
        if a.executionStatus == FAILED {
          FailureFits(s, produced, task, a, produced + [a], startVersion);
        } else {
          PersistThenQuiet(s, a, AfterSuccess(task, a.executionStatus), Executing, produced, startVersion);
        }
      }
  }

  lemma {:induction false} FailureFits(
      s: Session, produced: seq<AgentArtifact>, task: Task, a: AgentArtifact, after: seq<AgentArtifact>,
      startVersion: int)
    requires Stage(s, Executing, produced, startVersion) && KeysFree(produced, a)
    requires after == produced + [a] || (after == produced && a.claims == [])
    ensures Fits(s, Progress([Persist(a)] + AfterFailure(task).0, after, AfterFailure(task).1), Executing, startVersion)
  {
    if Critical(task) {
      PersistThenFail(s, a, [Emit(TaskFailed(task))], Executing, produced, startVersion);
    } else {
      PersistThenQuiet(s, a, AfterFailure(task).0, Executing, produced, startVersion);
    }
  }

  lemma {:induction false} FitsThen(s: Session, p: Progress, q: Progress, startVersion: int)
    requires SafeRun(s, p.acts, startVersion) && Fits(Run(s, p.acts), q, Executing, startVersion)
    ensures Fits(s, q.(acts := p.acts + q.acts), Executing, startVersion)
  {
    Chain(s, p.acts, q.acts, startVersion);
  }

  lemma {:induction false} OneTaskMore(tasks: seq<TaskRun>, n: nat)
    requires 0 < n <= |tasks|
    ensures var p := AfterTasks(tasks, n - 1);
            AfterTasks(tasks, n) == if p.next != GoOn then p else
              var q := TaskStep(p.produced, tasks[n - 1]); q.(acts := p.acts + q.acts)
  {
  }

  lemma {:induction false} AgentsFit(s: Session, tasks: seq<TaskRun>, n: nat, startVersion: int)
    requires n <= |tasks| && Stage(s, Executing, [], startVersion)
    ensures Fits(s, AfterTasks(tasks, n), Executing, startVersion)
  {
    if n > 0 {
      AgentsFit(s, tasks, n - 1, startVersion);
      var p := AfterTasks(tasks, n - 1);
      OneTaskMore(tasks, n);
      if p.next == GoOn {
        TaskFits(Run(s, p.acts), p.produced, tasks[n - 1], startVersion);
        FitsThen(s, p, TaskStep(p.produced, tasks[n - 1]), startVersion);
      }
    }
  }

  lemma {:induction false} QuietThenPersist(
      s: Session, quiet: seq<Act>, a: AgentArtifact, status: Status, produced: seq<AgentArtifact>, startVersion: int)
    requires Stage(s, status, produced, startVersion) && KeysFree(produced, a)
    requires forall act :: act in quiet ==> Quiet(act)
    ensures SafeRun(s, quiet + [Persist(a)], startVersion)
            && Stage(Run(s, quiet + [Persist(a)]), status, produced + [a], startVersion)
  {
    QuietStage(s, quiet, status, produced, startVersion);
    PersistStage(Run(s, quiet), status, produced, a, startVersion);
    Chain(s, quiet, [Persist(a)], startVersion);
  }

  lemma {:induction false} MissingChallengeFits(
      s: Session, produced: seq<AgentArtifact>, failed: AgentArtifact, startVersion: int)
    requires Stage(s, Challenging, produced, startVersion) && KeysFree(produced, failed)
    ensures var acts := [Degrade(ChallengerTask), Emit(TaskFailed(ChallengerTask))] + [Persist(failed)];
            Fits(s, Progress(acts, produced + [failed], GoOn), Challenging, startVersion)
  {
    QuietThenPersist(s, [Degrade(ChallengerTask), Emit(TaskFailed(ChallengerTask))], failed, Challenging, produced,
        startVersion);
  }

  lemma {:induction false} ChallengeFits(
      s: Session, produced: seq<AgentArtifact>, outcome: AgentOutcome, startVersion: int)
    requires Stage(s, Challenging, produced, startVersion)
    ensures Fits(s, ChallengeStep(produced, outcome), Challenging, startVersion)
  {
    match outcome
    case LedgerLost =>
    case Raised =>
      NoNewClaims(produced, Producer(ChallengerTask));
      MissingChallengeFits(s, produced, FailedArtifact(Producer(ChallengerTask)), startVersion);
    case Produced(a) =>
      if KeysFree(produced, a) { PersistStage(s, Challenging, produced, a, startVersion); }
  }

  // ---------------------------------------------------------------- the audit and the report

  /** The rows once verdicts are in and before any report. */
  predicate Ruled(db: Db, status: Status, open: set<Id>) {
    db.status == status && db.reports == [] && Blocking(db.claims) == open
  }

  lemma {:induction false} VerdictRows(s: Session, produced: seq<AgentArtifact>, ctx: Context)
    requires Early(s.work, Auditing, produced)
    ensures var l, after := Verified(ctx, produced).lists, Apply(s, ApplyAudit(Verified(ctx, produced).lists)).work;
            && Ruled(after, Auditing, Members(l.review) + Members(l.rejected) + PassedOverIds(produced))
            && PassedOverIds(after.artifacts) == PassedOverIds(produced) && after.decisions == map[]
  {
    PendingAreMembers(s.work.claims, AllIds(produced));
    AuditLeavesOpen(ctx, produced, s.work.claims);
    MarkedRows(s, Verified(ctx, produced).lists);
  }

  lemma {:induction false} PendingAreMembers(claims: map<Id, ReviewStatus>, ids: seq<Id>)
    requires AllPending(claims, ids)
    ensures claims.Keys == Members(ids) && forall id :: id in claims ==> claims[id] == Pending
  {
  }

  /** Applying verdicts touches nothing but the claims. */
  lemma {:induction false} MarkedRows(s: Session, l: Lists)
    ensures var after := Apply(s, ApplyAudit(l)).work;
            && after.claims == Marked(s.work.claims, l) && after.status == s.work.status
            && after.reports == s.work.reports
            && after.artifacts == s.work.artifacts && after.decisions == s.work.decisions
  {
  }

  lemma {:induction false} VerdictsAreSafe(
      s: Session, produced: seq<AgentArtifact>, ctx: Context, kind: EventKind, startVersion: int)
    requires Stage(s, Auditing, produced, startVersion) && !BumpsVersion(kind)
    ensures var l := Verified(ctx, produced).lists;
            var acts := [Emit(kind), ApplyAudit(l)];
            && SafeRun(s, acts, startVersion) && Safe(Run(s, acts), startVersion)
            && Ruled(Run(s, acts).work, Auditing, Members(l.review) + Members(l.rejected) + PassedOverIds(produced))
            && PassedOverIds(Run(s, acts).work.artifacts) == PassedOverIds(produced)
            && Run(s, acts).work.decisions == map[]
  {
    var l := Verified(ctx, produced).lists;
    QuietStep(s, Emit(kind), Auditing, produced);
    VerdictRows(Apply(s, Emit(kind)), produced, ctx);
    Two(s, Emit(kind), ApplyAudit(l), startVersion);
  }

  lemma {:induction false} ToReviewIsSafe(s: Session, open: set<Id>, startVersion: int)
    requires Safe(s, startVersion) && Ruled(s.work, Auditing, open) && open != {}
    ensures EndsWell(s, [To(HumanReview)], startVersion)
  {
    One(s, To(HumanReview), startVersion);
  }

  /** Completion leaves claims, artifacts and decisions as they were. */
  predicate KeepsVerdicts(before: Db, after: Db) {
    && after.status == Completed && after.claims == before.claims && after.artifacts == before.artifacts
    && after.decisions == before.decisions
  }

  lemma {:induction false} CompletedRows(s: Session, status: ReportStatus, open: set<Id>)
    requires Ruled(s.work, Reporting, open)
    requires open == if status == VerifiedDraft then PassedOverIds(s.work.artifacts) else {}
    requires status == VerifiedDraft <==> s.work.decisions == map[]
    ensures Settled(Apply(Apply(s, WriteReport(status)), To(Completed)).work)
    ensures KeepsVerdicts(s.work, Apply(Apply(s, WriteReport(status)), To(Completed)).work)
  {
  }

  /** Writing the report and completing, in the status from which reports are made. */
  lemma {:induction false} CompletingIsSafe(s: Session, status: ReportStatus, open: set<Id>, startVersion: int)
    requires Safe(s, startVersion) && Ruled(s.work, Reporting, open)
    requires open == if status == VerifiedDraft then PassedOverIds(s.work.artifacts) else {}
    requires status == VerifiedDraft <==> s.work.decisions == map[]
    ensures var acts := [WriteReport(status), To(Completed)];
            && SafeRun(s, acts, startVersion) && Safe(Run(s, acts), startVersion) && Settled(Run(s, acts).work)
            && KeepsVerdicts(s.work, Run(s, acts).work)
  {
    CompletedRows(s, status, open);
    Two(s, WriteReport(status), To(Completed), startVersion);
  }

  lemma {:induction false} FailedRows(s: Session, open: set<Id>)
    requires Ruled(s.work, Reporting, open)
    ensures Legal(s, Emit(ReportFailed)) && Legal(Apply(s, Emit(ReportFailed)), To(RunFailed))
    ensures Settled(Apply(Apply(s, Emit(ReportFailed)), To(RunFailed)).work)
  {
  }

  lemma {:induction false} FailingReportIsSafe(s: Session, open: set<Id>, startVersion: int)
    requires Safe(s, startVersion) && Ruled(s.work, Reporting, open)
    ensures var acts := [Emit(ReportFailed), To(RunFailed)];
            EndsWell(s, acts, startVersion)
  {
    FailedRows(s, open);
    Two(s, Emit(ReportFailed), To(RunFailed), startVersion);
  }

  lemma {:induction false} ReportingIsSafe(s: Session, reportRaises: bool, startVersion: int)
    requires Safe(s, startVersion) && Ruled(s.work, Auditing, PassedOverIds(s.work.artifacts))
             && s.work.decisions == map[]
    ensures var acts := [To(Reporting)] + ReportActs(reportRaises);
            EndsWell(s, acts, startVersion)
  {
    One(s, To(Reporting), startVersion);
    var t := Run(s, [To(Reporting)]);
    if reportRaises {
      FailingReportIsSafe(t, PassedOverIds(s.work.artifacts), startVersion);
    } else {
      CompletingIsSafe(t, VerifiedDraft, PassedOverIds(s.work.artifacts), startVersion);
    }
    ChainEnds(s, [To(Reporting)], ReportActs(reportRaises), startVersion);
  }

  /** The two writes that put an audit on record. */
  function Verdicts(l: Lists): seq<Act> {
    [Emit(AuditCompleted(|l.accepted|, |l.rejected|, |l.review|)), ApplyAudit(l)]
  }

  lemma {:induction false} OpenVerdictsEnd(s: Session, produced: seq<AgentArtifact>, ctx: Context, startVersion: int)
    requires Stage(s, Auditing, produced, startVersion)
    requires var l := Verified(ctx, produced).lists; l.review != [] || l.rejected != []
    ensures EndsWell(s, Verdicts(Verified(ctx, produced).lists) + [To(HumanReview)], startVersion)
  {
    var l := Verified(ctx, produced).lists;
    VerdictsAreSafe(s, produced, ctx, AuditCompleted(|l.accepted|, |l.rejected|, |l.review|), startVersion);
    NotEmpty(l);
    ToReviewIsSafe(Run(s, Verdicts(l)), Members(l.review) + Members(l.rejected) + PassedOverIds(produced),
        startVersion);
    ChainEnds(s, Verdicts(l), [To(HumanReview)], startVersion);
  }

  lemma {:induction false} NoMembers(l: Lists, others: set<Id>)
    requires l.review == [] && l.rejected == []
    ensures Members(l.review) + Members(l.rejected) + others == others
  {
  }

  lemma {:induction false} CleanVerdictsEnd(
      s: Session, produced: seq<AgentArtifact>, ctx: Context, reportRaises: bool, startVersion: int)
    requires Stage(s, Auditing, produced, startVersion)
    requires var l := Verified(ctx, produced).lists; l.review == [] && l.rejected == []
    ensures EndsWell(s, Verdicts(Verified(ctx, produced).lists) + ([To(Reporting)] + ReportActs(reportRaises)),
            startVersion)
  {
    var l := Verified(ctx, produced).lists;
    VerdictsAreSafe(s, produced, ctx, AuditCompleted(|l.accepted|, |l.rejected|, |l.review|), startVersion);
    NoMembers(l, PassedOverIds(produced));
    ReportingIsSafe(Run(s, Verdicts(l)), reportRaises, startVersion);
    ChainEnds(s, Verdicts(l), [To(Reporting)] + ReportActs(reportRaises), startVersion);
  }

  lemma {:induction false} AuditRanIsSafe(
      s: Session, produced: seq<AgentArtifact>, ctx: Context, reportRaises: bool, startVersion: int)
    requires Stage(s, Auditing, produced, startVersion)
    ensures EndsWell(s, AuditActs(produced, AuditRan(ctx), reportRaises), startVersion)
  {
    var l := Verified(ctx, produced).lists;
    if l.review != [] || l.rejected != [] {
      OpenVerdictsEnd(s, produced, ctx, startVersion);
    } else {
      CleanVerdictsEnd(s, produced, ctx, reportRaises, startVersion);
    }
  }

  lemma {:induction false} NotEmpty(l: Lists)
    requires l.review != [] || l.rejected != []
    ensures Members(l.review) + Members(l.rejected) != {}
  {
    if l.review != [] {
      assert l.review[0] in Members(l.review);
    } else {
      assert l.rejected[0] in Members(l.rejected);
    }
  }

  lemma {:induction false} AuditIsSafe(
      s: Session, produced: seq<AgentArtifact>, audit: AuditOutcome, reportRaises: bool, startVersion: int)
    requires Stage(s, Auditing, produced, startVersion)
    ensures var acts := AuditActs(produced, audit, reportRaises);
            EndsWell(s, acts, startVersion)
  {
    match audit
    case AuditRan(ctx) => AuditRanIsSafe(s, produced, ctx, reportRaises, startVersion);
    case AuditRaised =>
      var failed := FailedArtifact("auditor");
      NoNewClaims(produced, "auditor");
      PersistThenFail(s, failed, [Emit(AuditFailed)], Auditing, produced, startVersion);
  }

  // ---------------------------------------------------------------- the whole execution

  predicate PlanFits(s: Session, p: Plan, startVersion: int) {
    && SafeRun(s, p.acts, startVersion)
    && (!p.raises ==> Safe(Run(s, p.acts), startVersion) && Settled(Run(s, p.acts).work))
  }

  lemma {:induction false} MovedRows(s: Session, status: Status, next: Status, produced: seq<AgentArtifact>)
    requires Early(s.work, status, produced) && next !in {Completed, HumanReview, Rework}
    ensures Early(Apply(s, To(next)).work, next, produced) && Settled(Apply(s, To(next)).work)
  {
  }

  lemma {:induction false} TwoMoves(
      s: Session, status: Status, middle: Status, next: Status, produced: seq<AgentArtifact>, startVersion: int)
    requires Stage(s, status, produced, startVersion) && Edge(status, middle) && Edge(middle, next)
    requires {middle, next} !! {Completed, HumanReview, Rework}
    ensures SafeRun(s, [To(middle), To(next)], startVersion)
    ensures Stage(Run(s, [To(middle), To(next)]), next, produced, startVersion)
  {
    MovedRows(s, status, middle, produced);
    MovedRows(Apply(s, To(middle)), middle, next, produced);
    Two(s, To(middle), To(next), startVersion);
  }

  /** From the end of the agent loop on. */
  lemma {:induction false} LateStagesFit(s: Session, produced: seq<AgentArtifact>, script: Script, startVersion: int)
    requires Stage(s, Executing, produced, startVersion)
    ensures PlanFits(s, LateStages(produced, script), startVersion)
  {
    var challenge := ChallengeStep(produced, script.challenger);
    var moves := [To(Synthesizing), To(Challenging)];
    TwoMoves(s, Executing, Synthesizing, Challenging, produced, startVersion);
    ChallengeFits(Run(s, moves), produced, script.challenger, startVersion);
    Chain(s, moves, challenge.acts, startVersion);
    if challenge.next == GoOn {
      AuditStageFits(Run(s, moves + challenge.acts), challenge.produced, script, startVersion);
      Chain(s, moves + challenge.acts,
          [To(Auditing)] + AuditActs(challenge.produced, script.audit, script.reportRaises), startVersion);
    }
  }

  lemma {:induction false} AuditStageFits(s: Session, produced: seq<AgentArtifact>, script: Script, startVersion: int)
    requires Stage(s, Challenging, produced, startVersion)
    ensures PlanFits(s, Plan([To(Auditing)] + AuditActs(produced, script.audit, script.reportRaises), false),
            startVersion)
  {
    MoveStage(s, Challenging, Auditing, produced, startVersion);
    AuditIsSafe(Run(s, [To(Auditing)]), produced, script.audit, script.reportRaises, startVersion);
    ChainEnds(s, [To(Auditing)], AuditActs(produced, script.audit, script.reportRaises), startVersion);
    EndFits(s, [To(Auditing)] + AuditActs(produced, script.audit, script.reportRaises), startVersion);
  }

  lemma {:induction false} EndFits(s: Session, acts: seq<Act>, startVersion: int)
    requires EndsWell(s, acts, startVersion)
    ensures PlanFits(s, Plan(acts, false), startVersion)
  {
  }

  lemma {:induction false} StagesFit(s: Session, script: Script, startVersion: int)
    requires Stage(s, ValidatingCase, [], startVersion)
    ensures PlanFits(s, StagesPlan(script), startVersion)
  {
    var tasks := AgentTasks(script);
    var agents := AfterTasks(tasks, |tasks|);
    var moves := [To(Planning), To(Executing)];
    TwoMoves(s, ValidatingCase, Planning, Executing, [], startVersion);
    AgentsFit(Run(s, moves), tasks, |tasks|, startVersion);
    Chain(s, moves, agents.acts, startVersion);
    if agents.next == GoOn {
      LateStagesFit(Run(s, moves + agents.acts), agents.produced, script, startVersion);
      Chain(s, moves + agents.acts, LateStages(agents.produced, script).acts, startVersion);
    }
  }

  lemma {:induction false} StopFits(s: Session, next: Status, startVersion: int)
    requires Stage(s, ValidatingCase, [], startVersion) && next in {DataQualityBlocked, NeedMoreInfo}
    ensures PlanFits(s, Plan([To(next)], false), startVersion)
  {
    MoveStage(s, ValidatingCase, next, [], startVersion);
  }

  lemma {:induction false} BodyFits(s: Session, script: Script, startVersion: int)
    requires Stage(s, ValidatingCase, [], startVersion)
    ensures PlanFits(s, BodyPlan(script), startVersion)
  {
    if !script.caseExists {
      StopFits(s, DataQualityBlocked, startVersion);
    } else if !script.hasDocuments {
      StopFits(s, NeedMoreInfo, startVersion);
    } else {
      StagesFit(s, script, startVersion);
    }
  }

  lemma {:induction false} NewRunIsStage(startVersion: int, freshWriter: bool, commitEachStage: bool)
    ensures Stage(Open(NewRun(startVersion), freshWriter, commitEachStage), Received, [], startVersion)
  {
  }

  lemma {:induction false} FinalCommit(s: Session, body: Plan, startVersion: int)
    requires PlanFits(s, body, startVersion)
    ensures SafeRun(s, if body.raises then body.acts else body.acts + [Commit], startVersion)
  {
    if !body.raises { Then(s, body.acts, Commit, startVersion); }
  }

  /** Every prefix of the writes of an execution is safe. */
  lemma {:induction false} ReviewIsSafe(script: Script, startVersion: int, freshWriter: bool, commitEachStage: bool)
    ensures SafeRun(Open(NewRun(startVersion), freshWriter, commitEachStage), ReviewPlan(script).acts, startVersion)
  {
    var s := Open(NewRun(startVersion), freshWriter, commitEachStage);
    var moves, body := [To(Authorized), To(ValidatingCase)], BodyPlan(script);
    NewRunIsStage(startVersion, freshWriter, commitEachStage);
    TwoMoves(s, Received, Authorized, ValidatingCase, [], startVersion);
    BodyFits(Run(s, moves), script, startVersion);
    Chain(s, moves, body.acts, startVersion);
    FinalCommit(s, Plan(moves + body.acts, body.raises), startVersion);
  }

  /** Whatever the agents, the audit and the report do, and wherever the execution is cut off,
      its committed rows satisfy the invariant. */
  lemma {:induction false} EveryCrashIsGood(
      script: Script, startVersion: int, freshWriter: bool, commitEachStage: bool, k: nat)
    requires k <= |ReviewPlan(script).acts|
    ensures Good(Survives(script, startVersion, freshWriter, commitEachStage, k), startVersion)
  {
    var s := Open(NewRun(startVersion), freshWriter, commitEachStage);
    ReviewIsSafe(script, startVersion, freshWriter, commitEachStage);
    SafePrefix(s, ReviewPlan(script).acts, startVersion, k);
  }
}
