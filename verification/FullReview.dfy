/** The full-review run as data: its rows, the elementary writes the supervisor and the human-review
    service make inside a database session, and the plan of writes each of them follows
    (src/creditlens/agents/supervisor.py, src/creditlens/agents/report_agent.py). */
module FullReview {
  import opened Common
  import opened Contracts
  import opened EvidenceAuditor
  import opened ClaimAudit
  import opened EventLog

  // ---------------------------------------------------------------- rows

  datatype Status =
    | Received | Authorized | Denied | ValidatingCase | NeedMoreInfo | DataQualityBlocked | Planning | Executing
    | Synthesizing | Challenging | Auditing | HumanReview | Rework | Reporting | Completed | RunFailed

  /** _TRANSITIONS. */
  function Allowed(s: Status): set<Status> {
    match s
    case Received => {Authorized, Denied}
    case Authorized => {ValidatingCase}
    case ValidatingCase => {Planning, NeedMoreInfo, DataQualityBlocked}
    case Planning => {Executing}
    case Executing => {Synthesizing, RunFailed}
    case Synthesizing => {Challenging}
    case Challenging => {Auditing}
    case Auditing => {HumanReview, Reporting, NeedMoreInfo}
    case HumanReview => {Reporting, Rework}
    case Rework => {HumanReview, Planning}
    case Reporting => {Completed, RunFailed}
    case _ => {}
  }

  /** The statuses in which no background stage is left to wait for or to close. */
  const STOPPED: set<Status> := {Completed, RunFailed, Denied, HumanReview, Rework, NeedMoreInfo, DataQualityBlocked}

  datatype ReviewStatus = Pending | Audited | NeedsRework | HumanApproved | HumanRejected

  datatype Task = PolicyTask | FinancialTask | RiskTask | ChallengerTask

  datatype HumanAction =
    | ApproveClaim | RejectClaim | RequestChanges | RequestMoreInformation | SubmitReport | ApproveReportDraft
    | UnsupportedAction

  datatype EventKind =
    | StateChanged(source: Status, target: Status)
    | TaskFailed(task: Task) | TaskCompleted(task: Task) | TaskDegraded(task: Task)
    | AuditFailed | AuditCompleted(accepted: nat, rejected: nat, review: nat) | ReportFailed
    | HumanDecided(action: HumanAction) | HumanReviewPending(blocking: nat)
    | BackgroundFailed | BackgroundCancelled

  type Event = Logged<EventKind>

  /** A claim id as the client spelled it, with the UUID it parses to, if any. */
  datatype RawId = RawId(spelling: string, parsed: Option<Id>)

  datatype Decision = Decision(
    tenantId: Id, caseId: Id, runId: Id, action: HumanAction, targets: seq<RawId>, targetVersion: Option<int>,
    reasonCode: Option<string>, reason: Option<string>, reviewerId: Option<Id>, idempotencyKey: Option<string>)

  datatype ReportStatus = VerifiedDraft | ApprovedDraft
  datatype Report = Report(versionNo: nat, status: ReportStatus, claims: set<Id>, excluded: int)

  /** All rows of one run. `decisions` is keyed by idempotency key, as its unique constraint allows. */
  datatype Db = Db(
    status: Status, version: int, events: seq<Event>, claims: map<Id, ReviewStatus>, artifacts: seq<AgentArtifact>,
    reports: seq<Report>, decisions: map<string, Decision>, degraded: seq<Task>)

  /** A database session: uncommitted rows, committed rows, the event writer's own counter (absent until its
      first emit when it resumes), and whether every transition commits. */
  datatype Session = Session(work: Db, committed: Db, nextSeq: Option<nat>, commitEachStage: bool)

  // ---------------------------------------------------------------- derived values

  predicate IsBlocking(s: ReviewStatus) {
    s == Pending || s == NeedsRework
  }

  function Blocking(claims: map<Id, ReviewStatus>): set<Id> {
    set id | id in claims && IsBlocking(claims[id])
  }

  function Reportable(claims: map<Id, ReviewStatus>): set<Id> {
    set id | id in claims && (claims[id] == Audited || claims[id] == HumanApproved)
  }

  // ---------------------------------------------------------------- elementary writes

  datatype Act =
    | To(status: Status)
    | Emit(kind: EventKind)
    | Persist(artifact: AgentArtifact)
    | ApplyAudit(lists: Lists)
    | Degrade(task: Task)
    | WriteReport(reportStatus: ReportStatus)
    | Record(key: string, decision: Decision)
    | Judge(ids: seq<Id>, judgement: ReviewStatus)
    | Checkpoint
    | Commit

  function Emitted(s: Session, kind: EventKind): Session {
    var n := if s.nextSeq.Some? then s.nextSeq.value else MaxSequence(s.work.events) + 1;
    s.(work := s.work.(events := s.work.events + [Event(n, kind)]), nextSeq := Some(n + 1))
  }

  function Committed(s: Session): Session {
    s.(committed := s.work)
  }

  function MarkAll(claims: map<Id, ReviewStatus>, ids: seq<Id>, status: ReviewStatus): (r: map<Id, ReviewStatus>)
    ensures r.Keys == claims.Keys
    ensures forall id :: id in claims ==> r[id] == if id in ids then status else claims[id]
  {
    map id | id in claims :: if id in ids then status else claims[id]
  }

  /** _apply_audit_to_claims: accepted, then rejected, then review. */
  function Marked(claims: map<Id, ReviewStatus>, l: Lists): map<Id, ReviewStatus> {
    MarkAll(MarkAll(MarkAll(claims, l.accepted, Audited), l.rejected, NeedsRework), l.review, Pending)
  }

  function WithRows(claims: map<Id, ReviewStatus>, ids: seq<Id>): map<Id, ReviewStatus> {
    claims + map id | id in ids :: Pending
  }

  function NewClaims(claims: map<Id, ReviewStatus>, artifact: AgentArtifact): map<Id, ReviewStatus> {
    WithRows(claims, ClaimIds(artifact.claims))
  }

  function NextVersion(reports: seq<Report>): nat {
    if reports == [] then 1
    else
      var last, front := reports[|reports| - 1].versionNo, NextVersion(reports[..|reports| - 1]);
      if last + 1 > front then last + 1 else front
  }

  /** The next version is one above the highest so far, and one to begin with. */
  lemma {:induction false} NextVersionIsNext(reports: seq<Report>)
    ensures forall r :: r in reports ==> r.versionNo < NextVersion(reports)
    ensures NextVersion(reports) == 1 || exists r :: r in reports && NextVersion(reports) == r.versionNo + 1
  {
    if reports != [] {
      var front, last := reports[..|reports| - 1], reports[|reports| - 1];
      assert reports == front + [last];
      NextVersionIsNext(front);
      if NextVersion(reports) == last.versionNo + 1 { assert last in reports; }
    }
  }

  /** Whatever the log holds, a writer that resumes numbers its next event one above the highest so far. */
  lemma {:induction false} ResumedWriterGoesOn(s: Session, kind: EventKind)
    requires s.nextSeq == None
    ensures var added := Emitted(s, kind).work.events;
            && |added| == |s.work.events| + 1 && added[..|s.work.events|] == s.work.events
            && (forall e :: e in s.work.events ==> e.sequenceNo < added[|s.work.events|].sequenceNo)
            && (s.work.events != [] ==>
                  exists e :: e in s.work.events && added[|s.work.events|].sequenceNo == e.sequenceNo + 1)
  {
    MaxIsHighest(s.work.events);
  }

  /** ReportAgent.generate and persist: only audited or human-approved claims enter. */
  function ReportOf(db: Db, status: ReportStatus): Report {
    Report(NextVersion(db.reports), status, Reportable(db.claims), |db.claims| - |Reportable(db.claims)|)
  }

  function Moved(db: Db, status: Status): (r: Db)
    ensures r.events == db.events && r.decisions == db.decisions
  {
    db.(status := status, version := db.version + 1)
  }

  function Recorded(db: Db, key: string, decision: Decision): (r: Db)
    ensures r.events == db.events && r.status == db.status
  {
    db.(decisions := db.decisions[key := decision], version := db.version + 1)
  }

  function Apply(s: Session, act: Act): Session {
    match act
    case To(status) =>
      var t := Emitted(s.(work := Moved(s.work, status)), StateChanged(s.work.status, status));
      if s.commitEachStage then Committed(t) else t
    case Emit(kind) => Emitted(s, kind)
    case Persist(artifact) =>
      s.(work := s.work.(artifacts := s.work.artifacts + [artifact], claims := NewClaims(s.work.claims, artifact)))
    case ApplyAudit(lists) => s.(work := s.work.(claims := Marked(s.work.claims, lists)))
    case Degrade(task) => s.(work := s.work.(degraded := s.work.degraded + [task]))
    case WriteReport(status) => s.(work := s.work.(reports := s.work.reports + [ReportOf(s.work, status)]))
    case Record(key, decision) =>
      Emitted(s.(work := Recorded(s.work, key, decision)), HumanDecided(decision.action))
    case Judge(ids, judgement) => s.(work := s.work.(claims := MarkAll(s.work.claims, ids, judgement)))
    case Checkpoint => if s.commitEachStage then Committed(s) else s
    case Commit => Committed(s)
  }

  function Run(s: Session, acts: seq<Act>): Session {
    if acts == [] then s else Apply(Run(s, acts[..|acts| - 1]), acts[|acts| - 1])
  }

  lemma {:induction false} RunAppend(s: Session, first: seq<Act>, second: seq<Act>)
    ensures Run(s, first + second) == Run(Run(s, first), second)
    decreases |second|
  {
    if second == [] {
      assert first + second == first;
    } else {
      RunAppend(s, first, second[..|second| - 1]);
      assert (first + second)[..|first + second| - 1] == first + second[..|second| - 1];
    }
  }

  // ---------------------------------------------------------------- the plan of a review

  /** What an agent call comes to: its invocation ledger is lost, it raises, or it returns an artifact. */
  datatype AgentOutcome = LedgerLost | Raised | Produced(artifact: AgentArtifact)

  datatype AuditOutcome = AuditRaised | AuditRan(ctx: Context)

  /** Everything outside the supervisor that one execution meets. */
  datatype Script = Script(
    caseExists: bool, hasDocuments: bool, policy: AgentOutcome, financial: AgentOutcome, risk: Option<AgentOutcome>,
    challenger: AgentOutcome, audit: AuditOutcome, reportRaises: bool)

  datatype Next = GoOn | Stop | Raise

  /** Writes made so far, artifacts collected for the later stages, and how the execution continues. */
  datatype Progress = Progress(acts: seq<Act>, produced: seq<AgentArtifact>, next: Next)

  datatype TaskRun = TaskRun(task: Task, outcome: AgentOutcome)

  predicate Critical(task: Task) {
    task == PolicyTask || task == FinancialTask
  }

  function Producer(task: Task): string {
    match task
    case PolicyTask => "policy_analyst"
    case FinancialTask => "financial_analyst"
    case RiskTask => "risk_analyst"
    case ChallengerTask => "challenger"
  }

  /** The artifact written in place of one an agent failed to return. */
  function FailedArtifact(producer: string): AgentArtifact {
    AgentArtifact(producer, FAILED, [], [], [], false)
  }

  /** Claim ids are primary keys: a repeated id makes the flush raise. */
  predicate KeysFree(produced: seq<AgentArtifact>, artifact: AgentArtifact) {
    NoDuplicates(AllIds(produced + [artifact]))
  }

  function AgentTasks(script: Script): seq<TaskRun> {
    [TaskRun(PolicyTask, script.policy), TaskRun(FinancialTask, script.financial)]
    + (if script.risk.Some? then [TaskRun(RiskTask, script.risk.value)] else [])
  }

  function AfterFailure(task: Task): (seq<Act>, Next) {
    var noted := [Emit(TaskFailed(task))];
    if Critical(task) then (noted + [To(RunFailed)], Stop) else (noted + [Degrade(task), Checkpoint], GoOn)
  }

  function AfterSuccess(task: Task, status: ExecutionStatus): seq<Act> {
    [Emit(TaskCompleted(task))] + (if status == DEGRADED then [Degrade(task), Emit(TaskDegraded(task))] else [])
        + [Checkpoint]
  }

  /** One turn of the agent loop, from the artifacts collected so far. */
  function TaskStep(produced: seq<AgentArtifact>, run: TaskRun): Progress {
    var task := run.task;
    match run.outcome
    case LedgerLost => Progress([], produced, Raise)
    case Raised =>
      var (tail, next) := AfterFailure(task);
      Progress([Persist(FailedArtifact(Producer(task)))] + tail, produced, next)
    case Produced(a) =>
      if !KeysFree(produced, a) then Progress([], produced, Raise)
      else if a.executionStatus == FAILED then
        var (tail, next) := AfterFailure(task);
        Progress([Persist(a)] + tail, produced + [a], next)
      else
        Progress([Persist(a)] + AfterSuccess(task, a.executionStatus), produced + [a], GoOn)
  }

  /** The agent loop over the first n tasks. */
  function AfterTasks(tasks: seq<TaskRun>, n: nat): Progress
    requires n <= |tasks|
  {
    if n == 0 then Progress([], [], GoOn)
    else
      var p := AfterTasks(tasks, n - 1);
      if p.next != GoOn then p
      else
        var q := TaskStep(p.produced, tasks[n - 1]);
        q.(acts := p.acts + q.acts)
  }

  function ChallengeStep(produced: seq<AgentArtifact>, outcome: AgentOutcome): Progress {
    match outcome
    case LedgerLost => Progress([], produced, Raise)
    case Raised =>
      var failed := FailedArtifact(Producer(ChallengerTask));
      Progress([Degrade(ChallengerTask), Emit(TaskFailed(ChallengerTask))] + [Persist(failed)], produced + [failed],
          GoOn)
    case Produced(a) =>
      if KeysFree(produced, a) then Progress([Persist(a)], produced + [a], GoOn) else Progress([], produced, Raise)
  }

  /** Reporting on the automatic path. */
  function ReportActs(reportRaises: bool): seq<Act> {
    if reportRaises then [Emit(ReportFailed), To(RunFailed)] else [WriteReport(VerifiedDraft), To(Completed)]
  }

  function AuditActs(produced: seq<AgentArtifact>, audit: AuditOutcome, reportRaises: bool): seq<Act> {
    match audit
    case AuditRaised => [Persist(FailedArtifact("auditor"))] + ([Emit(AuditFailed)] + [To(RunFailed)])
    case AuditRan(ctx) =>
      var l := Verified(ctx, produced).lists;
      [Emit(AuditCompleted(|l.accepted|, |l.rejected|, |l.review|)), ApplyAudit(l)]
      + (if l.review != [] || l.rejected != [] then [To(HumanReview)] else [To(Reporting)] + ReportActs(reportRaises))
  }

  datatype Plan = Plan(acts: seq<Act>, raises: bool)

  /** After the agent loop: challenge, audit, and review or report. */
  function LateStages(produced: seq<AgentArtifact>, script: Script): Plan {
    var challenge := ChallengeStep(produced, script.challenger);
    var acts := [To(Synthesizing), To(Challenging)] + challenge.acts;
    if challenge.next != GoOn then Plan(acts, true)
    else Plan(acts + ([To(Auditing)] + AuditActs(challenge.produced, script.audit, script.reportRaises)), false)
  }

  /** From PLANNING on. */
  function StagesPlan(script: Script): Plan {
    var tasks := AgentTasks(script);
    var agents := AfterTasks(tasks, |tasks|);
    var acts := [To(Planning), To(Executing)] + agents.acts;
    if agents.next != GoOn then Plan(acts, agents.next == Raise)
    else
      var late := LateStages(agents.produced, script);
      Plan(acts + late.acts, late.raises)
  }

  /** Once the case has been looked up. */
  function BodyPlan(script: Script): Plan {
    if !script.caseExists then Plan([To(DataQualityBlocked)], false)
    else if !script.hasDocuments then Plan([To(NeedMoreInfo)], false)
    else StagesPlan(script)
  }

  /** The writes of one uninterrupted execution; without an exception the session commits at the end. */
  function ReviewPlan(script: Script): Plan {
    var body := BodyPlan(script);
    var acts := [To(Authorized), To(ValidatingCase)] + body.acts;
    if body.raises then Plan(acts, true) else Plan(acts + [Commit], false)
  }

  function NewRun(startVersion: int): Db {
    Db(Received, startVersion, [], map[], [], [], map[], [])
  }

  /** A session opened on committed rows. `freshWriter`: the writer owns the run from its first event. */
  function Open(db: Db, freshWriter: bool, commitEachStage: bool): Session {
    Session(db, db, if freshWriter then Some(1) else None, commitEachStage)
  }

  /** The committed rows after an execution that was cut off after `k` of its writes. */
  function Survives(script: Script, startVersion: int, freshWriter: bool, commitEachStage: bool, k: nat): Db
    requires k <= |ReviewPlan(script).acts|
  {
    Run(Open(NewRun(startVersion), freshWriter, commitEachStage), ReviewPlan(script).acts[..k]).committed
  }

  // ---------------------------------------------------------------- closing a broken run

  /** _mark_run_failed_with_trace, after an exception or a cancellation. */
  function Close(db: Db, cancelled: bool): Db {
    var kind := if cancelled then BackgroundCancelled else BackgroundFailed;
    if db.status in STOPPED then db
    else db.(status := RunFailed, version := db.version + 1,
        events := db.events + [Event(MaxSequence(db.events) + 1, kind)])
  }

  // ---------------------------------------------------------------- human review

  datatype Refusal =
    | InvalidRequest | InvalidState | IdempotencyConflict | VersionConflict | StillBlocked | ReportUnavailable

  datatype Reply = Now(status: Status) | Refused(reason: Refusal)

  function OrEmpty(text: Option<string>): string {
    if text.Some? then text.value else ""
  }

  function Spellings(targets: seq<RawId>): multiset<string> {
    if targets == [] then multiset{} else multiset{targets[0].spelling} + Spellings(targets[1..])
  }

  /** _same_human_decision: sorted spellings are compared, absent reasons count as empty. */
  predicate SameDecision(a: Decision, b: Decision) {
    && a.tenantId == b.tenantId && a.caseId == b.caseId && a.runId == b.runId && a.action == b.action
    && Spellings(a.targets) == Spellings(b.targets)
    && a.targetVersion == b.targetVersion
    && OrEmpty(a.reasonCode) == OrEmpty(b.reasonCode) && OrEmpty(a.reason) == OrEmpty(b.reason)
    && a.reviewerId == b.reviewerId
  }

  predicate IsRuling(action: HumanAction) {
    action == ApproveClaim || action == RejectClaim
  }

  predicate IsSubmission(action: HumanAction) {
    action == SubmitReport || action == ApproveReportDraft
  }

  function TargetIds(targets: seq<RawId>): seq<Id> {
    if targets == [] then []
    else (if targets[0].parsed.Some? then [targets[0].parsed.value] else []) + TargetIds(targets[1..])
  }

  /** Every target parses to an undecided claim of this run. */
  predicate TargetsOpen(claims: map<Id, ReviewStatus>, targets: seq<RawId>) {
    forall t :: t in targets ==> t.parsed.Some? && t.parsed.value in claims && IsBlocking(claims[t.parsed.value])
  }

  /** The checks made before anything is written, in order. */
  function Refuses(db: Db, d: Decision): Option<Reply> {
    if !Truthy(d.idempotencyKey) || d.targetVersion.None? || d.action == UnsupportedAction
    then Some(Refused(InvalidRequest))
    else if d.idempotencyKey.value in db.decisions then
      Some(if SameDecision(db.decisions[d.idempotencyKey.value], d) then Now(db.status)
          else Refused(IdempotencyConflict))
    else if db.status != HumanReview && db.status != Rework then Some(Refused(InvalidState))
    else if d.targetVersion.value != db.version then Some(Refused(VersionConflict))
    else if IsRuling(d.action) && (d.targets == [] || !TargetsOpen(db.claims, d.targets))
    then Some(Refused(InvalidRequest))
    else if IsSubmission(d.action) && Blocking(db.claims) != {} then Some(Refused(StillBlocked))
    else None
  }

  function Judgement(action: HumanAction): ReviewStatus {
    if action == ApproveClaim then HumanApproved else HumanRejected
  }

  function Finish(status: Status): seq<Act> {
    var last := [To(Reporting)] + [WriteReport(ApprovedDraft), To(Completed)];
    if status == Rework then [To(HumanReview)] + last else last
  }

  /** The writes of an admitted decision. */
  function DecisionActs(db: Db, d: Decision): seq<Act>
    requires d.idempotencyKey.Some?
  {
    var record := Record(d.idempotencyKey.value, d);
    if IsRuling(d.action) then
      var ids := TargetIds(d.targets);
      var left := Blocking(MarkAll(db.claims, ids, Judgement(d.action)));
      [record, Judge(ids, Judgement(d.action))]
          + (if left != {} then [Emit(HumanReviewPending(|left|))] else Finish(db.status))
    else if IsSubmission(d.action) then [record] + Finish(db.status)
    else if db.status != Rework then [record, To(Rework)]
    else [record]
  }

  predicate Finishes(db: Db, d: Decision) {
    if IsRuling(d.action) then Blocking(MarkAll(db.claims, TargetIds(d.targets), Judgement(d.action))) == {}
    else IsSubmission(d.action)
  }

  /** resume_after_human_review as one row-locked transaction: refused, rolled back, or committed whole. */
  function Resume(db: Db, d: Decision, reportRaises: bool): (Db, Reply) {
    var refusal := Refuses(db, d);
    if refusal.Some? then (db, refusal.value)
    else if reportRaises && Finishes(db, d) then (db, Refused(ReportUnavailable))
    else
      var after := Run(Open(db, false, false), DecisionActs(db, d) + [Commit]).committed;
      (after, Now(after.status))
  }

  /** What can reach a run once its execution is over. */
  datatype Request = Decide(decision: Decision, reportRaises: bool) | CloseRun(cancelled: bool)

  function Serve(db: Db, r: Request): Db {
    match r
    case Decide(d, raises) => Resume(db, d, raises).0
    case CloseRun(cancelled) => Close(db, cancelled)
  }

  function ServeAll(db: Db, requests: seq<Request>): Db {
    if requests == [] then db else Serve(ServeAll(db, requests[..|requests| - 1]), requests[|requests| - 1])
  }
}
