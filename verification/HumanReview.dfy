/** Human review: what any sequence of decisions and closings does to a run. */
module HumanReview {
  import opened Common
  import opened EventLog
  import opened FullReview
  import opened ReviewInvariants
  import opened ReviewSafety

  // ---------------------------------------------------------------- the invariant is kept

  lemma {:induction false} CloseKeepsGood(db: Db, cancelled: bool, startVersion: int)
    requires Good(db, startVersion)
    ensures Good(Close(db, cancelled), startVersion)
  {
    if db.status !in STOPPED {
      NumberedMax(db.events);
      AppendEvent(db.events, Event(|db.events| + 1, if cancelled then BackgroundCancelled else BackgroundFailed));
    }
  }

  /** Closing fails a run that is still on its way, and leaves alone one that has ended or waits for a human or for
      data. */
  lemma {:induction false} ClosingExactly(db: Db, cancelled: bool, startVersion: int)
    requires Good(db, startVersion)
    ensures Close(db, cancelled) ==
      if db.status in {Completed, RunFailed, Denied, HumanReview, Rework, NeedMoreInfo, DataQualityBlocked} then db
      else db.(status := RunFailed, version := db.version + 1,
               events := db.events
                   + [Event(|db.events| + 1, if cancelled then BackgroundCancelled else BackgroundFailed)])
  {
    NumberedMax(db.events);
  }

  /** A session that has recorded an admitted decision. */
  predicate Deciding(s: Session, db: Db, d: Decision, startVersion: int) {
    && Safe(s, startVersion) && !s.commitEachStage && s.work.reports == [] && s.work.status == db.status
    && s.work.claims == db.claims && s.work.artifacts == db.artifacts
    && d.idempotencyKey.Some? && s.work.decisions == db.decisions[d.idempotencyKey.value := d]
  }

  lemma {:induction false} RecordingIsSafe(db: Db, d: Decision, startVersion: int)
    requires Good(db, startVersion) && Refuses(db, d).None?
    ensures d.idempotencyKey.Some?
    ensures var s, acts := Open(db, false, false), [Record(d.idempotencyKey.value, d)];
            SafeRun(s, acts, startVersion) && Deciding(Run(s, acts), db, d, startVersion)
  {
    One(Open(db, false, false), Record(d.idempotencyKey.value, d), startVersion);
  }

  /** From REWORK or HUMAN_REVIEW, with nothing undecided, to a report and COMPLETED. */
  lemma {:induction false} FinishIsSafe(s: Session, status: Status, startVersion: int)
    requires Safe(s, startVersion) && !s.commitEachStage && Ruled(s.work, status, {}) && s.work.decisions != map[]
    requires status == HumanReview || status == Rework
    ensures SafeRun(s, Finish(status), startVersion) && Safe(Run(s, Finish(status)), startVersion)
    ensures KeepsVerdicts(s.work, Run(s, Finish(status)).work) && Settled(Run(s, Finish(status)).work)
  {
    var tail := [To(Reporting)] + [WriteReport(ApprovedDraft), To(Completed)];
    if status == Rework {
      One(s, To(HumanReview), startVersion);
      LastStepsAreSafe(Run(s, [To(HumanReview)]), startVersion);
      Chain(s, [To(HumanReview)], tail, startVersion);
    } else {
      LastStepsAreSafe(s, startVersion);
    }
  }

  lemma {:induction false} LastStepsAreSafe(s: Session, startVersion: int)
    requires Safe(s, startVersion) && !s.commitEachStage && Ruled(s.work, HumanReview, {}) && s.work.decisions != map[]
    ensures var acts := [To(Reporting)] + [WriteReport(ApprovedDraft), To(Completed)];
            && SafeRun(s, acts, startVersion) && Safe(Run(s, acts), startVersion)
            && KeepsVerdicts(s.work, Run(s, acts).work) && Settled(Run(s, acts).work)
  {
    One(s, To(Reporting), startVersion);
    CompletingIsSafe(Run(s, [To(Reporting)]), ApprovedDraft, {}, startVersion);
    Chain(s, [To(Reporting)], [WriteReport(ApprovedDraft), To(Completed)], startVersion);
  }

  /** SUBMIT_REPORT and APPROVE_REPORT_DRAFT never pass their gate: while a run awaits decisions,
      something is undecided. */
  lemma {:induction false} SubmissionsNeverPass(db: Db, d: Decision, startVersion: int)
    requires Good(db, startVersion)
    ensures IsSubmission(d.action) ==> Refuses(db, d).Some?
  {
  }

  function Ids(d: Decision): seq<Id> {
    TargetIds(d.targets)
  }

  function Judged(db: Db, d: Decision): map<Id, ReviewStatus> {
    if IsRuling(d.action) then MarkAll(db.claims, Ids(d), Judgement(d.action)) else db.claims
  }

  /** What an admitted decision must come to. */
  predicate Effect(db: Db, d: Decision, after: Db) {
    && d.idempotencyKey.Some?
    && after.decisions == db.decisions[d.idempotencyKey.value := d]
    && after.claims == Judged(db, d)
    && after.artifacts == db.artifacts
    && after.status == if !IsRuling(d.action) then Rework else if Blocking(Judged(db, d)) == {} then Completed
        else db.status
  }

  /** A stretch of writes after which the session may commit. */
  predicate Ready(db: Db, d: Decision, acts: seq<Act>, startVersion: int) {
    var s := Open(db, false, false);
    SafeRun(s, acts, startVersion) && Safe(Run(s, acts), startVersion) && Settled(Run(s, acts).work)
        && Effect(db, d, Run(s, acts).work)
  }

  predicate Admitted(db: Db, d: Decision, startVersion: int) {
    Good(db, startVersion) && Refuses(db, d).None?
  }

  /** After the record, a ruling is applied. */
  lemma {:induction false} RulingIsSafe(db: Db, d: Decision, startVersion: int)
    requires Admitted(db, d, startVersion) && IsRuling(d.action)
    ensures var s, acts := Open(db, false, false),
            [Record(d.idempotencyKey.value, d), Judge(Ids(d), Judgement(d.action))];
            && SafeRun(s, acts, startVersion) && Safe(Run(s, acts), startVersion)
            && Run(s, acts).work.status == db.status && Run(s, acts).work.reports == [] && !Run(s, acts).commitEachStage
            && Run(s, acts).work.claims == Judged(db, d) && Run(s, acts).work.artifacts == db.artifacts
            && Run(s, acts).work.decisions == db.decisions[d.idempotencyKey.value := d]
  {
    var s, first, second := Open(db, false, false), Record(d.idempotencyKey.value, d),
        Judge(Ids(d), Judgement(d.action));
    RecordingIsSafe(db, d, startVersion);
    Then(s, [first], second, startVersion);
    assert [first] + [second] == [first, second];
  }

  lemma {:induction false} StillPending(s: Session, first: seq<Act>, note: Act, startVersion: int)
    requires SafeRun(s, first, startVersion) && Safe(Run(s, first), startVersion) && note.Emit?
             && !BumpsVersion(note.kind)
    ensures SafeRun(s, first + [note], startVersion) && Safe(Run(s, first + [note]), startVersion)
    ensures var before, after := Run(s, first).work, Run(s, first + [note]).work;
            && after.status == before.status && after.claims == before.claims && after.artifacts == before.artifacts
            && after.reports == before.reports && after.decisions == before.decisions
  {
    Then(s, first, note, startVersion);
  }

  lemma {:induction false} PendingReviewIsReady(db: Db, d: Decision, startVersion: int)
    requires Admitted(db, d, startVersion) && IsRuling(d.action) && Blocking(Judged(db, d)) != {}
    ensures Ready(db, d, DecisionActs(db, d), startVersion)
  {
    var s, first := Open(db, false, false), [Record(d.idempotencyKey.value, d), Judge(Ids(d), Judgement(d.action))];
    var note := Emit(HumanReviewPending(|Blocking(Judged(db, d))|));
    RulingIsSafe(db, d, startVersion);
    StillPending(s, first, note, startVersion);
    assert DecisionActs(db, d) == first + [note];
    PendingRows(db, d, Run(s, first + [note]).work);
  }

  lemma {:induction false} PendingRows(db: Db, d: Decision, after: Db)
    requires Refuses(db, d).None? && IsRuling(d.action) && Blocking(Judged(db, d)) != {}
    requires after.status == db.status && after.reports == [] && after.claims == Judged(db, d)
             && after.artifacts == db.artifacts
    requires after.decisions == db.decisions[d.idempotencyKey.value := d]
    ensures Settled(after) && Effect(db, d, after)
  {
  }

  lemma {:induction false} LastRulingIsReady(db: Db, d: Decision, startVersion: int)
    requires Admitted(db, d, startVersion) && IsRuling(d.action) && Blocking(Judged(db, d)) == {}
    ensures Ready(db, d, DecisionActs(db, d), startVersion)
  {
    var s, first := Open(db, false, false), [Record(d.idempotencyKey.value, d), Judge(Ids(d), Judgement(d.action))];
    RulingIsSafe(db, d, startVersion);
    FinishIsSafe(Run(s, first), db.status, startVersion);
    Chain(s, first, Finish(db.status), startVersion);
  }

  lemma {:induction false} MoveToRework(s: Session, record: Act, t: Session, startVersion: int)
    requires SafeRun(s, [record], startVersion) && Run(s, [record]) == t && Safe(t, startVersion)
    requires t.work.status == HumanReview && !t.commitEachStage && t.work.reports == [] && Blocking(t.work.claims) != {}
    ensures SafeRun(s, [record, To(Rework)], startVersion) && Safe(Run(s, [record, To(Rework)]), startVersion)
    ensures Run(s, [record, To(Rework)]) == Apply(t, To(Rework)) && Settled(Apply(t, To(Rework)).work)
  {
    Then(s, [record], To(Rework), startVersion);
    assert [record] + [To(Rework)] == [record, To(Rework)];
  }

  lemma {:induction false} FirstRequestIsReady(db: Db, d: Decision, startVersion: int)
    requires Admitted(db, d, startVersion) && !IsRuling(d.action) && db.status == HumanReview
    ensures Ready(db, d, [Record(d.idempotencyKey.value, d), To(Rework)], startVersion)
  {
    var s, record := Open(db, false, false), Record(d.idempotencyKey.value, d);
    RecordingIsSafe(db, d, startVersion);
    MoveToRework(s, record, Run(s, [record]), startVersion);
  }

  lemma {:induction false} RepeatedRequestIsReady(db: Db, d: Decision, startVersion: int)
    requires Admitted(db, d, startVersion) && !IsRuling(d.action) && db.status == Rework
    ensures Ready(db, d, [Record(d.idempotencyKey.value, d)], startVersion)
  {
    RecordingIsSafe(db, d, startVersion);
  }

  lemma {:induction false} ReworkIsReady(db: Db, d: Decision, startVersion: int)
    requires Admitted(db, d, startVersion) && !IsRuling(d.action)
    ensures Ready(db, d, DecisionActs(db, d), startVersion)
  {
    SubmissionsNeverPass(db, d, startVersion);
    if db.status == Rework {
      RepeatedRequestIsReady(db, d, startVersion);
    } else {
      FirstRequestIsReady(db, d, startVersion);
    }
  }

  /** An admitted decision that is not rolled back has its effect, all of it, and keeps the invariant. */
  lemma {:induction false} AdmittedTakesEffect(db: Db, d: Decision, reportRaises: bool, startVersion: int)
    requires Admitted(db, d, startVersion) && !(reportRaises && Finishes(db, d))
    ensures Good(Resume(db, d, reportRaises).0, startVersion) && Effect(db, d, Resume(db, d, reportRaises).0)
    ensures Resume(db, d, reportRaises).1 == Now(Resume(db, d, reportRaises).0.status)
  {
    if IsRuling(d.action) {
      if Blocking(Judged(db, d)) != {} {
        PendingReviewIsReady(db, d, startVersion);
      } else {
        LastRulingIsReady(db, d, startVersion);
      }
    } else {
      ReworkIsReady(db, d, startVersion);
    }
    Then(Open(db, false, false), DecisionActs(db, d), Commit, startVersion);
  }

  lemma {:induction false} ServeKeepsGood(db: Db, r: Request, startVersion: int)
    requires Good(db, startVersion)
    ensures Good(Serve(db, r), startVersion)
  {
    match r
    case CloseRun(cancelled) => CloseKeepsGood(db, cancelled, startVersion);
    case Decide(d, raises) =>
      if Refuses(db, d).None? && !(raises && Finishes(db, d)) { AdmittedTakesEffect(db, d, raises, startVersion); }
  }

  lemma {:induction false} RequestsKeepGood(db: Db, requests: seq<Request>, startVersion: int)
    requires Good(db, startVersion)
    ensures Good(ServeAll(db, requests), startVersion)
  {
    if requests != [] {
      RequestsKeepGood(db, requests[..|requests| - 1], startVersion);
      ServeKeepsGood(ServeAll(db, requests[..|requests| - 1]), requests[|requests| - 1], startVersion);
    }
  }

  /** The rows after an execution cut off anywhere and any sequence of later requests. */
  function Reached(
      script: Script, startVersion: int, freshWriter: bool, commitEachStage: bool, k: nat, requests: seq<Request>): Db
    requires k <= |ReviewPlan(script).acts|
  {
    ServeAll(Survives(script, startVersion, freshWriter, commitEachStage, k), requests)
  }

  /** In every reachable state the log is gap-free and explains status and version, each decision has its own
      version, there is one report exactly when the run is completed and it fits the claims, and a run under
      review has something to review. */
  lemma {:induction false} ReachableIsGood(
      script: Script, startVersion: int, freshWriter: bool, commitEachStage: bool, k: nat, requests: seq<Request>)
    requires k <= |ReviewPlan(script).acts|
    ensures Good(Reached(script, startVersion, freshWriter, commitEachStage, k, requests), startVersion)
  {
    EveryCrashIsGood(script, startVersion, freshWriter, commitEachStage, k);
    RequestsKeepGood(Survives(script, startVersion, freshWriter, commitEachStage, k), requests, startVersion);
  }
}
