/** The supervisor and the human-review service at work on the rows of one run
    (src/creditlens/agents/supervisor.py, apps/api/main.py): every method is proved to make the writes
    its plan lists, in order. */
module Supervisor {
  import opened Common
  import opened EventLog
  import opened Contracts
  import opened FullReview

  /** One run inside a database session. */
  class ReviewRun {
    var status: Status
    var version: int
    var events: seq<Event>
    var claims: map<Id, ReviewStatus>
    var artifacts: seq<AgentArtifact>
    var reports: seq<Report>
    var decisions: map<string, Decision>
    var degraded: seq<Task>
    /** What other sessions see, and what a rollback returns to. */
    var committed: Db
    var nextSeq: Option<nat>
    var commitEachStage: bool

    function Rows(): Db
      reads this
    {
      Db(status, version, events, claims, artifacts, reports, decisions, degraded)
    }

    function Value(): Session
      reads this
    {
      Session(Rows(), committed, nextSeq, commitEachStage)
    }

    constructor (startVersion: int, freshWriter: bool, eachStage: bool)
      ensures Value() == Open(NewRun(startVersion), freshWriter, eachStage)
    {
      status, version, events, claims := Received, startVersion, [], map[];
      artifacts, reports, decisions, degraded := [], [], map[], [];
      committed := NewRun(startVersion);
      nextSeq, commitEachStage := if freshWriter then Some(1) else None, eachStage;
    }

    method EmitEvent(kind: EventKind)
      modifies this`events, this`nextSeq
      ensures Value() == Apply(old(Value()), Emit(kind))
    {
      var n := if nextSeq.Some? then nextSeq.value else MaxSequence(events) + 1;
      events := events + [Event(n, kind)];
      nextSeq := Some(n + 1);
    }

    method CommitNow()
      modifies this`committed
      ensures Value() == Apply(old(Value()), Commit)
    {
      committed := Rows();
    }

    method CheckpointIfConfigured()
      modifies this`committed
      ensures Value() == Apply(old(Value()), Checkpoint)
    {
      if commitEachStage { CommitNow(); }
    }

    /** _transition: a move outside the table is refused unless it is forced. */
    method Transition(next: Status, force: bool) returns (ok: bool)
      modifies this`status, this`version, this`events, this`nextSeq, this`committed
      ensures ok == (force || next in Allowed(old(status)))
      ensures Value() == if ok then Apply(old(Value()), To(next)) else old(Value())
    {
      ok := force || next in Allowed(status);
      if ok {
        var before := status;
        status := next;
        version := version + 1;
        EmitEvent(StateChanged(before, next));
        CheckpointIfConfigured();
      }
    }

    method PersistArtifact(a: AgentArtifact)
      modifies this`artifacts, this`claims
      ensures Value() == Apply(old(Value()), Persist(a))
    {
      artifacts := artifacts + [a];
      ghost var ids := ClaimAudit.ClaimIds(a.claims);
      for i := 0 to |a.claims|
        invariant claims == WithRows(old(claims), ids[..i])
        modifies this`claims
      {
        OneRowMore(old(claims), ids, i);
        claims := claims[a.claims[i].claimId := Pending];
      }
      assert ids[..|a.claims|] == ids;
    }

    method Mark(ids: seq<Id>, judgement: ReviewStatus)
      modifies this`claims
      ensures Value() == Apply(old(Value()), Judge(ids, judgement))
    {
      for i := 0 to |ids|
        invariant claims == MarkAll(old(claims), ids[..i], judgement)
      {
        assert ids[..i + 1] == ids[..i] + [ids[i]];
        if ids[i] in claims { claims := claims[ids[i] := judgement]; }
      }
      assert ids[..|ids|] == ids;
    }

    method ApplyAuditToClaims(l: ClaimAudit.Lists)
      modifies this`claims
      ensures Value() == Apply(old(Value()), ApplyAudit(l))
    {
      Mark(l.accepted, Audited);
      Mark(l.rejected, NeedsRework);
      Mark(l.review, Pending);
    }

    method MarkDegraded(task: Task)
      modifies this`degraded
      ensures Value() == Apply(old(Value()), Degrade(task))
    {
      degraded := degraded + [task];
    }

    method PersistReport(reportStatus: ReportStatus)
      modifies this`reports
      ensures Value() == Apply(old(Value()), WriteReport(reportStatus))
    {
      var shown := Reportable(claims);
      reports := reports + [Report(NextVersion(reports), reportStatus, shown, |claims| - |shown|)];
    }

    // -------------------------------------------------------------- the execution

    method HandleFailure(task: Task) returns (next: Next)
      requires status == Executing
      modifies this
      ensures Value() == Run(old(Value()), AfterFailure(task).0) && next == AfterFailure(task).1
      ensures next == GoOn ==> status == Executing
    {
      ghost var s, noted := Value(), [Emit(TaskFailed(task))];
      EmitEvent(TaskFailed(task));
      RunOne(s, Emit(TaskFailed(task)));
      if Critical(task) {
        var _ := Transition(RunFailed, true);
        RunMore(s, noted, To(RunFailed));
        next := Stop;
      } else {
        MarkDegraded(task);
        CheckpointIfConfigured();
        RunTwoMore(s, noted, Degrade(task), Checkpoint);
        next := GoOn;
      }
    }

    method NoteSuccess(task: Task, outcome: ExecutionStatus)
      requires status == Executing
      modifies this
      ensures Value() == Run(old(Value()), AfterSuccess(task, outcome)) && status == Executing
    {
      ghost var s, noted := Value(), [Emit(TaskCompleted(task))];
      EmitEvent(TaskCompleted(task));
      RunOne(s, Emit(TaskCompleted(task)));
      if outcome == DEGRADED {
        MarkDegraded(task);
        EmitEvent(TaskDegraded(task));
        RunTwoMore(s, noted, Degrade(task), Emit(TaskDegraded(task)));
        noted := noted + [Degrade(task), Emit(TaskDegraded(task))];
      }
      CheckpointIfConfigured();
      RunMore(s, noted, Checkpoint);
      assert AfterSuccess(task, outcome) == noted + [Checkpoint];
    }

    method RunTask(produced: seq<AgentArtifact>, run: TaskRun) returns (after: seq<AgentArtifact>, next: Next)
      requires status == Executing
      modifies this
      ensures var p := TaskStep(produced, run);
              Value() == Run(old(Value()), p.acts) && after == p.produced && next == p.next
      ensures next == GoOn ==> status == Executing
    {
      ghost var s := Value();
      after := produced;
      match run.outcome
      case LedgerLost => next := Raise;
      case Raised =>
        var failed := FailedArtifact(Producer(run.task));
        PersistArtifact(failed);
        RunOne(s, Persist(failed));
        next := HandleFailure(run.task);
        RunAppend(s, [Persist(failed)], AfterFailure(run.task).0);
      case Produced(a) =>
        if !KeysFree(produced, a) {
          next := Raise;
        } else {
          after := produced + [a];
          PersistArtifact(a);
          RunOne(s, Persist(a));
          if a.executionStatus == FAILED {
            next := HandleFailure(run.task);
            RunAppend(s, [Persist(a)], AfterFailure(run.task).0);
          } else {
            NoteSuccess(run.task, a.executionStatus);
            RunAppend(s, [Persist(a)], AfterSuccess(run.task, a.executionStatus));
            next := GoOn;
          }
        }
    }

    /** The agent loop. */
    method RunAgents(tasks: seq<TaskRun>) returns (produced: seq<AgentArtifact>, next: Next)
      requires status == Executing
      modifies this
      ensures var p := AfterTasks(tasks, |tasks|);
              Value() == Run(old(Value()), p.acts) && produced == p.produced && next == p.next
      ensures next == GoOn ==> status == Executing
    {
      ghost var s := Value();
      produced, next := [], GoOn;
      var i := 0;
      while i < |tasks| && next == GoOn
        invariant i <= |tasks|
        invariant var p := AfterTasks(tasks, i); Value() == Run(s, p.acts) && produced == p.produced && next == p.next
        invariant next == GoOn ==> status == Executing
      {
        produced, next := RunTask(produced, tasks[i]);
        OneTurn(s, tasks, i);
        i := i + 1;
      }
      Stuck(tasks, i);
    }

    method Challenge(produced: seq<AgentArtifact>, outcome: AgentOutcome)
      returns (after: seq<AgentArtifact>, next: Next)
      requires status == Challenging
      modifies this
      ensures var p := ChallengeStep(produced, outcome);
              Value() == Run(old(Value()), p.acts) && after == p.produced && next == p.next
      ensures status == Challenging
    {
      ghost var s := Value();
      after, next := produced, GoOn;
      match outcome
      case LedgerLost => next := Raise;
      case Raised =>
        var failed := FailedArtifact(Producer(ChallengerTask));
        MarkDegraded(ChallengerTask);
        EmitEvent(TaskFailed(ChallengerTask));
        PersistArtifact(failed);
        after := produced + [failed];
        RunTwo(s, Degrade(ChallengerTask), Emit(TaskFailed(ChallengerTask)));
        RunMore(s, [Degrade(ChallengerTask), Emit(TaskFailed(ChallengerTask))], Persist(failed));
      case Produced(a) =>
        if KeysFree(produced, a) {
          PersistArtifact(a);
          after := produced + [a];
          RunOne(s, Persist(a));
        } else {
          next := Raise;
        }
    }

    method MakeReport(reportRaises: bool)
      requires status == Reporting
      modifies this
      ensures Value() == Run(old(Value()), ReportActs(reportRaises))
    {
      ghost var s := Value();
      if reportRaises {
        EmitEvent(ReportFailed);
        var _ := Transition(RunFailed, true);
        RunTwo(s, Emit(ReportFailed), To(RunFailed));
      } else {
        PersistReport(VerifiedDraft);
        var ok := Transition(Completed, false);
        assert ok;
        RunTwo(s, WriteReport(VerifiedDraft), To(Completed));
      }
    }

    method FailAudit()
      requires status == Auditing
      modifies this
      ensures Value() == Run(old(Value()), AuditActs([], AuditRaised, false))
    {
      var failed := FailedArtifact("auditor");
      ghost var s := Value();
      PersistArtifact(failed);
      EmitEvent(AuditFailed);
      var _ := Transition(RunFailed, true);
      RunThree(s, Persist(failed), Emit(AuditFailed), To(RunFailed));
      assert [Persist(failed)] + ([Emit(AuditFailed)] + [To(RunFailed)])
             == [Persist(failed), Emit(AuditFailed), To(RunFailed)];
    }

    method NoteVerdicts(l: ClaimAudit.Lists)
      modifies this
      ensures Value()
              == Run(old(Value()), [Emit(AuditCompleted(|l.accepted|, |l.rejected|, |l.review|)), ApplyAudit(l)])
      ensures status == old(status)
    {
      ghost var s := Value();
      var kind := AuditCompleted(|l.accepted|, |l.rejected|, |l.review|);
      EmitEvent(kind);
      ApplyAuditToClaims(l);
      RunTwo(s, Emit(kind), ApplyAudit(l));
    }

    method AfterVerdicts(l: ClaimAudit.Lists, reportRaises: bool)
      requires status == Auditing
      modifies this
      ensures Value() == Run(old(Value()), if l.review != [] || l.rejected != [] then [To(HumanReview)]
                                           else [To(Reporting)] + ReportActs(reportRaises))
    {
      ghost var s := Value();
      if l.review != [] || l.rejected != [] {
        var ok := Transition(HumanReview, false);
        assert ok;
        RunOne(s, To(HumanReview));
      } else {
        var ok := Transition(Reporting, false);
        assert ok;
        RunOne(s, To(Reporting));
        MakeReport(reportRaises);
        RunAppend(s, [To(Reporting)], ReportActs(reportRaises));
      }
    }

    method Audit(produced: seq<AgentArtifact>, audit: AuditOutcome, reportRaises: bool)
      requires status == Auditing
      modifies this
      ensures Value() == Run(old(Value()), AuditActs(produced, audit, reportRaises))
    {
      ghost var s := Value();
      match audit
      case AuditRaised => FailAudit();
      case AuditRan(ctx) =>
        var result := ClaimAudit.Verify(ctx, produced);
        var l := result.Claims();
        NoteVerdicts(l);
        AfterVerdicts(l, reportRaises);
        RunAppend(s, [Emit(AuditCompleted(|l.accepted|, |l.rejected|, |l.review|)), ApplyAudit(l)],
                  if l.review != [] || l.rejected != [] then [To(HumanReview)]
                  else [To(Reporting)] + ReportActs(reportRaises));
    }

    /** Two moves the table allows. */
    method MoveTwice(middle: Status, next: Status)
      requires middle in Allowed(status) && next in Allowed(middle)
      modifies this
      ensures Value() == Run(old(Value()), [To(middle), To(next)]) && status == next
    {
      ghost var s := Value();
      var first := Transition(middle, false);
      assert first;
      var second := Transition(next, false);
      assert second;
      RunTwo(s, To(middle), To(next));
    }

    method AuditStage(produced: seq<AgentArtifact>, script: Script)
      requires status == Challenging
      modifies this
      ensures Value() == Run(old(Value()), [To(Auditing)] + AuditActs(produced, script.audit, script.reportRaises))
    {
      ghost var s := Value();
      var ok := Transition(Auditing, false);
      assert ok;
      RunOne(s, To(Auditing));
      Audit(produced, script.audit, script.reportRaises);
      RunAppend(s, [To(Auditing)], AuditActs(produced, script.audit, script.reportRaises));
    }

    method RunLateStages(produced: seq<AgentArtifact>, script: Script) returns (raised: bool)
      requires status == Executing
      modifies this
      ensures Value() == Run(old(Value()), LateStages(produced, script).acts)
              && raised == LateStages(produced, script).raises
    {
      ghost var s, moves := Value(), [To(Synthesizing), To(Challenging)];
      ghost var c := ChallengeStep(produced, script.challenger);
      MoveTwice(Synthesizing, Challenging);
      var seen, next := Challenge(produced, script.challenger);
      RunAppend(s, moves, c.acts);
      raised := next != GoOn;
      if !raised {
        AuditStage(seen, script);
        RunAppend(s, moves + c.acts, [To(Auditing)] + AuditActs(c.produced, script.audit, script.reportRaises));
      }
    }

    method RunStages(script: Script) returns (raised: bool)
      requires status == ValidatingCase
      modifies this
      ensures Value() == Run(old(Value()), StagesPlan(script).acts) && raised == StagesPlan(script).raises
    {
      ghost var s, moves := Value(), [To(Planning), To(Executing)];
      var tasks := AgentTasks(script);
      ghost var agents := AfterTasks(tasks, |tasks|);
      MoveTwice(Planning, Executing);
      var produced, next := RunAgents(tasks);
      RunAppend(s, moves, agents.acts);
      raised := next == Raise;
      if next == GoOn {
        raised := RunLateStages(produced, script);
        RunAppend(s, moves + agents.acts, LateStages(produced, script).acts);
      }
    }

    method RunBody(script: Script) returns (raised: bool)
      requires status == ValidatingCase
      modifies this
      ensures Value() == Run(old(Value()), BodyPlan(script).acts) && raised == BodyPlan(script).raises
    {
      ghost var s := Value();
      if !script.caseExists || !script.hasDocuments {
        var stop := if script.caseExists then NeedMoreInfo else DataQualityBlocked;
        var _ := Transition(stop, true);
        RunOne(s, To(stop));
        raised := false;
      } else {
        raised := RunStages(script);
      }
    }

    /** execute_full_review: a run that is not new is refused, otherwise the whole plan is written. */
    method ExecuteFullReview(script: Script) returns (started: bool, raised: bool)
      modifies this
      ensures started == (old(status) == Received)
      ensures started ==> Value() == Run(old(Value()), ReviewPlan(script).acts) && raised == ReviewPlan(script).raises
      ensures !started ==> Value() == old(Value())
    {
      ghost var s, moves := Value(), [To(Authorized), To(ValidatingCase)];
      started, raised := status == Received, false;
      if started {
        MoveTwice(Authorized, ValidatingCase);
        raised := RunBody(script);
        RunAppend(s, moves, BodyPlan(script).acts);
        if !raised {
          CommitNow();
          RunMore(s, moves + BodyPlan(script).acts, Commit);
        }
      }
    }

    // -------------------------------------------------------------- a broken run

    /** _mark_run_failed_with_trace, in its own transaction on committed rows. */
    method MarkFailed(cancelled: bool) returns (closed: bool)
      requires Value() == Open(Rows(), false, false)
      modifies this
      ensures Value() == Open(Close(old(committed), cancelled), false, false)
      ensures closed == (old(status) !in STOPPED)
    {
      closed := status !in STOPPED;
      if closed {
        status := RunFailed;
        version := version + 1;
        events := events
            + [Event(MaxSequence(events) + 1, if cancelled then BackgroundCancelled else BackgroundFailed)];
        CommitNow();
      }
    }

    method Rollback()
      modifies this
      ensures Value() == Open(old(committed), false, old(commitEachStage))
    {
      status, version, events, claims := committed.status, committed.version, committed.events, committed.claims;
      artifacts, reports, decisions, degraded := committed.artifacts, committed.reports, committed.decisions,
          committed.degraded;
      nextSeq := None;
    }

    // -------------------------------------------------------------- human review

    method TargetsAreOpen(targets: seq<RawId>) returns (open: bool)
      ensures open == TargetsOpen(claims, targets)
    {
      for i := 0 to |targets|
        invariant TargetsOpen(claims, targets[..i])
      {
        var t := targets[i];
        if t.parsed.None? || t.parsed.value !in claims || !IsBlocking(claims[t.parsed.value]) {
          assert t in targets;
          return false;
        }
        assert targets[..i + 1] == targets[..i] + [t];
      }
      assert targets[..|targets|] == targets;
      return true;
    }

    method Check(d: Decision) returns (refusal: Option<Reply>)
      ensures refusal == Refuses(Rows(), d)
    {
      if !Truthy(d.idempotencyKey) || d.targetVersion.None? || d.action == UnsupportedAction {
        return Some(Refused(InvalidRequest));
      }
      var key := d.idempotencyKey.value;
      if key in decisions {
        return Some(if SameDecision(decisions[key], d) then Now(status) else Refused(IdempotencyConflict));
      }
      if status != HumanReview && status != Rework { return Some(Refused(InvalidState)); }
      if d.targetVersion.value != version { return Some(Refused(VersionConflict)); }
      if IsRuling(d.action) {
        if d.targets == [] { return Some(Refused(InvalidRequest)); }
        var open := TargetsAreOpen(d.targets);
        if !open { return Some(Refused(InvalidRequest)); }
      } else if IsSubmission(d.action) && Blocking(claims) != {} {
        return Some(Refused(StillBlocked));
      }
      return None;
    }

    method RecordDecision(key: string, d: Decision)
      modifies this
      ensures Value() == Apply(old(Value()), Record(key, d))
    {
      decisions := decisions[key := d];
      version := version + 1;
      EmitEvent(HumanDecided(d.action));
    }

    /** The report and completion; a report that raises leaves everything to the rollback. */
    method ReportAndComplete(reportRaises: bool) returns (ok: bool)
      requires status == HumanReview && !commitEachStage
      modifies this
      ensures ok == !reportRaises && committed == old(committed) && commitEachStage == old(commitEachStage)
      ensures ok ==> Value() == Run(old(Value()), Finish(HumanReview))
    {
      ghost var s := Value();
      var moved := Transition(Reporting, false);
      assert moved;
      ok := !reportRaises;
      if ok {
        PersistReport(ApprovedDraft);
        var done := Transition(Completed, false);
        assert done;
        RunThree(s, To(Reporting), WriteReport(ApprovedDraft), To(Completed));
        assert Finish(HumanReview) == [To(Reporting), WriteReport(ApprovedDraft), To(Completed)];
      }
    }

    method FinishReview(reportRaises: bool) returns (ok: bool)
      requires (status == HumanReview || status == Rework) && !commitEachStage
      modifies this
      ensures ok == !reportRaises && committed == old(committed) && commitEachStage == old(commitEachStage)
      ensures ok ==> Value() == Run(old(Value()), Finish(old(status)))
    {
      ghost var s, before := Value(), status;
      if status == Rework {
        var back := Transition(HumanReview, false);
        assert back;
        RunOne(s, To(HumanReview));
      }
      ok := ReportAndComplete(reportRaises);
      if before == Rework { RunAppend(s, [To(HumanReview)], Finish(HumanReview)); }
    }

    method ApplyRuling(d: Decision, reportRaises: bool) returns (ok: bool)
      requires (status == HumanReview || status == Rework) && !commitEachStage && d.idempotencyKey.Some?
               && IsRuling(d.action)
      modifies this
      ensures ok == !(reportRaises && Finishes(old(Rows()), d))
      ensures committed == old(committed) && commitEachStage == old(commitEachStage)
      ensures ok ==> Value() == Run(old(Value()), DecisionActs(old(Rows()), d))
    {
      ghost var s := Value();
      var key, ids, judgement := d.idempotencyKey.value, TargetIds(d.targets), Judgement(d.action);
      ghost var first := [Record(key, d), Judge(ids, judgement)];
      RecordDecision(key, d);
      Mark(ids, judgement);
      RunTwo(s, Record(key, d), Judge(ids, judgement));
      var left := Blocking(claims);
      if left != {} {
        EmitEvent(HumanReviewPending(|left|));
        RunMore(s, first, Emit(HumanReviewPending(|left|)));
        ok := true;
      } else {
        ok := FinishReview(reportRaises);
        RunAppend(s, first, Finish(s.work.status));
      }
    }

    method ApplyOther(d: Decision, reportRaises: bool) returns (ok: bool)
      requires (status == HumanReview || status == Rework) && !commitEachStage && d.idempotencyKey.Some?
               && !IsRuling(d.action)
      modifies this
      ensures ok == !(reportRaises && Finishes(old(Rows()), d))
      ensures committed == old(committed) && commitEachStage == old(commitEachStage)
      ensures ok ==> Value() == Run(old(Value()), DecisionActs(old(Rows()), d))
    {
      ghost var s := Value();
      var record := Record(d.idempotencyKey.value, d);
      RecordDecision(d.idempotencyKey.value, d);
      RunOne(s, record);
      ok := true;
      if IsSubmission(d.action) {
        ok := FinishReview(reportRaises);
        RunAppend(s, [record], Finish(s.work.status));
      } else if status != Rework {
        ok := Transition(Rework, false);
        RunTwo(s, record, To(Rework));
      }
    }

    method ApplyDecision(d: Decision, reportRaises: bool) returns (ok: bool)
      requires (status == HumanReview || status == Rework) && !commitEachStage && d.idempotencyKey.Some?
      modifies this
      ensures ok == !(reportRaises && Finishes(old(Rows()), d))
      ensures committed == old(committed) && commitEachStage == old(commitEachStage)
      ensures ok ==> Value() == Run(old(Value()), DecisionActs(old(Rows()), d))
    {
      if IsRuling(d.action) {
        ok := ApplyRuling(d, reportRaises);
      } else {
        ok := ApplyOther(d, reportRaises);
      }
    }

    /** resume_after_human_review, with the commit or rollback its caller makes. */
    method ResumeAfterHumanReview(d: Decision, reportRaises: bool) returns (reply: Reply)
      requires Value() == Open(Rows(), false, false)
      modifies this
      ensures (committed, reply) == Resume(old(committed), d, reportRaises)
      ensures Value() == Open(committed, false, false)
    {
      ghost var s := Value();
      var refusal := Check(d);
      if refusal.Some? { return refusal.value; }
      var ok := ApplyDecision(d, reportRaises);
      if ok {
        CommitNow();
        RunMore(s, DecisionActs(s.work, d), Commit);
        reply := Now(status);
      } else {
        reply := Refused(ReportUnavailable);
      }
      Rollback();
    }
  }

  lemma {:induction false} OneRowMore(claims: map<Id, ReviewStatus>, ids: seq<Id>, i: nat)
    requires i < |ids|
    ensures WithRows(claims, ids[..i + 1]) == WithRows(claims, ids[..i])[ids[i] := Pending]
  {
    assert ids[..i + 1] == ids[..i] + [ids[i]];
  }

  lemma {:induction false} RunOne(s: Session, act: Act)
    ensures Run(s, [act]) == Apply(s, act)
  {
  }

  lemma {:induction false} RunTwo(s: Session, first: Act, second: Act)
    ensures Run(s, [first, second]) == Apply(Apply(s, first), second)
  {
    RunMore(s, [first], second);
    assert [first] + [second] == [first, second];
  }

  lemma {:induction false} RunThree(s: Session, first: Act, second: Act, third: Act)
    ensures Run(s, [first, second, third]) == Apply(Apply(Apply(s, first), second), third)
  {
    RunTwo(s, first, second);
    RunMore(s, [first, second], third);
    assert [first, second] + [third] == [first, second, third];
  }

  lemma {:induction false} RunMore(s: Session, acts: seq<Act>, act: Act)
    ensures Run(s, acts + [act]) == Apply(Run(s, acts), act)
  {
    assert (acts + [act])[..|acts + [act]| - 1] == acts;
  }

  lemma {:induction false} RunTwoMore(s: Session, acts: seq<Act>, first: Act, second: Act)
    ensures Run(s, acts + [first, second]) == Apply(Apply(Run(s, acts), first), second)
  {
    RunAppend(s, acts, [first, second]);
    RunTwo(Run(s, acts), first, second);
  }

  lemma {:induction false} OneTurn(s: Session, tasks: seq<TaskRun>, i: nat)
    requires i < |tasks| && AfterTasks(tasks, i).next == GoOn
    ensures var p, after := AfterTasks(tasks, i), AfterTasks(tasks, i + 1);
            var q := TaskStep(p.produced, tasks[i]);
            Run(s, after.acts) == Run(Run(s, p.acts), q.acts) && after.produced == q.produced && after.next == q.next
  {
    RunAppend(s, AfterTasks(tasks, i).acts, TaskStep(AfterTasks(tasks, i).produced, tasks[i]).acts);
  }

  /** Once the loop is left, later tasks are not run. */
  lemma {:induction false} Stuck(tasks: seq<TaskRun>, i: nat)
    requires i <= |tasks| && (i < |tasks| ==> AfterTasks(tasks, i).next != GoOn)
    ensures AfterTasks(tasks, |tasks|) == AfterTasks(tasks, i)
    decreases |tasks| - i
  {
    if i < |tasks| {
      assert AfterTasks(tasks, i + 1) == AfterTasks(tasks, i);
      Stuck(tasks, i + 1);
    }
  }
}
