/** The committed rows of a QA run: what holds of them wherever an execution stops, how a failed run is closed,
    and what a later request with the same key reads back (qa_service.py:421-525, 1192-1226, 1336-1350). */
module QARecords {
  import opened Common
  import opened EventLog
  import opened QARun
  import opened QASafety
  import opened QAHash

  function Bumps(events: seq<Event>): nat {
    if events == [] then 0
    else
      var kind := events[|events| - 1].kind;
      Bumps(events[..|events| - 1]) + (if kind.StateChanged? || kind.ExecutionFailed? then 1 else 0)
  }

  /** The log is gap-free, tells the phase and the version, and an answer is stored exactly from Kept on. */
  predicate RowsAt(r: Rows, p: Phase, startVersion: int) {
    && Numbered(r.events) && ReadLog(r.events) == Some(p) && r.status == StatusOf(p)
    && r.version == startVersion + Bumps(r.events)
    && (r.answer.Some? <==> p == Kept || p == Done)
  }

  /** What may be committed: no half-made completion. */
  predicate Resting(p: Phase) {
    p.At? || p == Done || p.Closed?
  }

  predicate Good(r: Rows, startVersion: int) {
    ReadLog(r.events).Some? && Resting(ReadLog(r.events).value) && RowsAt(r, ReadLog(r.events).value, startVersion)
  }

  function PhaseOf(r: Rows): Phase {
    if ReadLog(r.events).Some? then ReadLog(r.events).value else Unborn
  }

  // ---------------------------------------------------------------- every stop leaves good rows

  lemma {:induction false} OneEventMore(r: Rows, kind: EventKind)
    requires Numbered(r.events) && ReadLog(r.events).Some?
    ensures var t := WithEvent(r, kind);
            && Numbered(t.events) && ReadLog(t.events) == Follow(PhaseOf(r), kind)
            && Bumps(t.events) == Bumps(r.events) + (if kind.StateChanged? || kind.ExecutionFailed? then 1 else 0)
            && t.events[..|r.events|] == r.events
  {
    NumberedMax(r.events);
    assert WithEvent(r, kind).events[..|r.events|] == r.events;
  }

  lemma {:induction false} MoveKeepsRows(r: Rows, p: Phase, t: Status, q: Phase, startVersion: int)
    requires RowsAt(r, p, startVersion) && Step(p, Move(t)) == Some(q)
    ensures RowsAt(Recorded(r, Move(t)), q, startVersion)
  {
    OneEventMore(r.(status := t, version := r.version + 1), StateChanged(r.status, t));
  }

  lemma {:induction false} NoteKeepsRows(r: Rows, p: Phase, kind: EventKind, q: Phase, startVersion: int)
    requires RowsAt(r, p, startVersion) && Step(p, Note(kind)) == Some(q)
    ensures RowsAt(Recorded(r, Note(kind)), q, startVersion)
  {
    OneEventMore(r, kind);
  }

  lemma {:induction false} KeepKeepsRows(r: Rows, p: Phase, stored: Stored, q: Phase, startVersion: int)
    requires RowsAt(r, p, startVersion) && Step(p, Keep(stored)) == Some(q)
    ensures RowsAt(Recorded(r, Keep(stored)), q, startVersion)
  {
    OneEventMore(r.(answer := Some(stored)), AnswerPersisted(stored.answer.provenance.artifactId));
  }

  lemma {:induction false} StepKeepsRows(r: Rows, p: Phase, act: Act, q: Phase, startVersion: int)
    requires RowsAt(r, p, startVersion) && Step(p, act) == Some(q)
    ensures RowsAt(Recorded(r, act), q, startVersion)
  {
    match act
    case Move(t) => MoveKeepsRows(r, p, t, q, startVersion);
    case Note(kind) => NoteKeepsRows(r, p, kind, q, startVersion);
    case Keep(stored) => KeepKeepsRows(r, p, stored, q, startVersion);
    case _ =>
  }

  /** A session whose writes have followed a trail so far. */
  predicate Safe(s: Session, p: Phase, startVersion: int) {
    && RowsAt(s.work, p, startVersion) && Good(s.committed, startVersion)
    && (s.committed.status == Completed ==> s.work == s.committed)
  }

  lemma {:induction false} OnlyCheckpointsAfterDone(act: Act)
    requires Step(Done, act).Some?
    ensures act.Checkpoint?
  {
  }

  lemma {:induction false} StepKeepsSafe(s: Session, p: Phase, act: Act, q: Phase, startVersion: int)
    requires Safe(s, p, startVersion) && Step(p, act) == Some(q)
    ensures Safe(Apply(s, act), q, startVersion)
    ensures s.committed.status == Completed ==> Apply(s, act) == s
  {
    if act.Checkpoint? {
      CheckpointKeepsSafe(s, p, startVersion);
    } else {
      WriteKeepsSafe(s, p, act, q, startVersion);
    }
  }

  lemma {:induction false} CheckpointKeepsSafe(s: Session, p: Phase, startVersion: int)
    requires Safe(s, p, startVersion) && Resting(p)
    ensures Safe(Apply(s, Checkpoint), p, startVersion)
    ensures s.committed.status == Completed ==> Apply(s, Checkpoint) == s
  {
    RestingIsGood(s.work, p, startVersion);
  }

  lemma {:induction false} WriteKeepsSafe(s: Session, p: Phase, act: Act, q: Phase, startVersion: int)
    requires Safe(s, p, startVersion) && Step(p, act) == Some(q) && !act.Checkpoint?
    ensures Safe(Apply(s, act), q, startVersion) && s.committed.status != Completed
  {
    StepKeepsRows(s.work, p, act, q, startVersion);
    if p == Done { OnlyCheckpointsAfterDone(act); }
    if p.At? { OpenIsUnfinished(s.work.events); }
  }

  lemma {:induction false} RestingIsGood(r: Rows, p: Phase, startVersion: int)
    requires RowsAt(r, p, startVersion) && Resting(p)
    ensures Good(r, startVersion)
  {
  }

  lemma {:induction false} TrailKeepsSafe(
      s: Session, t: seq<Phase>, p: Phase, acts: seq<Act>, k: nat, startVersion: int)
    requires Safe(s, p, startVersion) && k <= |acts| < |t| && t[0] == p
    requires forall i :: 0 <= i < |acts| ==> Step(t[i], acts[i]) == Some(t[i + 1])
    ensures Safe(Run(s, acts[..k]), t[k], startVersion)
  {
    if k > 0 {
      TrailKeepsSafe(s, t, p, acts, k - 1, startVersion);
      OneActMore(s, acts, k);
      StepKeepsSafe(Run(s, acts[..k - 1]), t[k - 1], acts[k - 1], t[k], startVersion);
    }
  }

  lemma {:induction false} OneActMore(s: Session, acts: seq<Act>, k: nat)
    requires 0 < k <= |acts|
    ensures Run(s, acts[..k]) == Apply(Run(s, acts[..k - 1]), acts[k - 1])
  {
    assert acts[..k][..k - 1] == acts[..k - 1];
  }

  function Fresh(startVersion: int): Session {
    Session(NewRun(startVersion), NewRun(startVersion))
  }

  lemma {:induction false} NewRunIsGood(startVersion: int)
    ensures RowsAt(NewRun(startVersion), At(Received), startVersion) && Good(NewRun(startVersion), startVersion)
  {
    var events := [Event(1, RunCreated)];
    assert events[..0] == [];
    assert ReadLog(events) == Some(At(Received)) && Bumps(events) == 0;
  }

  /** The committed rows after k writes of an execution. */
  function Survives(script: Script, startVersion: int, k: nat): Rows
    requires k <= |ExecutionPlan(script).acts|
  {
    Run(Fresh(startVersion), ExecutionPlan(script).acts[..k]).committed
  }

  /** Wherever an execution stops, its committed rows are good. */
  lemma {:induction false} EveryStopIsGood(script: Script, startVersion: int, k: nat)
    requires k <= |ExecutionPlan(script).acts|
    ensures Good(Survives(script, startVersion, k), startVersion)
  {
    ExecutionIsLegal(script);
    NewRunIsGood(startVersion);
    var plan := ExecutionPlan(script);
    var q :| Path(At(Received), plan.acts, q);
    var t :| IsTrail(t, At(Received), plan.acts, q);
    TrailKeepsSafe(Fresh(startVersion), t, At(Received), plan.acts, k, startVersion);
  }

  /** Once COMPLETED is committed the execution changes nothing any more. */
  lemma {:induction false} CompletedStays(script: Script, startVersion: int, k: nat)
    requires k < |ExecutionPlan(script).acts| && Survives(script, startVersion, k).status == Completed
    ensures Survives(script, startVersion, k + 1) == Survives(script, startVersion, k)
  {
    ExecutionIsLegal(script);
    NewRunIsGood(startVersion);
    var acts := ExecutionPlan(script).acts;
    var q :| Path(At(Received), acts, q);
    var t :| IsTrail(t, At(Received), acts, q);
    TrailStaysDone(Fresh(startVersion), t, At(Received), acts, k, startVersion);
  }

  lemma {:induction false} TrailStaysDone(
      s: Session, t: seq<Phase>, p: Phase, acts: seq<Act>, k: nat, startVersion: int)
    requires Safe(s, p, startVersion) && k < |acts| < |t| && t[0] == p
    requires forall i :: 0 <= i < |acts| ==> Step(t[i], acts[i]) == Some(t[i + 1])
    requires Run(s, acts[..k]).committed.status == Completed
    ensures Run(s, acts[..k + 1]).committed == Run(s, acts[..k]).committed
  {
    TrailKeepsSafe(s, t, p, acts, k, startVersion);
    OneActMore(s, acts, k + 1);
    StepKeepsSafe(Run(s, acts[..k]), t[k], acts[k], t[k + 1], startVersion);
  }

  // ---------------------------------------------------------------- closing a run

  /** _mark_failed. */
  function MarkFailed(r: Rows, errorType: string): Rows {
    if r.status == Completed || r.status == RunFailed then r
    else WithEvent(r.(status := RunFailed, version := r.version + 1), ExecutionFailed(r.status, errorType))
  }

  lemma {:induction false} MarkFailedIsGood(r: Rows, errorType: string, startVersion: int)
    requires Good(r, startVersion)
    ensures Good(MarkFailed(r, errorType), startVersion)
    ensures PhaseOf(MarkFailed(r, errorType)) == if PhaseOf(r).At? then Closed(errorType) else PhaseOf(r)
  {
    if PhaseOf(r).At? {
      OpenIsUnfinished(r.events);
      ClosingIsGood(r, PhaseOf(r).status, errorType, startVersion);
    } else {
      EndedStays(r, errorType, startVersion);
    }
  }

  lemma {:induction false} ClosingIsGood(r: Rows, status: Status, errorType: string, startVersion: int)
    requires RowsAt(r, At(status), startVersion) && RunFailed in Allowed(status)
    ensures Good(MarkFailed(r, errorType), startVersion) && PhaseOf(MarkFailed(r, errorType)) == Closed(errorType)
  {
    ClosingRows(r, status, errorType, startVersion);
    RestingIsGood(MarkFailed(r, errorType), Closed(errorType), startVersion);
  }

  lemma {:induction false} EndedStays(r: Rows, errorType: string, startVersion: int)
    requires Good(r, startVersion) && !PhaseOf(r).At?
    ensures MarkFailed(r, errorType) == r
  {
  }

  /** A log that has not ended stands at a status that may fail. */
  lemma {:induction false} OpenIsUnfinished(events: seq<Event>)
    requires ReadLog(events).Some? && ReadLog(events).value.At?
    ensures RunFailed in Allowed(ReadLog(events).value.status)
  {
    var front := events[..|events| - 1];
    if ReadLog(front).value.At? { OpenIsUnfinished(front); }
  }

  lemma {:induction false} ClosingRows(r: Rows, status: Status, errorType: string, startVersion: int)
    requires RowsAt(r, At(status), startVersion) && RunFailed in Allowed(status)
    ensures RowsAt(MarkFailed(r, errorType), Closed(errorType), startVersion)
  {
    OneEventMore(r.(status := RunFailed, version := r.version + 1), ExecutionFailed(r.status, errorType));
  }

  // ---------------------------------------------------------------- reading a run back

  datatype VersionMark = NoMark | CurrentMark | OtherMark

  /** The columns of a run that never change. `createdWithMark`: its RUN_CREATED payload names a hash version. */
  datatype Head = Head(
    tenantId: Id, caseId: Id, runId: Id, simpleQa: bool, snapshotId: Option<Id>, requestHash: Hash, mark: VersionMark,
    createdWithMark: bool)

  datatype Reservation = Replay | FailedAs(errorType: string) | IntegrityFailure | Conflict | Busy | WithoutSnapshot

  function Failures(events: seq<Event>): seq<Event> {
    if events == [] then []
    else
      var last := events[|events| - 1];
      Failures(events[..|events| - 1]) + if last.kind.ExecutionFailed? then [last] else []
  }

  function Creations(events: seq<Event>): seq<Event> {
    if events == [] then []
    else
      var last := events[|events| - 1];
      Creations(events[..|events| - 1]) + if last.kind.RunCreated? then [last] else []
  }

  /** _is_v13_run_contract. */
  predicate IsV13(head: Head, r: Rows) {
    |Creations(r.events)| == 1 && Creations(r.events)[0].sequenceNo == 1 && head.simpleQa && !head.createdWithMark
  }

  function ReadFailure(r: Rows): Reservation {
    if |Failures(r.events)| != 1 then IntegrityFailure
    else
      var failed := Failures(r.events)[0];
      if failed.kind.ExecutionFailed? && failed.sequenceNo == MaxSequence(r.events)
          && RunFailed in Allowed(failed.kind.from)
         && Stable(Some(failed.kind.errorType)).Some?
      then FailedAs(failed.kind.errorType)
      else IntegrityFailure
  }

  /** _existing_reservation. */
  function Existing(head: Head, r: Rows, hash: Hash, legacyHash: Hash): Reservation {
    var current := head.mark == CurrentMark && head.requestHash == hash;
    var legacy := r.status == Completed && head.mark == NoMark && head.requestHash == legacyHash && IsV13(head, r);
    if !head.simpleQa || !(current || legacy) then Conflict
    else if head.snapshotId.None? then WithoutSnapshot
    else if r.status == Completed then Replay
    else if r.status == RunFailed then ReadFailure(r)
    else Busy
  }

  lemma {:induction false} FailuresInLog(events: seq<Event>)
    requires ReadLog(events).Some?
    ensures var p := ReadLog(events).value;
            if p.Closed? then
              && events != [] && Failures(events) == [events[|events| - 1]]
              && events[|events| - 1].kind.ExecutionFailed?
              && events[|events| - 1].kind.errorType == p.errorType
              && RunFailed in Allowed(events[|events| - 1].kind.from)
            else Failures(events) == []
  {
    if events != [] { FailuresInLog(events[..|events| - 1]); }
  }

  /** A closed run reads back as exactly the type it was closed with, if that type is one of the stable ones. */
  lemma {:induction false} ClosedReadsBack(r: Rows, startVersion: int)
    requires Good(r, startVersion) && PhaseOf(r).Closed?
    ensures ReadFailure(r) == if PhaseOf(r).errorType in REPLAYABLE then FailedAs(PhaseOf(r).errorType)
            else IntegrityFailure
  {
    FailuresInLog(r.events);
    NumberedMax(r.events);
  }

  /** The same request, under the same settings. */
  predicate Matches(head: Head, hash: Hash) {
    head.simpleQa && head.mark == CurrentMark && head.requestHash == hash && head.snapshotId.Some?
  }

  /** However an execution stops, and whatever it is closed with: a completed run is replayed, any other reads back as
      the first type it was closed with, however often it is closed again. */
  lemma {:induction false} EveryFailureReadsBack(
      script: Script, startVersion: int, k: nat, e: Exc, again: string, head: Head, hash: Hash, legacyHash: Hash)
    requires k <= |ExecutionPlan(script).acts| && Matches(head, hash)
    ensures var r := Survives(script, startVersion, k);
            var closed := MarkFailed(r, ErrorTypeOf(e));
            && Existing(head, closed, hash, legacyHash)
                == (if r.status == Completed then Replay else FailedAs(ErrorTypeOf(e)))
            && MarkFailed(closed, again) == closed
  {
    var r := Survives(script, startVersion, k);
    EveryStopIsGood(script, startVersion, k);
    MarkFailedIsGood(r, ErrorTypeOf(e), startVersion);
    NoExecutionCloses(script, startVersion, k);
    if PhaseOf(r).At? { ClosedReadsBack(MarkFailed(r, ErrorTypeOf(e)), startVersion); }
  }

  lemma {:induction false} RunNeverCloses(s: Session, acts: seq<Act>)
    requires s.work.status != RunFailed && s.committed.status != RunFailed
    requires Move(RunFailed) !in acts
    ensures Run(s, acts).work.status != RunFailed && Run(s, acts).committed.status != RunFailed
  {
    if acts != [] {
      assert acts == acts[..|acts| - 1] + [acts[|acts| - 1]];
      RunNeverCloses(s, acts[..|acts| - 1]);
    }
  }

  lemma {:induction false} NoExecutionCloses(script: Script, startVersion: int, k: nat)
    requires k <= |ExecutionPlan(script).acts|
    ensures Survives(script, startVersion, k).status != RunFailed
  {
    var acts := ExecutionPlan(script).acts;
    ExecutionIsLegal(script);
    var q :| Path(At(Received), acts, q);
    var t :| IsTrail(t, At(Received), acts, q);
    forall i | 0 <= i < k ensures acts[i] != Move(RunFailed) {
      assert Step(t[i], acts[i]) == Some(t[i + 1]);
    }
    RunNeverCloses(Fresh(startVersion), acts[..k]);
  }

  /** The run was made from this request: by the current service under its mark, or, if it completed, by the previous
      version, which marked nothing. */
  predicate IsAnswerTo(head: Head, r: Rows, hash: Hash, legacyHash: Hash) {
    match head.mark
    case CurrentMark => head.requestHash == hash
    case NoMark => head.requestHash == legacyHash && !head.createdWithMark && r.status == Completed
    case OtherMark => false
  }

  /** What a request that finds a run under its key is told, on good rows: a conflict unless the run was made from it;
      that it has no snapshot; that it completed; the type it was closed with, or that this type is unknown; or that it
      is still at work. */
  lemma {:induction false} ReservedExactly(head: Head, r: Rows, hash: Hash, legacyHash: Hash, startVersion: int)
    requires Good(r, startVersion)
    ensures var told := Existing(head, r, hash, legacyHash);
            if !head.simpleQa || !IsAnswerTo(head, r, hash, legacyHash) then told == Conflict
            else if head.snapshotId == None then told == WithoutSnapshot
            else match PhaseOf(r)
              case Done => told == Replay
              case Closed(errorType) =>
                told == if errorType in REPLAYABLE then FailedAs(errorType) else IntegrityFailure
              case _ => told == Busy
  {
    CreatedOnce(r.events);
    if PhaseOf(r).Closed? { ClosedReadsBack(r, startVersion); }
  }

  // ---------------------------------------------------------------- who is let through to a run

  /** Good rows were created once, by their first event. */
  lemma {:induction false} CreatedOnce(events: seq<Event>)
    requires ReadLog(events).Some?
    ensures Creations(events) == if events == [] then [] else [events[0]]
    ensures ReadLog(events).value == Unborn <==> events == []
  {
    if events != [] {
      var front := events[..|events| - 1];
      CreatedOnce(front);
      assert front != [] ==> front[0] == events[0];
    }
  }

  /** A run made by the current service from request q under settings s; its manifest may have been altered since. */
  predicate MadeBy(head: Head, s: Settings, q: Query) {
    head.simpleQa && head.snapshotId.Some? && head.createdWithMark && head.requestHash == CurrentHash(s, q)
  }

  /** A run made by the previous version of the service, which marked nothing. */
  predicate MadeByPredecessor(head: Head, s: Settings, q: Query) {
    && head.simpleQa && head.snapshotId.Some? && !head.createdWithMark && head.mark == NoMark
    && head.requestHash == LegacyHash(s, q)
  }

  /** A run of the current contract whose manifest has lost its version mark is never taken for an older one, whatever
      its request hash was changed to. */
  lemma {:induction false} LostMarkIsRefused(head: Head, r: Rows, hash: Hash, legacyHash: Hash)
    requires head.createdWithMark && head.mark != CurrentMark
    ensures Existing(head, r, hash, legacyHash) == Conflict
  {
  }

  /** A later request u under settings t is let through to a run exactly if it asks the same under the same settings,
      and the run still has its version mark or was completed by the previous version. */
  lemma {:induction false} OnlyTheSameRequestIsLetThrough(
      head: Head, r: Rows, startVersion: int, s: Settings, q: Query, t: Settings, u: Query)
    requires Good(r, startVersion) && (MadeBy(head, s, q) || MadeByPredecessor(head, s, q))
    ensures Existing(head, r, CurrentHash(t, u), LegacyHash(t, u)) != Conflict <==>
            && Plain(s) == Plain(t) && SameQuery(q, u)
            && if head.createdWithMark then head.mark == CurrentMark else r.status == Completed
  {
    HashTellsApart(s, q, Some(HASH_VERSION), t, u, Some(HASH_VERSION));
    HashTellsApart(s, q, Some(HASH_VERSION), t, u, None);
    HashTellsApart(s, q, None, t, u, None);
    if head.createdWithMark {
      if head.mark != CurrentMark { LostMarkIsRefused(head, r, CurrentHash(t, u), LegacyHash(t, u)); }
    } else {
      CreatedOnce(r.events);
    }
  }
}
