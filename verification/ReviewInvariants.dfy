/** What every committed state of a full-review run satisfies. */
module ReviewInvariants {
  import opened Common
  import opened EventLog
  import opened Contracts
  import opened ClaimAudit
  import opened FullReview

  // ---------------------------------------------------------------- the event log

  /** Events that go with an increment of the state version. */
  predicate BumpsVersion(kind: EventKind) {
    kind.StateChanged? || kind.HumanDecided? || kind.BackgroundFailed? || kind.BackgroundCancelled?
  }

  function Bumps(events: seq<Event>): nat {
    if events == [] then 0
    else Bumps(events[..|events| - 1]) + (if BumpsVersion(events[|events| - 1].kind) then 1 else 0)
  }

  /** The edges a run may take: the transition table, plus the forced AUDITING -> FAILED. */
  predicate Edge(s: Status, t: Status) {
    t in Allowed(s) || (s == Auditing && t == RunFailed)
  }

  /** Reading the log back: STATE_CHANGED events must chain from RECEIVED along edges, a BACKGROUND event
      closes a run that has not stopped, and every other event leaves the status alone. */
  function ReplayLog(events: seq<Event>): Option<Status> {
    if events == [] then Some(Received)
    else
      var before, kind := ReplayLog(events[..|events| - 1]), events[|events| - 1].kind;
      if before.None? then None
      else if kind.StateChanged? then
        if kind.source == before.value && Edge(kind.source, kind.target) then Some(kind.target) else None
      else if kind.BackgroundFailed? || kind.BackgroundCancelled? then
        if before.value in STOPPED then None else Some(RunFailed)
      else before
  }

  lemma {:induction false} AppendEvent(events: seq<Event>, e: Event)
    ensures Bumps(events + [e]) == Bumps(events) + if BumpsVersion(e.kind) then 1 else 0
    ensures (events + [e])[..|events + [e]| - 1] == events
    ensures Numbered(events) && e.sequenceNo == |events| + 1 ==> Numbered(events + [e])
  {
    assert (events + [e])[..|events + [e]| - 1] == events;
  }

  // ---------------------------------------------------------------- the rows

  /** Each recorded decision was made against its own, earlier version. */
  predicate OnePerVersion(decisions: map<string, Decision>, version: int) {
    && (forall k :: k in decisions ==>
          decisions[k].idempotencyKey == Some(k) && decisions[k].targetVersion.Some?
              && decisions[k].targetVersion.value < version)
    && (forall k, m :: k in decisions && m in decisions && k != m
          ==> decisions[k].targetVersion != decisions[m].targetVersion)
  }

  predicate DecisionsFit(db: Db) {
    OnePerVersion(db.decisions, db.version)
  }

  predicate Traced(db: Db, startVersion: int) {
    Numbered(db.events) && db.version == startVersion + Bumps(db.events) && ReplayLog(db.events) == Some(db.status)
  }

  /** The claims the auditor passes over. */
  function PassedOverIds(artifacts: seq<AgentArtifact>): set<Id> {
    set a, id | a in artifacts && PassedOver(a) && id in ClaimIds(a.claims) :: id
  }

  /** A report exists exactly on a completed run; it is the only one, it is approved exactly if a human has decided,
      and it shows exactly the audited and human-approved claims; nothing is left undecided, except what the
      auditor passed over on the automatic path. */
  predicate ReportsFit(db: Db) {
    if db.status != Completed then db.reports == []
    else
      && |db.reports| == 1 && db.reports[0].versionNo == 1
      && (db.reports[0].status == VerifiedDraft <==> db.decisions == map[])
      && db.reports[0].claims == Reportable(db.claims)
      && db.reports[0].excluded == |db.claims| - |Reportable(db.claims)|
      && Blocking(db.claims) == if db.reports[0].status == VerifiedDraft then PassedOverIds(db.artifacts) else {}
  }

  predicate ReviewHasWork(db: Db) {
    db.status == HumanReview || db.status == Rework ==> Blocking(db.claims) != {}
  }

  /** The invariant of committed rows. */
  predicate Good(db: Db, startVersion: int) {
    Traced(db, startVersion) && DecisionsFit(db) && ReportsFit(db) && ReviewHasWork(db)
  }

  /** The writer's private counter agrees with the log. */
  predicate InStep(s: Session) {
    s.nextSeq.Some? ==> s.nextSeq.value == |s.work.events| + 1
  }

  /** The invariant of an open session. */
  predicate Safe(s: Session, startVersion: int) {
    Traced(s.work, startVersion) && DecisionsFit(s.work) && InStep(s) && Good(s.committed, startVersion)
  }

  /** What a write needs in order to keep the trace. */
  predicate Legal(s: Session, act: Act) {
    match act
    case To(status) => Edge(s.work.status, status)
    case Emit(kind) => !BumpsVersion(kind)
    case Record(key, d) =>
      key !in s.work.decisions && d.idempotencyKey == Some(key) && d.targetVersion == Some(s.work.version)
    case _ => true
  }

  predicate Commits(s: Session, act: Act) {
    act.Commit? || ((act.To? || act.Checkpoint?) && s.commitEachStage)
  }

  lemma {:induction false} EmitKeepsTrace(s: Session, kind: EventKind)
    requires Numbered(s.work.events) && InStep(s)
    ensures Emitted(s, kind).work.events == s.work.events + [Event(|s.work.events| + 1, kind)]
    ensures InStep(Emitted(s, kind))
  {
    NumberedMax(s.work.events);
  }

  lemma {:induction false} ToIsSafe(s: Session, status: Status, startVersion: int)
    requires Traced(s.work, startVersion) && DecisionsFit(s.work) && InStep(s) && Edge(s.work.status, status)
    ensures var t := Emitted(s.(work := Moved(s.work, status)), StateChanged(s.work.status, status));
            Traced(t.work, startVersion) && DecisionsFit(t.work) && InStep(t) && t.committed == s.committed
  {
    var kind := StateChanged(s.work.status, status);
    EmitKeepsTrace(s.(work := Moved(s.work, status)), kind);
    AppendEvent(s.work.events, Event(|s.work.events| + 1, kind));
  }

  lemma {:induction false} EmitIsSafe(s: Session, kind: EventKind, startVersion: int)
    requires Traced(s.work, startVersion) && DecisionsFit(s.work) && InStep(s) && !BumpsVersion(kind)
    ensures var t := Emitted(s, kind);
            Traced(t.work, startVersion) && DecisionsFit(t.work) && InStep(t) && t.committed == s.committed
  {
    EmitKeepsTrace(s, kind);
    AppendEvent(s.work.events, Event(|s.work.events| + 1, kind));
  }

  lemma {:induction false} RecordKeepsVersionsApart(
      decisions: map<string, Decision>, version: int, key: string, d: Decision)
    requires OnePerVersion(decisions, version)
    requires key !in decisions && d.idempotencyKey == Some(key) && d.targetVersion == Some(version)
    ensures OnePerVersion(decisions[key := d], version + 1)
  {
    var after := decisions[key := d];
    forall k, m | k in after && m in after && k != m ensures after[k].targetVersion != after[m].targetVersion {
      if k == key { assert m in decisions; }
    }
  }

  lemma {:induction false} RecordKeepsTrace(s: Session, key: string, d: Decision, startVersion: int)
    requires Traced(s.work, startVersion) && InStep(s)
    ensures var t := Apply(s, Record(key, d));
            && Traced(t.work, startVersion) && InStep(t) && t.committed == s.committed
            && t.work.decisions == s.work.decisions[key := d] && t.work.version == s.work.version + 1
  {
    var kind := HumanDecided(d.action);
    EmitKeepsTrace(s.(work := Recorded(s.work, key, d)), kind);
    AppendEvent(s.work.events, Event(|s.work.events| + 1, kind));
  }

  lemma {:induction false} RecordIsSafe(s: Session, key: string, d: Decision, startVersion: int)
    requires Traced(s.work, startVersion) && DecisionsFit(s.work) && InStep(s)
    requires key !in s.work.decisions && d.idempotencyKey == Some(key) && d.targetVersion == Some(s.work.version)
    ensures var t := Apply(s, Record(key, d));
            Traced(t.work, startVersion) && DecisionsFit(t.work) && InStep(t) && t.committed == s.committed
  {
    RecordKeepsTrace(s, key, d, startVersion);
    RecordKeepsVersionsApart(s.work.decisions, s.work.version, key, d);
  }

  /** One legal write keeps the session safe; if it commits, what it commits must fit. */
  lemma {:induction false} StepIsSafe(s: Session, act: Act, startVersion: int)
    requires Safe(s, startVersion) && Legal(s, act)
    requires Commits(s, act) ==> ReportsFit(Apply(s, act).work) && ReviewHasWork(Apply(s, act).work)
    ensures Safe(Apply(s, act), startVersion)
  {
    match act
    case To(status) => ToIsSafe(s, status, startVersion);
    case Emit(kind) => EmitIsSafe(s, kind, startVersion);
    case Record(key, d) => RecordIsSafe(s, key, d, startVersion);
    case _ =>
  }

  /** Every prefix of the writes leaves a safe session. */
  predicate SafeRun(s: Session, acts: seq<Act>, startVersion: int) {
    if acts == [] then Safe(s, startVersion)
    else SafeRun(s, acts[..|acts| - 1], startVersion) && Safe(Run(s, acts), startVersion)
  }

  lemma {:induction false} SafePrefix(s: Session, acts: seq<Act>, startVersion: int, k: nat)
    requires SafeRun(s, acts, startVersion) && k <= |acts|
    ensures Safe(Run(s, acts[..k]), startVersion)
  {
    if k < |acts| {
      SafePrefix(s, acts[..|acts| - 1], startVersion, k);
      assert acts[..|acts| - 1][..k] == acts[..k];
    } else {
      assert acts[..k] == acts;
    }
  }

  lemma {:induction false} SafeRunAppend(s: Session, first: seq<Act>, second: seq<Act>, startVersion: int)
    requires SafeRun(s, first, startVersion) && SafeRun(Run(s, first), second, startVersion)
    ensures SafeRun(s, first + second, startVersion)
    decreases |second|
  {
    if second == [] {
      assert first + second == first;
    } else {
      SafeRunAppend(s, first, second[..|second| - 1], startVersion);
      assert (first + second)[..|first + second| - 1] == first + second[..|second| - 1];
      RunAppend(s, first, second);
    }
  }
}
