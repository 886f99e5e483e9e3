/** Storing an answer and replaying it for a repeated request (qa_service.py:618-732, 943-1071, 1482-1578). */
module QAReplay {
  import opened Common
  import opened Contracts
  import opened ClaimAudit
  import opened AnswerAudit
  import opened AnswerAgreement
  import opened QARun
  import opened QABounds
  import opened QARecords
  import opened QAHash

  // ---------------------------------------------------------------- query specs

  const SPEC_REQUIRED: set<string> :=
      {"original_query", "standalone_query", "product_code", "as_of_date", "decision_cutoff_at"}

  const SPEC_DEFAULTS: Spec := map[
    "schema_version" := "1.0", "intent" := "POLICY_QA", "immutable_numbers" := "[]", "exact_terms" := "[]",
    "subqueries" := "[]",
    "query_variants" := "[]", "comparison_contexts" := "[]", "must_not_assume" := "[]", "rewrite_confidence" := "HIGH",
    "MAX_SUBQUERIES" := "5", "MAX_VARIANTS_PER_SUBQUERY" := "3"]

  /** _canonical_query_spec: unknown fields are dropped, defaults filled in; a missing required field raises. */
  function Canonical(spec: Spec): Option<Spec> {
    if spec == map[] then Some(map[])
    else if !(SPEC_REQUIRED <= spec.Keys) then None
    else Some(map field | field in SPEC_REQUIRED + SPEC_DEFAULTS.Keys ::
                if field in spec then spec[field] else SPEC_DEFAULTS[field])
  }

  lemma {:induction false} CanonicalIsIdempotent(spec: Spec)
    requires Canonical(spec).Some?
    ensures Canonical(Canonical(spec).value) == Canonical(spec)
  {
    if spec != map[] {
      var c := Canonical(spec).value;
      assert "product_code" in c;
      assert Canonical(c).value == c;
    }
  }

  /** An empty spec stays empty, and any other must have every required field. Then every known field keeps what is
      given for it and gets its default only where nothing is given, and nothing else gets in. */
  lemma {:induction false} CanonicalExactly(spec: Spec)
    ensures spec == map[] ==> Canonical(spec) == Some(map[])
    ensures spec != map[] ==> (Canonical(spec) == None <==> exists field :: field in SPEC_REQUIRED && field !in spec)
    ensures spec != map[] && Canonical(spec) != None ==>
              var c := Canonical(spec).value;
              && (forall field :: field in c <==> field in SPEC_REQUIRED || field in SPEC_DEFAULTS)
              && (forall field :: field in c && field in spec ==> c[field] == spec[field])
              && (forall field :: field in c && field !in spec ==> field in SPEC_DEFAULTS
                                                                   && c[field] == SPEC_DEFAULTS[field])
  {
    assert SPEC_REQUIRED <= spec.Keys <==> forall field :: field in SPEC_REQUIRED ==> field in spec;
  }

  // ---------------------------------------------------------------- rows

  datatype Manifest = Manifest(
    workflow: string, promptVersion: string, provider: string, model: Option<string>, audit: string,
    auditContract: string,
    invocationIds: seq<Id>)

  datatype RunRow = RunRow(head: Head, status: Status, stateVersion: int, asOf: Date, manifest: Manifest)

  datatype Payload = Payload(answer: GroundedAnswer, mode: string, spec: Spec)

  /** `outputHash` stands for the hash as the value it covers. */
  datatype Record = Record(
    id: Id, tenantId: Id, runId: Id, taskId: string, artifactType: string, contractVersion: string, producer: string,
    lifecycle: Lifecycle, executionStatus: ExecutionStatus, inputHash: string, payload: Payload, outputHash: Payload)

  const WORKFLOW := "grounded_qa_v1"
  const ARTIFACT_TYPE := "GROUNDED_ANSWER"
  const MODES: set<string> := {"llm", "deterministic_extractive", "abstained_empty_context"}

  /** The manifest a run is created with, once its execution has entered its invocations. */
  function ManifestOf(s: Settings, invocationIds: seq<Id>): Manifest {
    Manifest(WORKFLOW, s.promptVersion, s.provider, OrNone(s.model), s.auditVersion, s.contractVersion, invocationIds)
  }

  function StampOf(head: Head, s: Settings): Stamp {
    Stamp(head.runId, s.promptVersion, s.contractVersion)
  }

  function AsVerified(a: GroundedAnswer): GroundedAnswer {
    a.(provenance := a.provenance.(lifecycle := LIFECYCLE_VERIFIED))
  }

  /** _persist_answer: refused, or one record. */
  function Persist(
      s: Settings, head: Head, a: GroundedAnswer, mode: string, traces: seq<Trace>, spec: Spec): Option<Record> {
    if !ProvenanceOk(StampOf(head, s), a, traces) || Canonical(spec).None? then None
    else
      var payload := Payload(AsVerified(a), mode, Canonical(spec).value);
      Some(Record(a.provenance.artifactId, head.tenantId, head.runId, TASK_ID,
                  ARTIFACT_TYPE, a.provenance.contractVersion, PRODUCER,
                  LIFECYCLE_VERIFIED, a.base.executionStatus, a.provenance.inputHash, payload, payload))
  }

  // ---------------------------------------------------------------- responses

  datatype ClaimView = ClaimView(
    claimId: Id, category: Category, statement: Statement, verdict: Verdict, citations: seq<EvidenceRef>,
    opposing: seq<EvidenceRef>)

  datatype Response = Response(
    question: string, status: AnswerStatus, answer: string, claims: seq<ClaimView>, missing: seq<string>,
    conflicts: seq<string>,
    abstentionReason: Option<string>, refusalReason: Option<RefusalReason>, runId: Id, snapshotId: Id,
    stateVersion: int, asOf: Date,
    mode: string, invocationIds: seq<Id>, spec: Spec, idempotentReplay: bool)

  /** evidence_by_id.get(id): the last entry with an id wins. */
  function Locate(evidence: seq<EvidenceRef>, id: Id): Option<EvidenceRef> {
    if evidence == [] then None
    else if evidence[|evidence| - 1].evidenceId == id then Some(evidence[|evidence| - 1])
    else Locate(evidence[..|evidence| - 1], id)
  }

  function Citations(evidence: seq<EvidenceRef>, ids: seq<Id>): seq<EvidenceRef> {
    if ids == [] then []
    else
      var e := Locate(evidence, ids[|ids| - 1]);
      Citations(evidence, ids[..|ids| - 1]) + if e.Some? then [e.value] else []
  }

  function Views(a: AgentArtifact): seq<ClaimView> {
    seq(|a.claims|, i requires 0 <= i < |a.claims| =>
      var c := a.claims[i];
      ClaimView(c.claimId, c.category, c.statement, c.verdict, Citations(a.evidence, c.supporting),
          Citations(a.evidence, c.opposing)))
  }

  /** _build_response; None where the query spec does not validate. */
  function BuildResponse(
      run: RunRow, question: string, snapshotId: Id, a: GroundedAnswer, mode: string, spec: Spec,
      replay: bool): Option<Response> {
    var canonical := Canonical(spec);
    if canonical.None? then None
    else Some(Response(
      question, a.answerStatus, if a.directAnswer.Some? then a.directAnswer.value else "", Views(a.base),
      a.missingInformation, a.conflicts,
      a.abstentionReason, a.refusalReason, run.head.runId, snapshotId, run.stateVersion, run.asOf,
      mode, a.provenance.invocationIds, canonical.value, replay))
  }

  /** Where every cited id is attached, the citations are the attached evidence of these ids, one each, in order. */
  lemma {:induction false} CitationsInOrder(evidence: seq<EvidenceRef>, ids: seq<Id>)
    requires forall id :: id in ids ==> id in EvidenceIds(evidence)
    ensures |Citations(evidence, ids)| == |ids|
    ensures forall i :: 0 <= i < |ids| ==>
              Citations(evidence, ids)[i] in evidence && Citations(evidence, ids)[i].evidenceId == ids[i]
  {
    if ids != [] {
      var front, last := ids[..|ids| - 1], ids[|ids| - 1];
      assert ids == front + [last];
      CitationsInOrder(evidence, front);
      LocatedIfAttached(evidence, last);
    }
  }

  lemma {:induction false} LocatedIfAttached(evidence: seq<EvidenceRef>, id: Id)
    ensures Locate(evidence, id).Some? <==> id in EvidenceIds(evidence)
    ensures Locate(evidence, id).Some?
            ==> Locate(evidence, id).value in evidence && Locate(evidence, id).value.evidenceId == id
  {
    if evidence != [] {
      var front, last := evidence[..|evidence| - 1], evidence[|evidence| - 1];
      assert evidence == front + [last];
      LocatedIfAttached(front, id);
      if id in EvidenceIds(evidence) {
        var e :| e in evidence && e.evidenceId == id;
        assert e == last || e in front;
      }
    }
  }

  /** These references are the attached evidence of these ids, one each, in order. */
  predicate Cites(refs: seq<EvidenceRef>, evidence: seq<EvidenceRef>, ids: seq<Id>) {
    |refs| == |ids| && forall i :: 0 <= i < |ids| ==> refs[i] in evidence && refs[i].evidenceId == ids[i]
  }

  /** What a response says, part by part: state, text and reasons of the answer; run, snapshot, version and date of the
      run; and one view per claim, in order, citing what supports the claim and what opposes it. */
  lemma {:induction false} ResponseSaysTheAnswer(
      run: RunRow, question: string, snapshotId: Id, a: GroundedAnswer, mode: string, spec: Spec, replay: bool)
    requires CitedIds(a.base.claims) <= EvidenceIds(a.base.evidence)
    requires BuildResponse(run, question, snapshotId, a, mode, spec, replay).Some?
    ensures var r := BuildResponse(run, question, snapshotId, a, mode, spec, replay).value;
            && r.question == question && r.status == a.answerStatus
            && r.answer == (if a.directAnswer == None then "" else a.directAnswer.value)
            && r.missing == a.missingInformation && r.conflicts == a.conflicts
            && r.abstentionReason == a.abstentionReason && r.refusalReason == a.refusalReason
            && r.runId == run.head.runId && r.snapshotId == snapshotId && r.stateVersion == run.stateVersion
            && r.asOf == run.asOf
            && r.mode == mode && r.invocationIds == a.provenance.invocationIds && r.idempotentReplay == replay
            && Some(r.spec) == Canonical(spec)
            && |r.claims| == |a.base.claims|
            && forall k :: 0 <= k < |r.claims| ==> ViewOf(r.claims[k], a.base, k)
  {
    var views := Views(a.base);
    forall k | 0 <= k < |views| ensures ViewOf(views[k], a.base, k) {
      var c := a.base.claims[k];
      forall id | id in c.supporting + c.opposing ensures id in EvidenceIds(a.base.evidence) {
        assert c in a.base.claims && id in CitedIds(a.base.claims);
      }
      CitationsInOrder(a.base.evidence, c.supporting);
      CitationsInOrder(a.base.evidence, c.opposing);
    }
  }

  predicate ViewOf(view: ClaimView, artifact: AgentArtifact, k: nat)
    requires k < |artifact.claims|
  {
    var c := artifact.claims[k];
    && view.claimId == c.claimId && view.category == c.category && view.statement == c.statement
    && view.verdict == c.verdict
    && Cites(view.citations, artifact.evidence, c.supporting) && Cites(view.opposing, artifact.evidence, c.opposing)
  }

  // ---------------------------------------------------------------- replay

  datatype ReplayError = NotAvailable | ArtifactMissing | IntegrityFailed
  datatype Replayed = Replayed(response: Response) | ReplayFailed(error: ReplayError)

  /** The run's own side of _validate_replayed_artifact, under the settings of the replaying service. */
  predicate RunChecks(s: Settings, tenantId: Id, run: RunRow, a: GroundedAnswer) {
    var m := run.manifest;
    && run.head.tenantId == tenantId && run.head.simpleQa
    && a.provenance.runId == run.head.runId && a.provenance.promptVersion == s.promptVersion
    && m.workflow == WORKFLOW && m.promptVersion == a.provenance.promptVersion && m.provider == s.provider
    && m.model == OrNone(s.model)
    && m.audit == s.auditVersion && m.auditContract == s.contractVersion
    && a.provenance.contractVersion == s.contractVersion
    && (forall id :: id in a.provenance.invocationIds ==> id in m.invocationIds)
  }

  predicate RecordChecks(run: RunRow, record: Record, a: GroundedAnswer) {
    && record.tenantId == run.head.tenantId && record.runId == run.head.runId && record.id == a.provenance.artifactId
    && record.artifactType == ARTIFACT_TYPE && record.taskId == a.provenance.taskId == TASK_ID
    && record.producer == a.base.producer == PRODUCER
    && record.lifecycle == a.provenance.lifecycle == LIFECYCLE_VERIFIED
    && record.executionStatus == a.base.executionStatus
    && record.contractVersion == a.provenance.contractVersion && record.inputHash == a.provenance.inputHash
  }

  /** _replay_completed. */
  function ReplayCompleted(s: Settings, tenantId: Id, run: RunRow, stored: Option<Record>, question: string): Replayed {
    if run.status != Completed || run.head.snapshotId.None? then ReplayFailed(NotAvailable)
    else if stored.None? then ReplayFailed(ArtifactMissing)
    else
      var record := stored.value;
      var a := record.payload.answer;
      if record.payload != record.outputHash || Canonical(record.payload.spec).None? || !ValidAnswer(a)
         || !RecordChecks(run, record, a) || !RunChecks(s, tenantId, run, a) || record.payload.mode !in MODES
      then ReplayFailed(IntegrityFailed)
      else
        var spec := Canonical(record.payload.spec).value;
        var response := BuildResponse(run, question, run.head.snapshotId.value, a, record.payload.mode, spec, true);
        if response.Some? then Replayed(response.value) else ReplayFailed(IntegrityFailed)
  }

  // ---------------------------------------------------------------- the round trip

  /** A completed run of these settings whose manifest lists the invocations `ids`. */
  predicate CompletedUnder(run: RunRow, s: Settings, ids: seq<Id>) {
    CompletedRun(run) && run.manifest == ManifestOf(s, ids)
  }

  predicate CompletedRun(run: RunRow) {
    run.status == Completed && run.head.simpleQa && run.head.snapshotId.Some?
  }

  /** The manifest is the one the service would write now, and lists what the answer was made by. */
  predicate ManifestFits(m: Manifest, t: Settings, a: GroundedAnswer) {
    m == ManifestOf(t, m.invocationIds) && forall id :: id in a.provenance.invocationIds ==> id in m.invocationIds
  }

  /** With its hash untouched a record passes its checks only as it was stored, column by column. */
  lemma {:induction false} OnlyTheStoredRecordPasses(
      s: Settings, run: RunRow, a: GroundedAnswer, mode: string, traces: seq<Trace>, spec: Spec, x: Record)
    requires Persist(s, run.head, a, mode, traces, spec).Some?
    requires x.outputHash == Persist(s, run.head, a, mode, traces, spec).value.outputHash
    ensures x.payload == x.outputHash && RecordChecks(run, x, x.payload.answer)
       <==> x == Persist(s, run.head, a, mode, traces, spec).value
  {
  }

  lemma {:induction false} RunChecksByManifest(
      t: Settings, run: RunRow, a: GroundedAnswer, stamp: Stamp, traces: seq<Trace>)
    requires CompletedRun(run) && ProvenanceOk(stamp, a, traces) && stamp.runId == run.head.runId
    ensures RunChecks(t, run.head.tenantId, run, AsVerified(a)) <==>
            ManifestFits(run.manifest, t, a) && stamp.promptVersion == t.promptVersion
                && stamp.contractVersion == t.contractVersion
  {
  }

  /** What replays, exactly: as long as the hash column is untouched, only the very record that was stored, in every
      column, with an answer that satisfies its validator in a known mode, on a run whose manifest is still the one
      these settings write. The replayed response is then the live one, marked as a replay. */
  lemma {:induction false} ReplayIsExact(
      s: Settings, t: Settings, run: RunRow, a: GroundedAnswer, mode: string, traces: seq<Trace>, spec: Spec, x: Record,
      question: string)
    requires CompletedRun(run) && Persist(s, run.head, a, mode, traces, spec).Some?
    requires x.outputHash == Persist(s, run.head, a, mode, traces, spec).value.outputHash
    ensures var r := ReplayCompleted(t, run.head.tenantId, run, Some(x), question);
            var live := BuildResponse(run, question, run.head.snapshotId.value, a, mode, spec, false);
            && (r.Replayed? <==>
                  && x == Persist(s, run.head, a, mode, traces, spec).value
                  && ValidAnswer(a) && mode in MODES && ManifestFits(run.manifest, t, a)
                  && s.promptVersion == t.promptVersion && s.contractVersion == t.contractVersion)
            && (r.Replayed? ==> live.Some? && r.response == live.value.(idempotentReplay := true))
  {
    OnlyTheStoredRecordPasses(s, run, a, mode, traces, spec, x);
    RunChecksByManifest(t, run, a, StampOf(run.head, s), traces);
    CanonicalIsIdempotent(spec);
    assert ValidAnswer(AsVerified(a)) <==> ValidAnswer(a);
  }

  /** What was stored replays exactly if the answer satisfies its validator, was made in a known mode, and the
      settings that shaped it still hold; the replayed response is then the live one, marked as a replay. */
  lemma {:induction false} RoundTrip(
      s: Settings, t: Settings, run: RunRow, ids: seq<Id>, a: GroundedAnswer, mode: string, traces: seq<Trace>,
      spec: Spec, question: string)
    requires CompletedUnder(run, s, ids) && Persist(s, run.head, a, mode, traces, spec).Some?
    requires forall id :: id in TraceIds(traces) ==> id in ids
    ensures var r := ReplayCompleted(t, run.head.tenantId, run, Persist(s, run.head, a, mode, traces, spec), question);
            var live := BuildResponse(run, question, run.head.snapshotId.value, a, mode, spec, false);
            && (r.Replayed? <==> ValidAnswer(a) && mode in MODES && SameContract(s, t))
            && (r.Replayed? ==> live.Some? && r.response == live.value.(idempotentReplay := true))
  {
    ReplayIsExact(s, t, run, a, mode, traces, spec, Persist(s, run.head, a, mode, traces, spec).value, question);
  }

  // ---------------------------------------------------------------- what a completed execution stores

  predicate LedgeredBy(acts: seq<Act>, ids: seq<Id>) {
    Ledger(ids) in acts
  }

  lemma {:induction false} ReadyIsLedgered(script: Script, call: nat, repairs: nat)
    requires repairs <= script.maxRepairs && Generate(script, call, repairs).result.Ready?
    ensures var g := Generate(script, call, repairs); LedgeredBy(g.acts, TraceIds(g.result.candidate.traces))
    decreases script.maxRepairs - repairs
  {
    if script.generations(call).GenRejected? {
      var rest := Generate(script, call + 1, repairs + 1);
      ReadyIsLedgered(script, call + 1, repairs + 1);
      assert forall act :: act in rest.acts ==> act in Generate(script, call, repairs).acts;
    }
  }

  /** The last writes of an execution that answers. */
  predicate EndsKeeping(acts: seq<Act>, stored: Stored) {
    && |acts| >= 3 && acts[|acts| - 3] == Keep(stored) && acts[|acts| - 2] == Move(Completed)
    && acts[|acts| - 1] == Checkpoint
  }

  /** The approved candidate's invocations are among `before`, or are entered by the loop. */
  predicate LoopLedgers(run: AuditRun, before: seq<Id>) {
    match run.verdict
    case Approved(c, _) => TraceIds(c.traces) == before || LedgeredBy(run.acts, TraceIds(c.traces))
    case Dropped(_) => true
  }

  lemma {:induction false} RepairedLedgers(here: AuditRun, attempt: nat, g: GenRun, rest: AuditRun, before: seq<Id>)
    requires g.result.Ready? && LedgeredBy(g.acts, TraceIds(g.result.candidate.traces))
    requires LoopLedgers(rest, TraceIds(g.result.candidate.traces))
    requires here.acts == RepairActs(attempt, g) + ([Move(Auditing), Checkpoint] + rest.acts)
             && here.verdict == rest.verdict
    ensures LoopLedgers(here, before)
  {
    assert forall act :: act in g.acts || act in rest.acts ==> act in here.acts;
  }

  lemma {:induction false} RoundsLedger(script: Script, c: Candidate, calls: nat, rounds: nat)
    requires rounds <= script.maxRepairs
    ensures LoopLedgers(AuditRounds(script, c, calls, rounds), TraceIds(c.traces))
    decreases script.maxRepairs - rounds
  {
    if Rejects(script.audits(rounds, c.answer)) && rounds < script.maxRepairs {
      RoundLedgers(script, c, calls, rounds, Generate(script, calls, 0));
    }
  }

  lemma {:induction false} RoundLedgers(script: Script, c: Candidate, calls: nat, rounds: nat, g: GenRun)
    requires rounds < script.maxRepairs && g == Generate(script, calls, 0)
    requires Rejects(script.audits(rounds, c.answer))
    ensures LoopLedgers(AuditRounds(script, c, calls, rounds), TraceIds(c.traces))
    decreases script.maxRepairs - rounds, 0
  {
    RoundFields(script, c, calls, rounds, g);
    match g.result
    case GenFailed(_) =>
    case Ready(next) =>
      var rest := AuditRounds(script, next, calls + g.calls, rounds + 1);
      ReadyIsLedgered(script, calls, 0);
      RoundsLedger(script, next, calls + g.calls, rounds + 1);
      RepairedLedgers(AuditRounds(script, c, calls, rounds), rounds + 1, g, rest, TraceIds(c.traces));
  }

  /** A stretch that ends with the answer kept, its invocations entered before. */
  predicate Keeps(acts: seq<Act>, stored: Stored) {
    EndsKeeping(acts, stored) && LedgeredBy(acts, stored.answer.provenance.invocationIds)
  }

  lemma {:induction false} CandidateKeeps(script: Script, c: Candidate, calls: nat, first: seq<Act>)
    requires script.retrieval.Retrieved? && FromCandidate(script, c, calls).end.Answered?
             && LedgeredBy(first, TraceIds(c.traces))
    ensures var p := FromCandidate(script, c, calls); Keeps(first + p.acts, p.end.stored)
  {
    var p, loop := FromCandidate(script, c, calls), AuditRounds(script, c, calls, 0);
    RoundsLedger(script, c, calls, 0);
    assert forall act :: act in first || act in loop.acts ==> act in first + p.acts;
    assert p.end.stored.answer.provenance.invocationIds == TraceIds(loop.verdict.candidate.traces);
  }

  lemma {:induction false} LedgeredWithin(first: seq<Act>, acts: seq<Act>, last: seq<Act>, ids: seq<Id>)
    requires LedgeredBy(acts, ids)
    ensures LedgeredBy(first + acts + last, ids)
  {
  }

  lemma {:induction false} Regroup(first: seq<Act>, second: seq<Act>, third: seq<Act>, stored: Stored)
    requires Keeps(first + second + third, stored)
    ensures Keeps(first + (second + third), stored)
  {
    assert first + second + third == first + (second + third);
  }

  lemma {:induction false} GenerationKeeps(script: Script)
    requires script.retrieval.Retrieved? && FromGeneration(script).end.Answered?
    ensures Keeps(FromGeneration(script).acts, FromGeneration(script).end.stored)
  {
    var g := Generate(script, 0, 0);
    var before := EnterActs(script) + g.acts;
    var rest := FromCandidate(script, g.result.candidate, g.calls);
    ReadyIsLedgered(script, 0, 0);
    GenerationFields(script, g, g.result, g.calls);
    LedgeredWithin(EnterActs(script), g.acts, AuditEntry(script), TraceIds(g.result.candidate.traces));
    CandidateKeeps(script, g.result.candidate, g.calls, before + AuditEntry(script));
    Regroup(before, AuditEntry(script), rest.acts, rest.end.stored);
  }

  /** An execution that answers ends by storing the answer, whose invocations it has entered before. */
  lemma {:induction false} ExecutionKeeps(script: Script)
    requires ExecutionPlan(script).end.Answered?
    ensures Keeps(ExecutionPlan(script).acts, ExecutionPlan(script).end.stored)
  {
    var p, rest := ExecutionPlan(script), FromGeneration(script);
    GenerationKeeps(script);
    var n := |p.acts| - |rest.acts|;
    assert p.acts[n..] == rest.acts;
    assert forall act :: act in rest.acts ==> act in p.acts;
  }

  lemma {:induction false} LedgerStays(s: Session, acts: seq<Act>, ids: seq<Id>)
    requires LedgeredBy(acts, ids)
    ensures forall id :: id in ids ==> id in Run(s, acts).work.invocations
  {
    var front, last := acts[..|acts| - 1], acts[|acts| - 1];
    assert acts == front + [last];
    if LedgeredBy(front, ids) { LedgerStays(s, front, ids); }
  }

  lemma {:induction false} KeptAtTheEnd(s: Session, acts: seq<Act>, stored: Stored)
    requires EndsKeeping(acts, stored)
    ensures var t := Run(s, acts); t.work.answer == Some(stored) && t.work.status == Completed && t.committed == t.work
  {
    var n := |acts|;
    var three, two := acts[..n - 1], acts[..n - 2];
    assert three[|three| - 1] == Move(Completed) && three[..|three| - 1] == two;
    assert two[|two| - 1] == Keep(stored);
    assert Run(s, three) == Apply(Run(s, two), Move(Completed));
    assert Run(s, two) == Apply(Run(s, two[..|two| - 1]), Keep(stored));
  }

  /** The committed rows of an execution that has answered: COMPLETED, with the answer, and with its invocations. */
  lemma {:induction false} AnsweredRows(script: Script, startVersion: int)
    requires ExecutionPlan(script).end.Answered?
    ensures var stored := ExecutionPlan(script).end.stored;
            var rows := Survives(script, startVersion, |ExecutionPlan(script).acts|);
            && rows.status == Completed && rows.answer == Some(stored)
            && forall id :: id in stored.answer.provenance.invocationIds ==> id in rows.invocations
  {
    var p := ExecutionPlan(script);
    ExecutionKeeps(script);
    assert p.acts[..|p.acts|] == p.acts;
    KeptAtTheEnd(Fresh(startVersion), p.acts, p.end.stored);
    LedgerStays(Fresh(startVersion), p.acts, p.end.stored.answer.provenance.invocationIds);
  }

  lemma {:induction false} DowngradeIsValid(a: GroundedAnswer, f: Findings)
    requires ValidAnswer(a)
    ensures ValidAnswer(Downgrade(a, f).0)
  {
  }

  /** The row of a run whose execution has committed `rows`. */
  function RunOf(head: Head, rows: Rows, asOf: Date, s: Settings): RunRow {
    RunRow(head, rows.status, rows.version, asOf, ManifestOf(s, rows.invocations))
  }

  /** What was stored under settings s replays under settings t as the response the first request got. */
  predicate Reproduced(
      head: Head, rows: Rows, asOf: Date, s: Settings, t: Settings, stored: Stored, traces: seq<Trace>, first: string,
      again: string)
    requires head.snapshotId.Some?
  {
    var run := RunOf(head, rows, asOf, s);
    var live := BuildResponse(run, first, head.snapshotId.value, stored.answer, stored.mode, stored.querySpec, false);
    var record := Persist(s, head, stored.answer, stored.mode, traces, stored.querySpec);
    && record.Some? && live.Some?
    && ReplayCompleted(t, head.tenantId, run, record, again) == Replayed(live.value.(idempotentReplay := true))
  }

  lemma {:induction false} AnswerIsReproduced(
      head: Head, rows: Rows, asOf: Date, s: Settings, t: Settings, stored: Stored, traces: seq<Trace>,
      question: string)
    requires head.simpleQa && head.snapshotId.Some? && rows.status == Completed && SameContract(s, t)
    requires ProvenanceOk(StampOf(head, s), stored.answer, traces) && Canonical(stored.querySpec).Some?
    requires ValidAnswer(stored.answer) && stored.mode in MODES
    requires forall id :: id in TraceIds(traces) ==> id in rows.invocations
    ensures Reproduced(head, rows, asOf, s, t, stored, traces, question, question)
  {
    RoundTrip(s, t, RunOf(head, rows, asOf, s), rows.invocations, stored.answer, stored.mode, traces, stored.querySpec,
        question);
  }

  /** Every artifact the generator returns satisfies its own validator and names a known mode. */
  ghost predicate WellMade(script: Script) {
    forall k: nat :: script.generations(k).Generated?
        ==> ValidAnswer(script.generations(k).answer) && script.generations(k).mode in MODES
  }

  lemma {:induction false} StoredIsWellMade(script: Script, stored: Stored, n: nat, k: nat)
    requires Justified(script, stored, n, k) && WellMade(script)
    ensures ValidAnswer(stored.answer) && stored.mode in MODES
    ensures ProvenanceOk(script.stamp, stored.answer, script.generations(k).traces)
    ensures stored.answer.provenance.invocationIds == TraceIds(script.generations(k).traces)
  {
    ProvenanceExactly(script.stamp, stored.answer, script.generations(k).traces);
    DowngradeIsValid(script.generations(k).answer, script.audits(n, script.generations(k).answer).findings);
  }

  lemma {:induction false} StoredSpecIsValid(script: Script)
    requires ExecutionPlan(script).end.Answered?
    ensures script.retrieval.Retrieved? && script.retrieval.specValid
    ensures ExecutionPlan(script).end.stored.querySpec == script.retrieval.querySpec
  {
  }

  /** A later request u under settings t gets the live response as a replay if it asks the same as the first request q
      under the same settings s, and a conflict if not. */
  predicate Agrees(
      head: Head, rows: Rows, asOf: Date, s: Settings, q: Query, t: Settings, u: Query, stored: Stored,
      traces: seq<Trace>)
    requires head.snapshotId.Some?
  {
    var same := Plain(s) == Plain(t) && SameQuery(q, u);
    && Existing(head, rows, CurrentHash(t, u), LegacyHash(t, u)) == (if same then Replay else Conflict)
    && (same ==> Reproduced(head, rows, asOf, s, t, stored, traces, q.question, u.question))
  }

  lemma {:induction false} StoredAgrees(
      script: Script, stored: Stored, traces: seq<Trace>, rows: Rows, startVersion: int, head: Head, asOf: Date,
      s: Settings, q: Query, t: Settings, u: Query)
    requires ValidAnswer(stored.answer) && stored.mode in MODES && ProvenanceOk(script.stamp, stored.answer, traces)
    requires script.stamp == StampOf(head, s) && Canonical(stored.querySpec).Some?
    requires MadeBy(head, s, q) && head.mark == CurrentMark && Good(rows, startVersion) && rows.status == Completed
    requires forall id :: id in stored.answer.provenance.invocationIds ==> id in rows.invocations
    ensures Agrees(head, rows, asOf, s, q, t, u, stored, traces)
  {
    OnlyTheSameRequestIsLetThrough(head, rows, startVersion, s, q, t, u);
    HashTellsApart(s, q, None, t, u, None);
    if Plain(s) == Plain(t) && SameQuery(q, u) {
      AnswerIsReproduced(head, rows, asOf, s, t, stored, traces, q.question);
    }
  }

  lemma {:induction false} AnswerIsWellMade(script: Script)
    requires ExecutionPlan(script).end.Answered? && WellMade(script)
    ensures var p := ExecutionPlan(script);
            && p.calls > 0 && script.generations(p.calls - 1).Generated?
            && ValidAnswer(p.end.stored.answer) && p.end.stored.mode in MODES
            && ProvenanceOk(script.stamp, p.end.stored.answer, script.generations(p.calls - 1).traces)
            && p.end.stored.answer.provenance.invocationIds == TraceIds(script.generations(p.calls - 1).traces)
  {
    var p := ExecutionPlan(script);
    AnswerHasPassed(script);
    StoredIsWellMade(script, p.end.stored, p.audits - 1, p.calls - 1);
  }

  /** Answer, then ask again: if every artifact the generator returns is well formed, then after any execution that
      answers, whose last generator call left `traces`, every later request gets what it should. */
  lemma {:induction false} AskingAgainAgrees(
      script: Script, startVersion: int, head: Head, asOf: Date, s: Settings, q: Query, t: Settings, u: Query)
    requires ExecutionPlan(script).end.Answered? && WellMade(script)
    requires MadeBy(head, s, q) && head.mark == CurrentMark && script.stamp == StampOf(head, s)
    requires script.retrieval.Retrieved? ==> script.retrieval.specValid == Canonical(script.retrieval.querySpec).Some?
    ensures var p, rows := ExecutionPlan(script), Survives(script, startVersion, |ExecutionPlan(script).acts|);
            && p.calls > 0 && script.generations(p.calls - 1).Generated? && rows.answer == Some(p.end.stored)
            && Agrees(head, rows, asOf, s, q, t, u, p.end.stored, script.generations(p.calls - 1).traces)
  {
    var p := ExecutionPlan(script);
    AnswerIsWellMade(script);
    AnsweredRows(script, startVersion);
    EveryStopIsGood(script, startVersion, |p.acts|);
    StoredSpecIsValid(script);
    StoredAgrees(script, p.end.stored, script.generations(p.calls - 1).traces,
                 Survives(script, startVersion, |p.acts|), startVersion, head, asOf, s, q, t, u);
  }
}
