/** The deterministic evidence auditor (src/creditlens/agents/auditor.py, EvidenceAuditor.verify):
    every evidence object is resolved against the database, then every claim of every artifact is
    accepted, rejected or sent to human review. */
module EvidenceAuditor {
  import opened Common
  import opened Contracts

  type Instant = int

  // ---------------------------------------------------------------- database rows

  datatype CaseRow = CaseRow(tenantId: Id, borrowerEntityId: Id)
  datatype VerificationStatus = UNVERIFIED | VERIFIED | REJECTED
  datatype FactRow = FactRow(
    tenantId: Id, caseId: Option<Id>, entityId: Id, availableAt: Instant,
    verification: VerificationStatus, supersedes: Option<Id>)
  datatype SectionRow = SectionRow(
    tenantId: Id, documentVersionId: Id, parseRunId: Id, textHash: string, pageStart: int, pageEnd: int)
  datatype VersionRow = VersionRow(
    tenantId: Id, validFrom: Option<Date>, validTo: Option<Date>, availableAt: Option<Instant>,
    activeParseRunId: Option<Id>)
  datatype ParseRunRow = ParseRunRow(tenantId: Id, documentVersionId: Id, revoked: bool)

  /** Tables keyed by primary key; caseDocuments holds (case, document version) bindings. */
  datatype Tables = Tables(
    cases: map<Id, CaseRow>, facts: map<Id, FactRow>, sections: map<Id, SectionRow>,
    versions: map<Id, VersionRow>, parseRuns: map<Id, ParseRunRow>, caseDocuments: set<(Id, Id)>)

  datatype Trusted = Trusted(tenantId: Id, caseId: Id, asOfDate: Date, cutoff: Instant)
  datatype Snapshot = Snapshot(parseRunIds: seq<Id>, factIds: seq<Id>)
  datatype Context = Context(
    db: Tables, trusted: Trusted, snapshot: Option<Snapshot>, allowDocumentNumeric: bool)

  datatype LocatorField = SECTION_ID | DOCUMENT_VERSION_ID | PARSE_RUN_ID | PAGE_NUMBER | CONTENT_HASH

  datatype AuditCode =
    | MISSING_CALCULATION_ID | CALCULATION_SOURCE_MISMATCH | CALCULATION_NOT_FOUND
    | CALCULATION_CONTENT_HASH_MISMATCH | CALCULATION_REPLAY_FAILED
    | MISSING_FACT_ID | FACT_SOURCE_MISMATCH | FACT_NOT_FOUND | FACT_CASE_MISMATCH
    | FACT_ENTITY_MISMATCH | FACT_NOT_AVAILABLE_AT_CUTOFF | FACT_REJECTED | FACT_NOT_IN_SNAPSHOT
    | MISSING_TABLE_CELL_LOCATOR | MISSING_DOCUMENT_LOCATOR(field: LocatorField)
    | SECTION_NOT_FOUND | CONTENT_HASH_MISMATCH | SOURCE_SECTION_MISMATCH | DOCUMENT_VERSION_MISMATCH
    | PARSE_RUN_MISMATCH | PAGE_OUTSIDE_SECTION | DOCUMENT_VERSION_NOT_FOUND | OUT_OF_EFFECTIVE_DATE
    | NOT_AVAILABLE_AT_CUTOFF | DOCUMENT_NOT_BOUND_TO_CASE | PARSE_RUN_NOT_FOUND
    | PARSE_RUN_VERSION_MISMATCH | PARSE_RUN_REVOKED | PARSE_RUN_NOT_IN_SNAPSHOT
    | ACL_DENIED | SNAPSHOT_REQUIRED
    | CASE_VALIDATION_FAILED | GROUNDING_EXECUTION_FAILED | CORE_AGENT_FAILED(producer: string)
    | CONTRACT_VIOLATION | INVALID_SUPPORTING_EVIDENCE | INVALID_OPPOSING_EVIDENCE | REPLAY_FAILED
    | GROUNDING_STATUS_MATRIX_MISMATCH | EVIDENCE_NOT_IN_PACKED_CONTEXT | ARTIFACT_EVIDENCE_NOT_EXACTLY_CITED
    | CITATION_NOT_IN_PACKED_CONTEXT | NUMERIC_TOKEN_NOT_IN_CITATION
    | POLARITY_CONFLICT_WITH_CITATION | THRESHOLD_DIRECTION_CONFLICT_WITH_CITATION
    | STRUCTURAL_COVERAGE_INSUFFICIENT | ANSWER_STATUS_MISMATCH | ABSTENTION_MUST_NOT_HAVE_DIRECT_ANSWER
    | ABSTENTION_REASON_REQUIRED | NEEDS_REVIEW_MUST_NOT_HAVE_DIRECT_ANSWER
    | DIRECT_ANSWER_NOT_EXACT_CLAIM_RENDERING | DUPLICATE_CLAIM_ID

  // ---------------------------------------------------------------- what sound evidence is

  /** calculations_by_id: a later entry replaces an earlier one with the same id. */
  function CalculationById(calculations: seq<Calculation>, id: Id): Option<Calculation> {
    if calculations == [] then None
    else if calculations[|calculations| - 1].calculationId == id then Some(calculations[|calculations| - 1])
    else CalculationById(calculations[..|calculations| - 1], id)
  }

  function ReplayFailed(calculations: seq<Calculation>): set<Id> {
    set c | c in calculations && !c.replays :: c.calculationId
  }

  predicate HasDocumentLocator(e: EvidenceRef) {
    e.sectionId.Some? || e.documentVersionId.Some? || e.parseRunId.Some? || e.pageNumber.Some?
  }

  predicate IsDocumentEvidence(e: EvidenceRef) {
    e.evidenceType == DOCUMENT_SPAN || (e.evidenceType == TABLE_CELL && HasDocumentLocator(e))
  }

  predicate LocatorComplete(e: EvidenceRef) {
    e.sectionId.Some? && e.documentVersionId.Some? && e.parseRunId.Some? && e.pageNumber.Some? && e.contentHash != ""
  }

  predicate CalculationPasses(calculations: seq<Calculation>, e: EvidenceRef) {
    && e.calculationId.Some?
    && e.sourceId == e.calculationId.value
    && CalculationById(calculations, e.calculationId.value).Some?
    && CalculationById(calculations, e.calculationId.value).value.traceHash == e.contentHash
    && e.calculationId.value !in ReplayFailed(calculations)
  }

  /** The row checks on a financial fact: tenant, case scope, borrower, cutoff, not rejected. */
  predicate FactRowPasses(ctx: Context, fact: FactRow) {
    && ctx.trusted.caseId in ctx.db.cases
    && fact.tenantId == ctx.trusted.tenantId
    && (fact.caseId.Some? ==> fact.caseId.value == ctx.trusted.caseId)
    && fact.entityId == ctx.db.cases[ctx.trusted.caseId].borrowerEntityId
    && fact.availableAt <= ctx.trusted.cutoff
    && fact.verification != REJECTED
  }

  predicate FactPasses(ctx: Context, e: EvidenceRef) {
    && e.factId.Some?
    && e.sourceId == e.factId.value
    && e.factId.value in ctx.db.facts
    && FactRowPasses(ctx, ctx.db.facts[e.factId.value])
    && ctx.snapshot.Some?
    && e.factId.value in ctx.snapshot.value.factIds
  }

  /** Validity window [validFrom, validTo) and availability by the cutoff. */
  predicate InForce(version: VersionRow, trusted: Trusted) {
    && (version.validFrom.Some? ==> version.validFrom.value <= trusted.asOfDate)
    && (version.validTo.Some? ==> trusted.asOfDate < version.validTo.value)
    && (version.availableAt.Some? ==> version.availableAt.value <= trusted.cutoff)
  }

  /** The citation matches the stored section: text, tenant, ids, and a page inside it. */
  predicate SectionAgrees(ctx: Context, e: EvidenceRef)
    requires LocatorComplete(e) && e.sectionId.value in ctx.db.sections
  {
    var section := ctx.db.sections[e.sectionId.value];
    && section.textHash == e.contentHash
    && section.tenantId == ctx.trusted.tenantId
    && e.sourceId == e.sectionId.value
    && e.documentVersionId.value == section.documentVersionId
    && e.parseRunId.value == section.parseRunId
    && section.pageStart <= e.pageNumber.value <= section.pageEnd
  }

  /** The cited document version belongs to the tenant and the case and is in force. */
  predicate VersionAgrees(ctx: Context, e: EvidenceRef)
    requires LocatorComplete(e)
  {
    && e.documentVersionId.value in ctx.db.versions
    && var version := ctx.db.versions[e.documentVersionId.value];
    && version.tenantId == ctx.trusted.tenantId
    && InForce(version, ctx.trusted)
    && (ctx.trusted.caseId, e.documentVersionId.value) in ctx.db.caseDocuments
  }

  /** The cited parse run is this version's, is not revoked, and is frozen in the snapshot. */
  predicate ParseRunAgrees(ctx: Context, e: EvidenceRef)
    requires LocatorComplete(e)
  {
    && e.parseRunId.value in ctx.db.parseRuns
    && var run := ctx.db.parseRuns[e.parseRunId.value];
    && run.tenantId == ctx.trusted.tenantId
    && run.documentVersionId == e.documentVersionId.value
    && !run.revoked
    && ctx.snapshot.Some?
    && e.parseRunId.value in ctx.snapshot.value.parseRunIds
  }

  predicate DocumentPasses(ctx: Context, e: EvidenceRef) {
    && LocatorComplete(e)
    && e.sectionId.value in ctx.db.sections
    && SectionAgrees(ctx, e) && VersionAgrees(ctx, e) && ParseRunAgrees(ctx, e)
  }

  /** The full check for an evidence object of each type. Policy rules are not looked up. */
  predicate EvidencePasses(ctx: Context, calculations: seq<Calculation>, e: EvidenceRef) {
    match e.evidenceType
    case CALCULATION => CalculationPasses(calculations, e)
    case SQL_FACT => FactPasses(ctx, e)
    case DOCUMENT_SPAN => DocumentPasses(ctx, e)
    case TABLE_CELL => DocumentPasses(ctx, e)
    case POLICY_RULE => true
  }

  // ---------------------------------------------------------------- the codes recorded against evidence

  function When(due: bool, code: AuditCode): set<AuditCode> {
    if due then {code} else {}
  }

  function CalculationCodes(calculations: seq<Calculation>, e: EvidenceRef): (codes: set<AuditCode>)
    ensures codes == {} <==> CalculationPasses(calculations, e)
  {
    if e.calculationId.None? then {MISSING_CALCULATION_ID}
    else
      var id := e.calculationId.value;
      var calculation := CalculationById(calculations, id);
      When(e.sourceId != id, CALCULATION_SOURCE_MISMATCH)
      + When(calculation.None?, CALCULATION_NOT_FOUND)
      + When(calculation.Some? && e.contentHash != calculation.value.traceHash, CALCULATION_CONTENT_HASH_MISMATCH)
      + When(calculation.Some? && id in ReplayFailed(calculations), CALCULATION_REPLAY_FAILED)
  }

  function FactRowCodes(ctx: Context, fact: FactRow): (codes: set<AuditCode>)
    requires ctx.trusted.caseId in ctx.db.cases
    ensures codes == {} <==> FactRowPasses(ctx, fact)
  {
    When(fact.tenantId != ctx.trusted.tenantId, ACL_DENIED)
    + When(fact.caseId.Some? && fact.caseId.value != ctx.trusted.caseId, FACT_CASE_MISMATCH)
    + When(fact.entityId != ctx.db.cases[ctx.trusted.caseId].borrowerEntityId, FACT_ENTITY_MISMATCH)
    + When(fact.availableAt > ctx.trusted.cutoff, FACT_NOT_AVAILABLE_AT_CUTOFF)
    + When(fact.verification == REJECTED, FACT_REJECTED)
  }

  function FactCodes(ctx: Context, e: EvidenceRef): (codes: set<AuditCode>)
    requires ctx.trusted.caseId in ctx.db.cases
    ensures codes == {} <==> FactPasses(ctx, e)
  {
    if e.factId.None? then {MISSING_FACT_ID}
    else
      var id := e.factId.value;
      When(e.sourceId != id, FACT_SOURCE_MISMATCH)
      + (if id in ctx.db.facts then FactRowCodes(ctx, ctx.db.facts[id]) else {FACT_NOT_FOUND})
      + When(ctx.snapshot.None?, SNAPSHOT_REQUIRED)
      + When(ctx.snapshot.Some? && id !in ctx.snapshot.value.factIds, FACT_NOT_IN_SNAPSHOT)
  }

  function LocatorCodes(e: EvidenceRef): (codes: set<AuditCode>)
    ensures codes == {} <==> LocatorComplete(e)
  {
    When(e.sectionId.None?, MISSING_DOCUMENT_LOCATOR(SECTION_ID))
    + When(e.documentVersionId.None?, MISSING_DOCUMENT_LOCATOR(DOCUMENT_VERSION_ID))
    + When(e.parseRunId.None?, MISSING_DOCUMENT_LOCATOR(PARSE_RUN_ID))
    + When(e.pageNumber.None?, MISSING_DOCUMENT_LOCATOR(PAGE_NUMBER))
    + When(e.contentHash == "", MISSING_DOCUMENT_LOCATOR(CONTENT_HASH))
  }

  function SectionCodes(ctx: Context, e: EvidenceRef): (codes: set<AuditCode>)
    requires LocatorComplete(e) && e.sectionId.value in ctx.db.sections
    ensures codes == {} <==> SectionAgrees(ctx, e)
  {
    var section := ctx.db.sections[e.sectionId.value];
    When(section.textHash != e.contentHash, CONTENT_HASH_MISMATCH)
    + When(section.tenantId != ctx.trusted.tenantId, ACL_DENIED)
    + When(e.sourceId != e.sectionId.value, SOURCE_SECTION_MISMATCH)
    + When(e.documentVersionId.value != section.documentVersionId, DOCUMENT_VERSION_MISMATCH)
    + When(e.parseRunId.value != section.parseRunId, PARSE_RUN_MISMATCH)
    + When(!(section.pageStart <= e.pageNumber.value <= section.pageEnd), PAGE_OUTSIDE_SECTION)
  }

  function VersionCodes(ctx: Context, e: EvidenceRef): (codes: set<AuditCode>)
    requires LocatorComplete(e)
    ensures codes == {} <==> VersionAgrees(ctx, e)
  {
    var id := e.documentVersionId.value;
    if id !in ctx.db.versions then {DOCUMENT_VERSION_NOT_FOUND}
    else
      var version := ctx.db.versions[id];
      When(version.tenantId != ctx.trusted.tenantId, ACL_DENIED)
      + When((version.validFrom.Some? && ctx.trusted.asOfDate < version.validFrom.value)
             || (version.validTo.Some? && ctx.trusted.asOfDate >= version.validTo.value), OUT_OF_EFFECTIVE_DATE)
      + When(version.availableAt.Some? && version.availableAt.value > ctx.trusted.cutoff, NOT_AVAILABLE_AT_CUTOFF)
      + When((ctx.trusted.caseId, id) !in ctx.db.caseDocuments, DOCUMENT_NOT_BOUND_TO_CASE)
  }

  function ParseRunCodes(ctx: Context, e: EvidenceRef): (codes: set<AuditCode>)
    requires LocatorComplete(e)
    ensures codes == {} <==> ParseRunAgrees(ctx, e)
  {
    var id := e.parseRunId.value;
    (if id !in ctx.db.parseRuns then {PARSE_RUN_NOT_FOUND}
     else
       var run := ctx.db.parseRuns[id];
       When(run.tenantId != ctx.trusted.tenantId, ACL_DENIED)
       + When(run.documentVersionId != e.documentVersionId.value, PARSE_RUN_VERSION_MISMATCH)
       + When(run.revoked, PARSE_RUN_REVOKED))
    + When(ctx.snapshot.None?, SNAPSHOT_REQUIRED)
    + When(ctx.snapshot.Some? && id !in ctx.snapshot.value.parseRunIds, PARSE_RUN_NOT_IN_SNAPSHOT)
  }

  function DocumentCodes(ctx: Context, e: EvidenceRef): (codes: set<AuditCode>)
    ensures codes == {} <==> DocumentPasses(ctx, e)
  {
    if !LocatorComplete(e) then LocatorCodes(e)
    else if e.sectionId.value !in ctx.db.sections then {SECTION_NOT_FOUND}
    else SectionCodes(ctx, e) + VersionCodes(ctx, e) + ParseRunCodes(ctx, e)
  }

  /** All codes recorded against one evidence object: none exactly when its full check passes. */
  function EvidenceCodes(ctx: Context, calculations: seq<Calculation>, e: EvidenceRef): (codes: set<AuditCode>)
    requires ctx.trusted.caseId in ctx.db.cases
    ensures codes == {} <==> EvidencePasses(ctx, calculations, e)
  {
    if e.evidenceType == CALCULATION then CalculationCodes(calculations, e)
    else if e.evidenceType == SQL_FACT then FactCodes(ctx, e)
    else if e.evidenceType == TABLE_CELL && !HasDocumentLocator(e) then {MISSING_TABLE_CELL_LOCATOR}
    else if IsDocumentEvidence(e) then DocumentCodes(ctx, e)
    else {}
  }
}
