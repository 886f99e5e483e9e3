/** Structured artifacts exchanged between agents and the deterministic contract
    they must meet (src/creditlens/agents/contracts.py). */
module Contracts {
  import opened Common

  type Date = int

  datatype EvidenceType = DOCUMENT_SPAN | TABLE_CELL | SQL_FACT | CALCULATION | POLICY_RULE

  datatype EvidenceRef = EvidenceRef(
    evidenceId: Id,
    evidenceType: EvidenceType,
    sourceId: Id,
    contentHash: string,
    documentVersionId: Option<Id>,
    sectionId: Option<Id>,
    parseRunId: Option<Id>,
    pageNumber: Option<int>,
    factId: Option<Id>,
    calculationId: Option<Id>)

  datatype Category =
    | ELIGIBILITY | FINANCIAL | CASH_FLOW | CONCENTRATION
    | RELATED_PARTY | DATA_CONFLICT | MISSING_MATERIAL | EXCEPTION

  datatype Verdict = SUPPORTED | PARTIALLY_SUPPORTED | CONTRADICTED | INSUFFICIENT_EVIDENCE

  /** Statement text with the lexical facts the contract looks up in it: whether it holds a
      digit, whether it names a numeric measure, and which forbidden determinations it contains. */
  datatype Statement = Statement(text: string, hasDigit: bool, mentionsNumeric: bool, forbidden: set<string>)

  datatype AgentClaim = AgentClaim(
    claimId: Id,
    category: Category,
    statement: Statement,
    verdict: Verdict,
    supporting: seq<Id>,
    opposing: seq<Id>,
    calculations: seq<Id>,
    asOfDate: Date,
    uncertaintyReason: Option<string>)

  /** A calculation trace; `replays` says whether recomputing the formula reproduces it. */
  datatype Calculation = Calculation(calculationId: Id, traceHash: string, replays: bool)

  datatype ExecutionStatus = SUCCESS | PARTIAL | DEGRADED | INSUFFICIENT | FAILED

  datatype AgentArtifact = AgentArtifact(
    producer: string,
    executionStatus: ExecutionStatus,
    claims: seq<AgentClaim>,
    evidence: seq<EvidenceRef>,
    calculations: seq<Calculation>,
    grounded: bool)

  datatype ViolationCode =
    | SUPPORTED_WITHOUT_EVIDENCE
    | UNKNOWN_EVIDENCE(evidence: Id)
    | UNKNOWN_CALCULATION(calculation: Id)
    | MISSING_UNCERTAINTY_REASON
    | NUMERIC_CLAIM_WITHOUT_FACT
    | AS_OF_DATE_MISMATCH
    | FORBIDDEN_DETERMINATION(phrase: string)

  const BANNED_PHRASES: seq<string> := ["欺诈", "拒贷", "拒绝贷款", "批准贷款"]

  datatype Violation = Violation(claimId: Id, code: ViolationCode)

  function EvidenceIds(evidence: seq<EvidenceRef>): set<Id> {
    set e | e in evidence :: e.evidenceId
  }

  function CalculationIds(calculations: seq<Calculation>): set<Id> {
    set c | c in calculations :: c.calculationId
  }

  /** Some evidence object cited in support has one of the given types. */
  predicate BackedBy(artifact: AgentArtifact, claim: AgentClaim, types: set<EvidenceType>) {
    exists e :: e in artifact.evidence && e.evidenceId in claim.supporting && e.evidenceType in types
  }

  predicate IsNumericClaim(claim: AgentClaim) {
    claim.statement.hasDigit && claim.statement.mentionsNumeric
    && claim.category in {FINANCIAL, CASH_FLOW} && claim.calculations == []
  }

  predicate NumberIsBacked(artifact: AgentArtifact, claim: AgentClaim, allowDocumentNumeric: bool) {
    BackedBy(artifact, claim, {SQL_FACT, CALCULATION, TABLE_CELL})
    || (allowDocumentNumeric && artifact.grounded && BackedBy(artifact, claim, {DOCUMENT_SPAN}))
  }

  /** What the contract asks of one claim, clause by clause. */
  predicate MeetsContract(artifact: AgentArtifact, claim: AgentClaim, asOf: Date, allowDocumentNumeric: bool) {
    && (claim.verdict == SUPPORTED ==> claim.supporting != [])
    && (forall id :: id in claim.supporting + claim.opposing ==> id in EvidenceIds(artifact.evidence))
    && (forall id :: id in claim.calculations ==> id in CalculationIds(artifact.calculations))
    && (claim.verdict == INSUFFICIENT_EVIDENCE ==> Truthy(claim.uncertaintyReason))
    && (IsNumericClaim(claim) ==> NumberIsBacked(artifact, claim, allowDocumentNumeric))
    && claim.asOfDate == asOf
    && (forall phrase :: phrase in BANNED_PHRASES ==> phrase !in claim.statement.forbidden)
  }

  /** The claim ids named by a violation: what the auditor reads out of the violation strings. */
  function Blamed(violations: seq<Violation>): set<Id> {
    set v | v in violations :: v.claimId
  }

  /** When each violation code is due for a claim. */
  predicate Breaks(
      code: ViolationCode, artifact: AgentArtifact, claim: AgentClaim, asOf: Date, allowDocumentNumeric: bool) {
    match code
    case SUPPORTED_WITHOUT_EVIDENCE => claim.verdict == SUPPORTED && claim.supporting == []
    case UNKNOWN_EVIDENCE(id) => id in claim.supporting + claim.opposing && id !in EvidenceIds(artifact.evidence)
    case UNKNOWN_CALCULATION(id) => id in claim.calculations && id !in CalculationIds(artifact.calculations)
    case MISSING_UNCERTAINTY_REASON => claim.verdict == INSUFFICIENT_EVIDENCE && !Truthy(claim.uncertaintyReason)
    case NUMERIC_CLAIM_WITHOUT_FACT => IsNumericClaim(claim) && !NumberIsBacked(artifact, claim, allowDocumentNumeric)
    case AS_OF_DATE_MISMATCH => claim.asOfDate != asOf
    case FORBIDDEN_DETERMINATION(phrase) => phrase in BANNED_PHRASES && phrase in claim.statement.forbidden
  }

  /** One claim's violations, in the order they are reported: exactly the codes that are due. */
  method CheckClaim(artifact: AgentArtifact, claim: AgentClaim, asOf: Date, allowDocumentNumeric: bool)
    returns (violations: seq<Violation>)
    ensures forall v :: v in violations <==>
              (v.claimId == claim.claimId && Breaks(v.code, artifact, claim, asOf, allowDocumentNumeric))
  {
    var me := claim.claimId;
    violations := [];
    if claim.verdict == SUPPORTED && claim.supporting == [] {
      violations := violations + [Violation(me, SUPPORTED_WITHOUT_EVIDENCE)];
    }
    var cited := claim.supporting + claim.opposing;
    for i := 0 to |cited|
      invariant forall v :: v in violations <==>
                  (v.claimId == me && Breaks(v.code, artifact, claim, asOf, allowDocumentNumeric)
                   && (v.code.SUPPORTED_WITHOUT_EVIDENCE?
                         || (v.code.UNKNOWN_EVIDENCE? && v.code.evidence in cited[..i])))
    {
      if cited[i] !in EvidenceIds(artifact.evidence) {
        violations := violations + [Violation(me, UNKNOWN_EVIDENCE(cited[i]))];
      }
    }
    for i := 0 to |claim.calculations|
      invariant forall v :: v in violations <==>
                  (v.claimId == me && Breaks(v.code, artifact, claim, asOf, allowDocumentNumeric)
                   && (v.code.SUPPORTED_WITHOUT_EVIDENCE? || v.code.UNKNOWN_EVIDENCE?
                       || (v.code.UNKNOWN_CALCULATION? && v.code.calculation in claim.calculations[..i])))
    {
      if claim.calculations[i] !in CalculationIds(artifact.calculations) {
        violations := violations + [Violation(me, UNKNOWN_CALCULATION(claim.calculations[i]))];
      }
    }
    if claim.verdict == INSUFFICIENT_EVIDENCE && !Truthy(claim.uncertaintyReason) {
      violations := violations + [Violation(me, MISSING_UNCERTAINTY_REASON)];
    }
    if IsNumericClaim(claim) && !NumberIsBacked(artifact, claim, allowDocumentNumeric) {
      violations := violations + [Violation(me, NUMERIC_CLAIM_WITHOUT_FACT)];
    }
    if claim.asOfDate != asOf {
      violations := violations + [Violation(me, AS_OF_DATE_MISMATCH)];
    }
    for i := 0 to |BANNED_PHRASES|
      invariant forall v :: v in violations <==>
                  (v.claimId == me && Breaks(v.code, artifact, claim, asOf, allowDocumentNumeric)
                   && (v.code.FORBIDDEN_DETERMINATION? ==> v.code.phrase in BANNED_PHRASES[..i]))
    {
      if BANNED_PHRASES[i] in claim.statement.forbidden {
        violations := violations + [Violation(me, FORBIDDEN_DETERMINATION(BANNED_PHRASES[i]))];
      }
    }
  }

  /** The clauses of MeetsContract are the violation codes, one by one. */
  lemma {:induction false} ContractIsNoCodeDue(
      artifact: AgentArtifact, claim: AgentClaim, asOf: Date, allowDocumentNumeric: bool)
    ensures MeetsContract(artifact, claim, asOf, allowDocumentNumeric)
       <==> forall code :: !Breaks(code, artifact, claim, asOf, allowDocumentNumeric)
  {
    if forall code :: !Breaks(code, artifact, claim, asOf, allowDocumentNumeric) {
      assert !Breaks(SUPPORTED_WITHOUT_EVIDENCE, artifact, claim, asOf, allowDocumentNumeric);
      assert !Breaks(MISSING_UNCERTAINTY_REASON, artifact, claim, asOf, allowDocumentNumeric);
      assert !Breaks(NUMERIC_CLAIM_WITHOUT_FACT, artifact, claim, asOf, allowDocumentNumeric);
      assert !Breaks(AS_OF_DATE_MISMATCH, artifact, claim, asOf, allowDocumentNumeric);
      forall id | id in claim.supporting + claim.opposing ensures id in EvidenceIds(artifact.evidence) {
        assert !Breaks(UNKNOWN_EVIDENCE(id), artifact, claim, asOf, allowDocumentNumeric);
      }
      forall id | id in claim.calculations ensures id in CalculationIds(artifact.calculations) {
        assert !Breaks(UNKNOWN_CALCULATION(id), artifact, claim, asOf, allowDocumentNumeric);
      }
      forall phrase | phrase in BANNED_PHRASES ensures phrase !in claim.statement.forbidden {
        assert !Breaks(FORBIDDEN_DETERMINATION(phrase), artifact, claim, asOf, allowDocumentNumeric);
      }
    }
  }

  /** validate_artifact_contract: a claim is blamed exactly when some claim with its id breaks the contract. */
  method ValidateArtifactContract(artifact: AgentArtifact, asOf: Date, allowDocumentNumeric: bool)
    returns (ok: bool, violations: seq<Violation>)
    ensures ok <==> forall c :: c in artifact.claims ==> MeetsContract(artifact, c, asOf, allowDocumentNumeric)
    ensures ok <==> violations == []
    ensures Blamed(violations) == BlamedIds(artifact, asOf, allowDocumentNumeric)
  {
    violations := [];
    for i := 0 to |artifact.claims|
      invariant forall id :: id in Blamed(violations) <==>
          exists k :: 0 <= k < i && artifact.claims[k].claimId == id
                      && !MeetsContract(artifact, artifact.claims[k], asOf, allowDocumentNumeric)
    {
      var before := violations;
      var found := CheckClaim(artifact, artifact.claims[i], asOf, allowDocumentNumeric);
      violations := violations + found;
      assert Blamed(violations) == Blamed(before) + Blamed(found);
      ContractIsNoCodeDue(artifact, artifact.claims[i], asOf, allowDocumentNumeric);
      assert Blamed(found) == if found == [] then {} else {artifact.claims[i].claimId} by {
        if found != [] { assert found[0] in found; }
      }
      if code :| Breaks(code, artifact, artifact.claims[i], asOf, allowDocumentNumeric) {
        assert Violation(artifact.claims[i].claimId, code) in found;
      }
    }
    ok := violations == [];
    if !ok { assert violations[0].claimId in Blamed(violations); }
    forall c | c in artifact.claims && !MeetsContract(artifact, c, asOf, allowDocumentNumeric)
      ensures c.claimId in Blamed(violations)
    {
      var k :| 0 <= k < |artifact.claims| && artifact.claims[k] == c;
    }
  }

  /** The ids of the claims that break the contract. */
  function BlamedIds(artifact: AgentArtifact, asOf: Date, allowDocumentNumeric: bool): set<Id> {
    set c | c in artifact.claims && !MeetsContract(artifact, c, asOf, allowDocumentNumeric) :: c.claimId
  }

  // ---------------------------------------------------------------- grounded answers

  datatype AnswerStatus = ANSWERED | ABSTAINED | NEEDS_REVIEW

  datatype RefusalReason =
    | INSUFFICIENT_EVIDENCE_REASON | UNSPECIFIED_REFUSAL | MISSING_PERSONAL_CREDIT | MISSING_EXTERNAL_CREDIT
    | MISSING_BANK_STATEMENTS | PRIVACY_AND_MISSING_EVIDENCE | SENSITIVE_DATA_UNAVAILABLE | MISSING_PERSONAL_ASSETS
    | MISSING_FUTURE_DATA | MISSING_CREDIT_REPORT | NOT_APPLICABLE_NON_PUBLIC_COMPANY | MISSING_MARKET_DATA
    | MISSING_CORPORATE_IDENTITY_DATA | MISSING_FINANCIAL_DATA

  datatype Lifecycle = CREATED | VALIDATED | LIFECYCLE_VERIFIED

  /** Server-owned identity of an answer artifact. */
  datatype Provenance = Provenance(
    artifactId: Id, runId: Id, taskId: string, contractVersion: string, promptVersion: string,
    lifecycle: Lifecycle, inputHash: string, invocationIds: seq<Id>)

  datatype GroundedAnswer = GroundedAnswer(
    base: AgentArtifact,
    provenance: Provenance,
    answerStatus: AnswerStatus,
    directAnswer: Option<string>,
    missingInformation: seq<string>,
    conflicts: seq<string>,
    abstentionReason: Option<string>,
    refusalReason: Option<RefusalReason>)

  function ExecutionStatusFor(status: AnswerStatus): ExecutionStatus {
    match status
    case ANSWERED => SUCCESS
    case NEEDS_REVIEW => PARTIAL
    case ABSTAINED => INSUFFICIENT
  }

  /** GroundedAnswerArtifact.validate_answer_state. */
  predicate ValidAnswer(a: GroundedAnswer) {
    && a.base.grounded
    && a.base.executionStatus == ExecutionStatusFor(a.answerStatus)
    && (if a.answerStatus == ANSWERED then Truthy(a.directAnswer) && a.base.claims != [] else a.directAnswer.None?)
    && (a.answerStatus == ABSTAINED ==> Truthy(a.abstentionReason))
    && (a.answerStatus == ABSTAINED <==> a.refusalReason.Some?)
  }

  // ---------------------------------------------------------------- rendering claims as text

  predicate IsSpace(c: char) {
    c in {' ', '\t', '\n', '\r'}
  }

  function StripLeft(s: string): (r: string)
    ensures r == [] || !IsSpace(r[0])
  {
    if s != [] && IsSpace(s[0]) then StripLeft(s[1..]) else s
  }

  function StripRight(s: string): (r: string)
    ensures r == [] || !IsSpace(r[|r| - 1])
    ensures r <= s
  {
    if s != [] && IsSpace(s[|s| - 1]) then StripRight(s[..|s| - 1]) else s
  }

  function Strip(s: string): (r: string)
    ensures r == [] || (!IsSpace(r[0]) && !IsSpace(r[|r| - 1]))
  {
    StripRight(StripLeft(s))
  }

  predicate AllBlank(s: string) {
    forall i :: 0 <= i < |s| ==> IsSpace(s[i])
  }

  lemma {:induction false} StripLeftTakesBlanks(s: string) returns (left: string)
    ensures AllBlank(left) && s == left + StripLeft(s)
  {
    if s != [] && IsSpace(s[0]) {
      var rest := StripLeftTakesBlanks(s[1..]);
      left := [s[0]] + rest;
      assert s == [s[0]] + s[1..];
    } else {
      left := [];
    }
  }

  lemma {:induction false} StripRightTakesBlanks(s: string) returns (right: string)
    ensures AllBlank(right) && s == StripRight(s) + right
  {
    if s != [] && IsSpace(s[|s| - 1]) {
      var rest := StripRightTakesBlanks(s[..|s| - 1]);
      right := rest + [s[|s| - 1]];
      assert s == s[..|s| - 1] + [s[|s| - 1]];
    } else {
      right := [];
    }
  }

  /** Strip takes away the blanks at both ends and nothing else. */
  lemma {:induction false} StripTakesBlanks(s: string) returns (left: string, right: string)
    ensures s == left + Strip(s) + right && AllBlank(left) && AllBlank(right)
    ensures Strip(s) != "" ==> !IsSpace(Strip(s)[0]) && !IsSpace(Strip(s)[|Strip(s)| - 1])
  {
    left := StripLeftTakesBlanks(s);
    right := StripRightTakesBlanks(StripLeft(s));
  }

  function SupportedClaims(claims: seq<AgentClaim>): seq<AgentClaim> {
    if claims == [] then []
    else (if claims[0].verdict == SUPPORTED then [claims[0]] else []) + SupportedClaims(claims[1..])
  }

  /** " ".join(claim.statement.strip() for claim in claims) */
  function Rendering(claims: seq<AgentClaim>): string {
    if claims == [] then ""
    else if |claims| == 1 then Strip(claims[0].statement.text)
    else Strip(claims[0].statement.text) + " " + Rendering(claims[1..])
  }
}
