/** EvidenceAuditor.verify: sorting every claim of every artifact into accepted, rejected
    and needs-human-review (src/creditlens/agents/auditor.py:120-501). */
module ClaimAudit {
  import opened Common
  import opened Contracts
  import opened EvidenceAuditor

  const CORE_PRODUCERS: set<string> := {"policy_analyst", "financial_analyst"}

  /** Where the claims stand, with the codes recorded per claim kept as a set. */
  datatype Lists = Lists(accepted: seq<Id>, rejected: seq<Id>, review: seq<Id>, codes: map<Id, set<AuditCode>>)

  /** The value of an audit result. */
  datatype Findings = Findings(
    lists: Lists, answerCodes: set<AuditCode>,
    replayFailures: seq<Id>, blocking: seq<AuditCode>, degraded: bool,
    answerOk: bool, derived: Option<AnswerStatus>, normalize: bool)
  {
    predicate RequiresHumanReview() { lists.review != [] }

    predicate Ok() { lists.rejected == [] && replayFailures == [] && blocking == [] && answerOk }
  }

  const NO_CLAIMS := Lists([], [], [], map[])
  const NO_FINDINGS := Findings(NO_CLAIMS, {}, [], [], false, true, None, false)

  /** violations.get(str(claim_id), []) */
  function CodesOf(codes: map<Id, set<AuditCode>>, id: Id): set<AuditCode> {
    if id in codes then codes[id] else {}
  }

  function AddCode(codes: map<Id, set<AuditCode>>, id: Id, code: AuditCode): map<Id, set<AuditCode>> {
    codes[id := CodesOf(codes, id) + {code}]
  }

  // ---------------------------------------------------------------- filing claims

  datatype Ruling = Accepted | Rejected(code: AuditCode) | ForReview
  datatype Filing = Filing(id: Id, ruling: Ruling)

  function File(l: Lists, filing: Filing): Lists {
    match filing.ruling
    case Accepted => l.(accepted := l.accepted + [filing.id])
    case Rejected(code) => l.(rejected := l.rejected + [filing.id], codes := AddCode(l.codes, filing.id, code))
    case ForReview => l.(review := l.review + [filing.id])
  }

  function FileEach(l: Lists, filings: seq<Filing>): Lists {
    if filings == [] then l
    else File(FileEach(l, filings[..|filings| - 1]), filings[|filings| - 1])
  }

  lemma {:induction false} FileEachAppend(l: Lists, first: seq<Filing>, second: seq<Filing>)
    ensures FileEach(l, first + second) == FileEach(FileEach(l, first), second)
    decreases |second|
  {
    if second == [] {
      assert first + second == first;
    } else {
      FileEachAppend(l, first, second[..|second| - 1]);
      assert (first + second)[..|first + second| - 1] == first + second[..|second| - 1];
    }
  }

  // ---------------------------------------------------------------- the ruling on one claim

  predicate CaseOk(ctx: Context) {
    ctx.trusted.caseId in ctx.db.cases && ctx.db.cases[ctx.trusted.caseId].tenantId == ctx.trusted.tenantId
  }

  function BadEvidence(ctx: Context, artifact: AgentArtifact): set<Id> {
    set e | e in artifact.evidence && !EvidencePasses(ctx, artifact.calculations, e) :: e.evidenceId
  }

  /** The codes the first n evidence objects earn the id they share. */
  function CodesFound(ctx: Context, artifact: AgentArtifact, n: nat, id: Id): set<AuditCode>
    requires ctx.trusted.caseId in ctx.db.cases && n <= |artifact.evidence|
  {
    if n == 0 then {}
    else
      var e := artifact.evidence[n - 1];
      CodesFound(ctx, artifact, n - 1, id)
      + (if e.evidenceId == id then EvidenceCodes(ctx, artifact.calculations, e) else {})
  }

  /** A real conflict is not voted on: both sides are kept for a human. */
  predicate ConflictShaped(claim: AgentClaim) {
    claim.category == DATA_CONFLICT || (claim.opposing != [] && claim.verdict == PARTIALLY_SUPPORTED)
  }

  predicate CitesAny(cited: seq<Id>, ids: set<Id>) {
    exists id :: id in cited && id in ids
  }

  /** The first ground that applies, in the auditor's order of priority. */
  function Rule(claim: AgentClaim, blamed: set<Id>, badEvidence: set<Id>, replayFailed: set<Id>): Ruling {
    if claim.claimId in blamed then Rejected(CONTRACT_VIOLATION)
    else if CitesAny(claim.supporting, badEvidence) then Rejected(INVALID_SUPPORTING_EVIDENCE)
    else if CitesAny(claim.opposing, badEvidence) then Rejected(INVALID_OPPOSING_EVIDENCE)
    else if CitesAny(claim.calculations, replayFailed) then Rejected(REPLAY_FAILED)
    else if ConflictShaped(claim) then ForReview
    else Accepted
  }

  /** How an artifact as a whole is treated: its claims rejected, skipped, or ruled on one by one. */
  datatype Treatment = RejectAll(code: AuditCode) | Skip | RuleEach

  function TreatmentOf(ctx: Context, artifact: AgentArtifact): Treatment {
    if !CaseOk(ctx) then RejectAll(CASE_VALIDATION_FAILED)
    else if artifact.executionStatus != FAILED then RuleEach
    else if PassedOver(artifact) then Skip
    else if artifact.grounded then RejectAll(GROUNDING_EXECUTION_FAILED)
    else RejectAll(CORE_AGENT_FAILED(artifact.producer))
  }

  /** The auditor passes over the claims of a FAILED artifact that is not a core agent's. */
  predicate PassedOver(a: AgentArtifact) {
    a.executionStatus == FAILED && !a.grounded && a.producer !in CORE_PRODUCERS
  }

  function ClaimRuling(ctx: Context, artifact: AgentArtifact, claim: AgentClaim): Ruling {
    var t := TreatmentOf(ctx, artifact);
    if t.RejectAll? then Rejected(t.code)
    else Rule(claim, BlamedIds(artifact, ctx.trusted.asOfDate, ctx.allowDocumentNumeric), BadEvidence(ctx, artifact),
              ReplayFailed(artifact.calculations))
  }

  /** What verify files for one artifact: nothing if it is skipped, else one filing per claim, in order. */
  function Filings(ctx: Context, artifact: AgentArtifact): seq<Filing> {
    if TreatmentOf(ctx, artifact).Skip? then []
    else seq(|artifact.claims|, i requires 0 <= i < |artifact.claims| =>
               Filing(artifact.claims[i].claimId, ClaimRuling(ctx, artifact, artifact.claims[i])))
  }

  function AllFilings(ctx: Context, artifacts: seq<AgentArtifact>): seq<Filing> {
    if artifacts == [] then []
    else AllFilings(ctx, artifacts[..|artifacts| - 1]) + Filings(ctx, artifacts[|artifacts| - 1])
  }

  function FailedReplays(calculations: seq<Calculation>): seq<Id> {
    if calculations == [] then []
    else
      var last := calculations[|calculations| - 1];
      FailedReplays(calculations[..|calculations| - 1]) + (if last.replays then [] else [last.calculationId])
  }

  /** Replay failures are reported for every calculation of an artifact that is ruled on, cited or not. */
  function ReplaysOf(ctx: Context, artifact: AgentArtifact): seq<Id> {
    if TreatmentOf(ctx, artifact).RuleEach? then FailedReplays(artifact.calculations) else []
  }

  function AllReplays(ctx: Context, artifacts: seq<AgentArtifact>): seq<Id> {
    if artifacts == [] then []
    else AllReplays(ctx, artifacts[..|artifacts| - 1]) + ReplaysOf(ctx, artifacts[|artifacts| - 1])
  }

  function BlockingOf(ctx: Context, artifact: AgentArtifact): seq<AuditCode> {
    var t := TreatmentOf(ctx, artifact);
    if CaseOk(ctx) && t.RejectAll? then [t.code] else []
  }

  function AllBlocking(ctx: Context, artifacts: seq<AgentArtifact>): seq<AuditCode> {
    if artifacts == [] then if CaseOk(ctx) then [] else [CASE_VALIDATION_FAILED]
    else AllBlocking(ctx, artifacts[..|artifacts| - 1]) + BlockingOf(ctx, artifacts[|artifacts| - 1])
  }

  predicate AnySkipped(ctx: Context, artifacts: seq<AgentArtifact>) {
    && artifacts != []
    && (AnySkipped(ctx, artifacts[..|artifacts| - 1]) || TreatmentOf(ctx, artifacts[|artifacts| - 1]).Skip?)
  }

  /** The findings of verify over a list of artifacts. */
  function Verified(ctx: Context, artifacts: seq<AgentArtifact>): Findings {
    NO_FINDINGS.(
      lists := FileEach(NO_CLAIMS, AllFilings(ctx, artifacts)),
      replayFailures := AllReplays(ctx, artifacts),
      blocking := AllBlocking(ctx, artifacts),
      degraded := AnySkipped(ctx, artifacts))
  }

  // ---------------------------------------------------------------- the auditor's own loops

  /** The mutable result the auditor fills while it walks the artifacts. */
  class AuditResult {
    var accepted: seq<Id>
    var rejected: seq<Id>
    var review: seq<Id>
    var codes: map<Id, set<AuditCode>>
    var evidenceCodes: map<Id, set<AuditCode>>
    var answerCodes: set<AuditCode>
    var replayFailures: seq<Id>
    var blocking: seq<AuditCode>
    var degraded: bool
    var answerOk: bool
    var derived: Option<AnswerStatus>
    var normalize: bool

    constructor ()
      ensures Value() == NO_FINDINGS && evidenceCodes == map[]
    {
      accepted, rejected, review := [], [], [];
      codes, evidenceCodes, answerCodes := map[], map[], {};
      replayFailures, blocking := [], [];
      degraded, answerOk, derived, normalize := false, true, None, false;
    }

    function Claims(): Lists
      reads this
    {
      Lists(accepted, rejected, review, codes)
    }

    function Value(): Findings
      reads this
    {
      Findings(Claims(), answerCodes, replayFailures, blocking, degraded, answerOk, derived, normalize)
    }

    method FileClaim(filing: Filing)
      modifies this`accepted, this`rejected, this`review, this`codes
      ensures Claims() == File(old(Claims()), filing)
    {
      match filing.ruling
      case Accepted => accepted := accepted + [filing.id];
      case Rejected(code) =>
        rejected := rejected + [filing.id];
        codes := AddCode(codes, filing.id, code);
      case ForReview => review := review + [filing.id];
    }

    method RejectAllClaims(ctx: Context, artifact: AgentArtifact, code: AuditCode)
      requires TreatmentOf(ctx, artifact) == RejectAll(code)
      modifies this`accepted, this`rejected, this`review, this`codes
      ensures Claims() == FileEach(old(Claims()), Filings(ctx, artifact))
    {
      ghost var filings := Filings(ctx, artifact);
      for i := 0 to |artifact.claims|
        invariant Claims() == FileEach(old(Claims()), filings[..i])
      {
        assert filings[..i + 1][..i] == filings[..i];
        FileClaim(Filing(artifact.claims[i].claimId, Rejected(code)));
      }
      assert filings[..|filings|] == filings;
    }

    method ReplayCalculations(calculations: seq<Calculation>) returns (failed: set<Id>)
      modifies this`replayFailures
      ensures failed == ReplayFailed(calculations)
      ensures replayFailures == old(replayFailures) + FailedReplays(calculations)
    {
      failed := {};
      for i := 0 to |calculations|
        invariant failed == ReplayFailed(calculations[..i])
        invariant replayFailures == old(replayFailures) + FailedReplays(calculations[..i])
      {
        assert calculations[..i + 1] == calculations[..i] + [calculations[i]];
        if !calculations[i].replays {
          failed := failed + {calculations[i].calculationId};
          replayFailures := replayFailures + [calculations[i].calculationId];
        }
      }
      assert calculations[..|calculations|] == calculations;
    }

    method InspectEvidence(ctx: Context, artifact: AgentArtifact) returns (bad: set<Id>)
      requires ctx.trusted.caseId in ctx.db.cases
      modifies this`evidenceCodes
      ensures bad == BadEvidence(ctx, artifact)
      ensures forall id ::
              CodesOf(evidenceCodes, id) == CodesOf(old(evidenceCodes), id)
              + CodesFound(ctx, artifact, |artifact.evidence|, id)
    {
      bad := {};
      for i := 0 to |artifact.evidence|
        invariant bad ==
                  set e | e in artifact.evidence[..i] && !EvidencePasses(ctx, artifact.calculations, e) :: e.evidenceId
        invariant forall id ::
                  CodesOf(evidenceCodes, id) == CodesOf(old(evidenceCodes), id) + CodesFound(ctx, artifact, i, id)
      {
        var e := artifact.evidence[i];
        assert artifact.evidence[..i + 1] == artifact.evidence[..i] + [e];
        var found := EvidenceCodes(ctx, artifact.calculations, e);
        if found != {} {
          bad := bad + {e.evidenceId};
          evidenceCodes := evidenceCodes[e.evidenceId := CodesOf(evidenceCodes, e.evidenceId) + found];
        }
      }
      assert artifact.evidence[..|artifact.evidence|] == artifact.evidence;
    }

    method RuleOnArtifact(ctx: Context, artifact: AgentArtifact)
      requires TreatmentOf(ctx, artifact).RuleEach?
      modifies this`accepted, this`rejected, this`review, this`codes, this`evidenceCodes, this`replayFailures
      ensures Claims() == FileEach(old(Claims()), Filings(ctx, artifact))
      ensures replayFailures == old(replayFailures) + FailedReplays(artifact.calculations)
    {
      var _, violations := ValidateArtifactContract(artifact, ctx.trusted.asOfDate, ctx.allowDocumentNumeric);
      var replayFailed := ReplayCalculations(artifact.calculations);
      var bad := InspectEvidence(ctx, artifact);
      ghost var filings := Filings(ctx, artifact);
      for i := 0 to |artifact.claims|
        invariant Claims() == FileEach(old(Claims()), filings[..i])
        invariant replayFailures == old(replayFailures) + FailedReplays(artifact.calculations)
      {
        assert filings[..i + 1][..i] == filings[..i];
        FileClaim(Filing(artifact.claims[i].claimId, Rule(artifact.claims[i], Blamed(violations), bad, replayFailed)));
      }
      assert filings[..|filings|] == filings;
    }

    method VerifyOne(ctx: Context, artifact: AgentArtifact)
      requires CaseOk(ctx)
      modifies this`accepted, this`rejected, this`review, this`codes, this`evidenceCodes, this`replayFailures,
               this`blocking, this`degraded
      ensures Claims() == FileEach(old(Claims()), Filings(ctx, artifact))
      ensures replayFailures == old(replayFailures) + ReplaysOf(ctx, artifact)
      ensures blocking == old(blocking) + BlockingOf(ctx, artifact)
      ensures degraded == (old(degraded) || TreatmentOf(ctx, artifact).Skip?)
    {
      if artifact.executionStatus == FAILED {
        if artifact.grounded {
          blocking := blocking + [GROUNDING_EXECUTION_FAILED];
          RejectAllClaims(ctx, artifact, GROUNDING_EXECUTION_FAILED);
        } else if artifact.producer in CORE_PRODUCERS {
          blocking := blocking + [CORE_AGENT_FAILED(artifact.producer)];
          RejectAllClaims(ctx, artifact, CORE_AGENT_FAILED(artifact.producer));
        } else {
          degraded := true;
        }
      } else {
        RuleOnArtifact(ctx, artifact);
      }
    }
  }

  method RejectNext(result: AuditResult, ctx: Context, artifacts: seq<AgentArtifact>, i: nat)
    requires !CaseOk(ctx) && i < |artifacts|
    requires result.Claims() == FileEach(NO_CLAIMS, AllFilings(ctx, artifacts[..i]))
    modifies result`accepted, result`rejected, result`review, result`codes
    ensures result.Claims() == FileEach(NO_CLAIMS, AllFilings(ctx, artifacts[..i + 1]))
  {
    assert artifacts[..i + 1][..i] == artifacts[..i];
    FileEachAppend(NO_CLAIMS, AllFilings(ctx, artifacts[..i]), Filings(ctx, artifacts[i]));
    result.RejectAllClaims(ctx, artifacts[i], CASE_VALIDATION_FAILED);
  }

  /** verify on a case that is missing or belongs to another tenant. */
  method RejectEverything(ctx: Context, artifacts: seq<AgentArtifact>) returns (result: AuditResult)
    requires !CaseOk(ctx)
    ensures fresh(result)
    ensures result.Value() ==
            NO_FINDINGS.(lists := FileEach(NO_CLAIMS, AllFilings(ctx, artifacts)), blocking := [CASE_VALIDATION_FAILED])
  {
    result := new AuditResult();
    result.blocking := result.blocking + [CASE_VALIDATION_FAILED];
    for i := 0 to |artifacts|
      invariant fresh(result)
      invariant result.Claims() == FileEach(NO_CLAIMS, AllFilings(ctx, artifacts[..i]))
      modifies result`accepted, result`rejected, result`review, result`codes
    {
      RejectNext(result, ctx, artifacts, i);
    }
    assert artifacts[..|artifacts|] == artifacts;
  }

  /** The result covers these artifacts and nothing else. */
  predicate Covers(result: AuditResult, ctx: Context, artifacts: seq<AgentArtifact>)
    reads result
  {
    && result.Claims() == FileEach(NO_CLAIMS, AllFilings(ctx, artifacts))
    && result.replayFailures == AllReplays(ctx, artifacts)
    && result.blocking == AllBlocking(ctx, artifacts)
    && result.degraded == AnySkipped(ctx, artifacts)
  }

  method VerifyNext(result: AuditResult, ctx: Context, artifacts: seq<AgentArtifact>, i: nat)
    requires CaseOk(ctx) && i < |artifacts| && Covers(result, ctx, artifacts[..i])
    modifies result`accepted, result`rejected, result`review, result`codes, result`evidenceCodes, result`replayFailures,
             result`blocking, result`degraded
    ensures Covers(result, ctx, artifacts[..i + 1])
  {
    OneArtifactMore(ctx, artifacts, i);
    result.VerifyOne(ctx, artifacts[i]);
  }

  method VerifyEach(ctx: Context, artifacts: seq<AgentArtifact>) returns (result: AuditResult)
    requires CaseOk(ctx)
    ensures fresh(result)
    ensures Covers(result, ctx, artifacts)
    ensures result.answerCodes == {} && result.answerOk && result.derived == None && !result.normalize
  {
    result := new AuditResult();
    for i := 0 to |artifacts|
      invariant fresh(result)
      invariant Covers(result, ctx, artifacts[..i])
      modifies result`accepted, result`rejected, result`review, result`codes, result`evidenceCodes,
               result`replayFailures,
               result`blocking, result`degraded
    {
      VerifyNext(result, ctx, artifacts, i);
    }
    assert artifacts[..|artifacts|] == artifacts;
  }

  lemma {:induction false} OneArtifactMore(ctx: Context, artifacts: seq<AgentArtifact>, i: nat)
    requires i < |artifacts|
    ensures var front, more := artifacts[..i], artifacts[..i + 1];
            && FileEach(NO_CLAIMS, AllFilings(ctx, more))
                == FileEach(FileEach(NO_CLAIMS, AllFilings(ctx, front)), Filings(ctx, artifacts[i]))
            && AllReplays(ctx, more) == AllReplays(ctx, front) + ReplaysOf(ctx, artifacts[i])
            && AllBlocking(ctx, more) == AllBlocking(ctx, front) + BlockingOf(ctx, artifacts[i])
            && AnySkipped(ctx, more) == (AnySkipped(ctx, front) || TreatmentOf(ctx, artifacts[i]).Skip?)
  {
    assert artifacts[..i + 1][..i] == artifacts[..i];
    FileEachAppend(NO_CLAIMS, AllFilings(ctx, artifacts[..i]), Filings(ctx, artifacts[i]));
  }

  lemma {:induction false} InvalidCaseVerifiesNothing(ctx: Context, artifacts: seq<AgentArtifact>)
    requires !CaseOk(ctx)
    ensures AllReplays(ctx, artifacts) == [] && AllBlocking(ctx, artifacts) == [CASE_VALIDATION_FAILED]
    ensures !AnySkipped(ctx, artifacts)
  {
    if artifacts != [] { InvalidCaseVerifiesNothing(ctx, artifacts[..|artifacts| - 1]); }
  }

  /** EvidenceAuditor.verify. */
  method Verify(ctx: Context, artifacts: seq<AgentArtifact>) returns (result: AuditResult)
    ensures fresh(result)
    ensures result.Value() == Verified(ctx, artifacts)
  {
    if !CaseOk(ctx) {
      InvalidCaseVerifiesNothing(ctx, artifacts);
      result := RejectEverything(ctx, artifacts);
    } else {
      result := VerifyEach(ctx, artifacts);
    }
  }

  // ---------------------------------------------------------------- conservation and partition

  function FilingIds(filings: seq<Filing>): (ids: seq<Id>)
    ensures |ids| == |filings| && forall i :: 0 <= i < |filings| ==> ids[i] == filings[i].id
  {
    seq(|filings|, i requires 0 <= i < |filings| => filings[i].id)
  }

  /** How often an id is filed, under any heading. */
  ghost function Filed(l: Lists): multiset<Id> {
    multiset(l.accepted) + multiset(l.rejected) + multiset(l.review)
  }

  lemma {:induction false} FileAddsOne(l: Lists, filing: Filing)
    ensures Filed(File(l, filing)) == Filed(l) + multiset{filing.id}
  {
  }

  lemma {:induction false} FileEachConserves(l: Lists, filings: seq<Filing>)
    ensures Filed(FileEach(l, filings)) == Filed(l) + multiset(FilingIds(filings))
  {
    if filings != [] {
      var front, last := filings[..|filings| - 1], filings[|filings| - 1];
      FileEachConserves(l, front);
      FileAddsOne(FileEach(l, front), last);
      assert FilingIds(filings) == FilingIds(front) + [last.id];
    }
  }

  /** Every claim of every artifact that is not skipped is filed under exactly one heading,
      counted with multiplicity: no claim is dropped, invented or filed twice. */
  lemma {:induction false} ClaimsAreConserved(ctx: Context, artifacts: seq<AgentArtifact>)
    ensures Filed(Verified(ctx, artifacts).lists) == multiset(FilingIds(AllFilings(ctx, artifacts)))
  {
    FileEachConserves(NO_CLAIMS, AllFilings(ctx, artifacts));
  }

  /** accepted, rejected and review are duplicate-free and pairwise disjoint: no id is filed twice. */
  ghost predicate IsPartition(l: Lists) {
    forall id :: Filed(l)[id] <= 1
  }

  /** What IsPartition says, list by list. */
  lemma {:induction false} PartitionListByList(l: Lists)
    ensures IsPartition(l) <==>
            && NoDuplicates(l.accepted) && NoDuplicates(l.rejected) && NoDuplicates(l.review)
            && (forall id :: id in l.accepted ==> id !in l.rejected && id !in l.review)
            && (forall id :: id in l.rejected ==> id !in l.review)
  {
    OccursOnce(l.accepted);
    OccursOnce(l.rejected);
    OccursOnce(l.review);
    assert forall id :: Filed(l)[id] == multiset(l.accepted)[id] + multiset(l.rejected)[id] + multiset(l.review)[id];
    assert forall id :: id in l.accepted <==> multiset(l.accepted)[id] >= 1;
    assert forall id :: id in l.rejected <==> multiset(l.rejected)[id] >= 1;
    assert forall id :: id in l.review <==> multiset(l.review)[id] >= 1;
  }

  function ClaimIds(claims: seq<AgentClaim>): (ids: seq<Id>)
    ensures |ids| == |claims| && forall i :: 0 <= i < |claims| ==> ids[i] == claims[i].claimId
  {
    seq(|claims|, i requires 0 <= i < |claims| => claims[i].claimId)
  }

  function AllIds(artifacts: seq<AgentArtifact>): seq<Id> {
    if artifacts == [] then []
    else AllIds(artifacts[..|artifacts| - 1]) + ClaimIds(artifacts[|artifacts| - 1].claims)
  }

  lemma {:induction false} FiledAreClaims(ctx: Context, artifacts: seq<AgentArtifact>)
    ensures multiset(FilingIds(AllFilings(ctx, artifacts))) <= multiset(AllIds(artifacts))
  {
    if artifacts != [] {
      var front, last := artifacts[..|artifacts| - 1], artifacts[|artifacts| - 1];
      FiledAreClaims(ctx, front);
      var first, second := AllFilings(ctx, front), Filings(ctx, last);
      assert FilingIds(first + second) == FilingIds(first) + FilingIds(second);
      assert FilingIds(second) == if TreatmentOf(ctx, last).Skip? then [] else ClaimIds(last.claims);
    }
  }

  /** With distinct claim ids the three lists are a partition of the claims that are not skipped. */
  lemma {:induction false} VerifyPartitions(ctx: Context, artifacts: seq<AgentArtifact>)
    requires NoDuplicates(AllIds(artifacts))
    ensures var l := Verified(ctx, artifacts).lists;
            && IsPartition(l)
            && forall id :: id in FilingIds(AllFilings(ctx, artifacts))
                <==> id in l.accepted || id in l.rejected || id in l.review
  {
    var l := Verified(ctx, artifacts).lists;
    ClaimsAreConserved(ctx, artifacts);
    FiledAreClaims(ctx, artifacts);
    OccursOnce(AllIds(artifacts));
    forall id
      ensures id in FilingIds(AllFilings(ctx, artifacts)) <==> id in l.accepted || id in l.rejected || id in l.review
    {
      assert id in FilingIds(AllFilings(ctx, artifacts)) <==> id in Filed(l);
    }
  }

  // ---------------------------------------------------------------- which claims are accepted

  lemma {:induction false} FiledUnder(l: Lists, filings: seq<Filing>, id: Id)
    ensures id in FileEach(l, filings).accepted <==> id in l.accepted || Filing(id, Accepted) in filings
    ensures id in FileEach(l, filings).review <==> id in l.review || Filing(id, ForReview) in filings
    ensures id in FileEach(l, filings).rejected
            <==> id in l.rejected || exists code :: Filing(id, Rejected(code)) in filings
  {
    if filings != [] {
      var front, last := filings[..|filings| - 1], filings[|filings| - 1];
      FiledUnder(l, front, id);
      assert filings == front + [last];
      if last.ruling.Rejected? { assert Filing(last.id, Rejected(last.ruling.code)) in filings; }
    }
  }

  /** The codes of an id are those of its rejections. */
  lemma {:induction false} CodesUnder(l: Lists, filings: seq<Filing>, id: Id)
    ensures CodesOf(FileEach(l, filings).codes, id) == CodesOf(l.codes, id) + RejectionCodes(filings, id)
  {
    if filings != [] {
      var front, last := filings[..|filings| - 1], filings[|filings| - 1];
      CodesUnder(l, front, id);
      assert filings == front + [last];
    }
  }

  function RejectionCodes(filings: seq<Filing>, id: Id): set<AuditCode> {
    set f | f in filings && f.id == id && f.ruling.Rejected? :: f.ruling.code
  }

  /** With distinct ids a filing decides alone where its id stands and which codes it has. */
  lemma {:induction false} FiledAlone(filings: seq<Filing>, k: nat)
    requires k < |filings| && NoDuplicates(FilingIds(filings))
    ensures var l, f := FileEach(NO_CLAIMS, filings), filings[k];
            && (f.id in l.accepted <==> f.ruling.Accepted?)
            && (f.id in l.review <==> f.ruling.ForReview?)
            && (f.id in l.rejected <==> f.ruling.Rejected?)
            && CodesOf(l.codes, f.id) == if f.ruling.Rejected? then {f.ruling.code} else {}
  {
    var id, ruling := filings[k].id, filings[k].ruling;
    forall f | f in filings && f.id == id ensures f.ruling == ruling {
      var j :| 0 <= j < |filings| && filings[j] == f;
      assert FilingIds(filings)[j] == FilingIds(filings)[k];
    }
    assert Filing(id, ruling) in filings;
    FiledUnder(NO_CLAIMS, filings, id);
    CodesUnder(NO_CLAIMS, filings, id);
    RejectionsOfId(filings, id, ruling);
  }

  lemma {:induction false} RejectionsOfId(filings: seq<Filing>, id: Id, ruling: Ruling)
    requires Filing(id, ruling) in filings && forall f :: f in filings && f.id == id ==> f.ruling == ruling
    ensures RejectionCodes(filings, id) == if ruling.Rejected? then {ruling.code} else {}
  {
    if ruling.Rejected? { assert Filing(id, ruling) in filings && Filing(id, ruling).ruling.code == ruling.code; }
  }

  /** verify on a single artifact. */
  lemma {:induction false} VerifySingle(ctx: Context, artifact: AgentArtifact)
    ensures Verified(ctx, [artifact]).lists == FileEach(NO_CLAIMS, Filings(ctx, artifact))
    ensures Verified(ctx, [artifact]).replayFailures == ReplaysOf(ctx, artifact)
    ensures Verified(ctx, [artifact]).blocking == (if CaseOk(ctx) then [] else [CASE_VALIDATION_FAILED])
            + BlockingOf(ctx, artifact)
  {
    assert [artifact][..0] == [];
    assert AllFilings(ctx, [artifact]) == Filings(ctx, artifact);
    assert AllReplays(ctx, [artifact]) == ReplaysOf(ctx, artifact);
    assert AllBlocking(ctx, []) == if CaseOk(ctx) then [] else [CASE_VALIDATION_FAILED];
  }

  lemma {:induction false} FilingsOf(ctx: Context, artifacts: seq<AgentArtifact>, filing: Filing)
    ensures filing in AllFilings(ctx, artifacts) <==>
            exists i, k ::
              && 0 <= i < |artifacts| && 0 <= k < |artifacts[i].claims| && !TreatmentOf(ctx, artifacts[i]).Skip?
              && filing ==
                 Filing(artifacts[i].claims[k].claimId, ClaimRuling(ctx, artifacts[i], artifacts[i].claims[k]))
  {
    if artifacts != [] {
      var front, last := artifacts[..|artifacts| - 1], artifacts[|artifacts| - 1];
      FilingsOf(ctx, front, filing);
      if filing in Filings(ctx, last) {
        var k :| 0 <= k < |Filings(ctx, last)| && Filings(ctx, last)[k] == filing;
        assert artifacts[|artifacts| - 1].claims[k].claimId == filing.id;
      }
      forall k | 0 <= k < |last.claims| && !TreatmentOf(ctx, last).Skip?
        ensures Filing(last.claims[k].claimId, ClaimRuling(ctx, last, last.claims[k])) in AllFilings(ctx, artifacts)
      {
        assert Filings(ctx, last)[k] in Filings(ctx, last);
      }
    }
  }

  /** The claim meets the contract, every evidence object it cites passes its check, and every calculation it cites
      replays. */
  predicate Unblamed(ctx: Context, artifact: AgentArtifact, claim: AgentClaim) {
    && MeetsContract(artifact, claim, ctx.trusted.asOfDate, ctx.allowDocumentNumeric)
    && (forall e :: e in artifact.evidence && e.evidenceId in claim.supporting + claim.opposing
          ==> EvidencePasses(ctx, artifact.calculations, e))
    && (forall c :: c in artifact.calculations && c.calculationId in claim.calculations ==> c.replays)
  }

  /** The conditions under which a claim should be accepted, without the auditor's priorities. */
  predicate Acceptable(ctx: Context, artifact: AgentArtifact, claim: AgentClaim) {
    && ctx.trusted.caseId in ctx.db.cases && ctx.db.cases[ctx.trusted.caseId].tenantId == ctx.trusted.tenantId
    && artifact.executionStatus != FAILED
    && Unblamed(ctx, artifact, claim)
    && claim.category != DATA_CONFLICT && (claim.opposing == [] || claim.verdict != PARTIALLY_SUPPORTED)
  }

  lemma {:induction false} RuledRejected(ctx: Context, artifact: AgentArtifact, k: nat)
    requires k < |artifact.claims| && NoDuplicates(ClaimIds(artifact.claims)) && TreatmentOf(ctx, artifact).RuleEach?
    ensures ClaimRuling(ctx, artifact, artifact.claims[k]).Rejected? <==> !Unblamed(ctx, artifact, artifact.claims[k])
  {
    var claim := artifact.claims[k];
    forall c | c in artifact.claims && c.claimId == claim.claimId ensures c == claim {
      var j :| 0 <= j < |artifact.claims| && artifact.claims[j] == c;
      assert ClaimIds(artifact.claims)[k] == ClaimIds(artifact.claims)[j];
    }
    assert claim.claimId in BlamedIds(artifact, ctx.trusted.asOfDate, ctx.allowDocumentNumeric)
      <==> !MeetsContract(artifact, claim, ctx.trusted.asOfDate, ctx.allowDocumentNumeric);
    assert forall e :: e in artifact.evidence && !EvidencePasses(ctx, artifact.calculations, e) ==>
                         e.evidenceId in BadEvidence(ctx, artifact);
    assert forall c :: c in artifact.calculations && !c.replays ==>
                         c.calculationId in ReplayFailed(artifact.calculations);
  }

  lemma {:induction false} RuledAccepted(ctx: Context, artifact: AgentArtifact, k: nat)
    requires k < |artifact.claims| && NoDuplicates(ClaimIds(artifact.claims))
    ensures !TreatmentOf(ctx, artifact).Skip? && ClaimRuling(ctx, artifact, artifact.claims[k]).Accepted?
       <==> Acceptable(ctx, artifact, artifact.claims[k])
  {
    if TreatmentOf(ctx, artifact).RuleEach? { RuledRejected(ctx, artifact, k); }
  }

  /** Some evidence object with one of these ids fails its check. */
  predicate CitesFailing(ctx: Context, artifact: AgentArtifact, ids: seq<Id>) {
    exists e :: e in artifact.evidence && e.evidenceId in ids && !EvidencePasses(ctx, artifact.calculations, e)
  }

  predicate CitesUnreplayed(artifact: AgentArtifact, ids: seq<Id>) {
    exists c :: c in artifact.calculations && c.calculationId in ids && !c.replays
  }

  /** The ground a claim is ruled on, first things first: its contract, the evidence it is supported by, the evidence
      against it, its calculations, and its shape. */
  lemma {:induction false} GroundsInOrder(ctx: Context, artifact: AgentArtifact, k: nat)
    requires k < |artifact.claims| && NoDuplicates(ClaimIds(artifact.claims)) && TreatmentOf(ctx, artifact).RuleEach?
    ensures var claim := artifact.claims[k];
            ClaimRuling(ctx, artifact, claim) ==
              if !MeetsContract(artifact, claim, ctx.trusted.asOfDate, ctx.allowDocumentNumeric)
              then Rejected(CONTRACT_VIOLATION)
              else if CitesFailing(ctx, artifact, claim.supporting) then Rejected(INVALID_SUPPORTING_EVIDENCE)
              else if CitesFailing(ctx, artifact, claim.opposing) then Rejected(INVALID_OPPOSING_EVIDENCE)
              else if CitesUnreplayed(artifact, claim.calculations) then Rejected(REPLAY_FAILED)
              else if claim.category == DATA_CONFLICT || (claim.opposing != [] && claim.verdict == PARTIALLY_SUPPORTED)
              then ForReview else Accepted
  {
    var claim := artifact.claims[k];
    BlamedByContract(ctx, artifact, k);
    FailingAreBad(ctx, artifact, claim.supporting);
    FailingAreBad(ctx, artifact, claim.opposing);
    UnreplayedAreFailed(artifact, claim.calculations);
  }

  lemma {:induction false} BlamedByContract(ctx: Context, artifact: AgentArtifact, k: nat)
    requires k < |artifact.claims| && NoDuplicates(ClaimIds(artifact.claims))
    ensures artifact.claims[k].claimId in BlamedIds(artifact, ctx.trusted.asOfDate, ctx.allowDocumentNumeric)
       <==> !MeetsContract(artifact, artifact.claims[k], ctx.trusted.asOfDate, ctx.allowDocumentNumeric)
  {
    var claim := artifact.claims[k];
    forall c | c in artifact.claims && c.claimId == claim.claimId ensures c == claim {
      var j :| 0 <= j < |artifact.claims| && artifact.claims[j] == c;
      assert ClaimIds(artifact.claims)[k] == ClaimIds(artifact.claims)[j];
    }
  }

  lemma {:induction false} FailingAreBad(ctx: Context, artifact: AgentArtifact, ids: seq<Id>)
    ensures CitesAny(ids, BadEvidence(ctx, artifact)) <==> CitesFailing(ctx, artifact, ids)
  {
  }

  lemma {:induction false} UnreplayedAreFailed(artifact: AgentArtifact, ids: seq<Id>)
    ensures CitesAny(ids, ReplayFailed(artifact.calculations)) <==> CitesUnreplayed(artifact, ids)
  {
  }

  /** On a valid case, what happens to an artifact that says FAILED: the policy and the financial analyst's and the QA
      agent's answers are rejected as a whole and block, all others are passed over. */
  lemma {:induction false} FailedArtifacts(ctx: Context, a: AgentArtifact)
    requires CaseOk(ctx) && a.executionStatus == FAILED
    ensures a.grounded ==>
              TreatmentOf(ctx, a) == RejectAll(GROUNDING_EXECUTION_FAILED)
                  && BlockingOf(ctx, a) == [GROUNDING_EXECUTION_FAILED]
    ensures !a.grounded && (a.producer == "policy_analyst" || a.producer == "financial_analyst") ==>
              && TreatmentOf(ctx, a) == RejectAll(CORE_AGENT_FAILED(a.producer))
              && BlockingOf(ctx, a) == [CORE_AGENT_FAILED(a.producer)]
    ensures !a.grounded && a.producer != "policy_analyst" && a.producer != "financial_analyst" ==>
              Filings(ctx, a) == [] && BlockingOf(ctx, a) == []
  {
  }

  /** Where the claims of the i-th artifact start in AllIds. */
  function Offset(artifacts: seq<AgentArtifact>, i: nat): nat
    requires i < |artifacts|
  {
    |AllIds(artifacts[..i])|
  }

  lemma {:induction false} OwnerOf(artifacts: seq<AgentArtifact>, i: nat, k: nat)
    requires i < |artifacts| && k < |artifacts[i].claims|
    ensures Offset(artifacts, i) + k < |AllIds(artifacts)|
    ensures AllIds(artifacts)[Offset(artifacts, i) + k] == artifacts[i].claims[k].claimId
    decreases |artifacts|
  {
    var front := artifacts[..|artifacts| - 1];
    if i < |front| {
      OwnerOf(front, i, k);
      assert front[..i] == artifacts[..i];
    }
  }

  lemma {:induction false} OffsetsGrow(artifacts: seq<AgentArtifact>, i: nat, j: nat)
    requires i < j < |artifacts|
    ensures Offset(artifacts, i) + |artifacts[i].claims| <= Offset(artifacts, j)
    decreases j
  {
    assert artifacts[..j][..j - 1] == artifacts[..j - 1];
    if i < j - 1 { OffsetsGrow(artifacts, i, j - 1); }
  }

  /** Distinct ids name one claim of one artifact. */
  lemma {:induction false} IdNamesOneClaim(artifacts: seq<AgentArtifact>, i: nat, k: nat, j: nat, m: nat)
    requires NoDuplicates(AllIds(artifacts))
    requires i < |artifacts| && k < |artifacts[i].claims| && j < |artifacts| && m < |artifacts[j].claims|
    requires artifacts[i].claims[k].claimId == artifacts[j].claims[m].claimId
    ensures i == j && k == m
  {
    OwnerOf(artifacts, i, k);
    OwnerOf(artifacts, j, m);
    if i < j { OffsetsGrow(artifacts, i, j); }
    if j < i { OffsetsGrow(artifacts, j, i); }
  }

  /** verify accepts a claim exactly when nothing about it, its artifact, its case or its evidence is wrong. */
  lemma {:induction false} AcceptedExactlyWhenAcceptable(ctx: Context, artifacts: seq<AgentArtifact>, i: nat, k: nat)
    requires NoDuplicates(AllIds(artifacts))
    requires i < |artifacts| && k < |artifacts[i].claims|
    ensures artifacts[i].claims[k].claimId in Verified(ctx, artifacts).lists.accepted
       <==> Acceptable(ctx, artifacts[i], artifacts[i].claims[k])
  {
    var claim := artifacts[i].claims[k];
    FiledUnder(NO_CLAIMS, AllFilings(ctx, artifacts), claim.claimId);
    FilingsOf(ctx, artifacts, Filing(claim.claimId, Accepted));
    forall j, m | 0 <= j < |artifacts| && 0 <= m < |artifacts[j].claims|
        && artifacts[j].claims[m].claimId == claim.claimId
      ensures j == i && m == k
    {
      IdNamesOneClaim(artifacts, i, k, j, m);
    }
    forall a, b | 0 <= a < b < |artifacts[i].claims|
      ensures artifacts[i].claims[a].claimId != artifacts[i].claims[b].claimId
    {
      if artifacts[i].claims[a].claimId == artifacts[i].claims[b].claimId { IdNamesOneClaim(artifacts, i, a, i, b); }
    }
    RuledAccepted(ctx, artifacts[i], k);
  }
}
