/** When the audit of an answer passes, said on what goes in: the draft, the packed evidence and the lexical guards; and
    what an answer that has passed is good for (grounded_qa.py:405-532, auditor.py:503-734). */
module AuditSoundness {
  import opened Common
  import opened Contracts
  import opened EvidenceAuditor
  import opened ClaimAudit
  import opened AnswerAudit
  import opened GroundedQA
  import opened AnswerAgreement

  // ---------------------------------------------------------------- claims that are not rejected

  /** Nothing about a claim of an answer is a ground to reject it. */
  predicate Clears(ctx: Context, artifact: AgentArtifact, claim: AgentClaim, allowed: set<Id>, g: Guards) {
    && Unblamed(ctx.(allowDocumentNumeric := true), artifact, claim)
    && !HardReject(claim, allowed, g)
  }

  /** With distinct ids, the gate rejects exactly the claims with a ground for it. */
  lemma {:induction false} RejectedIfNotClear(
      ctx: Context, a: GroundedAnswer, allowed: set<Id>, guards: AgentClaim -> Guards, k: nat)
    requires CaseOk(ctx) && a.base.executionStatus == ExecutionStatusFor(a.answerStatus)
    requires NoDuplicates(ClaimIds(a.base.claims)) && k < |a.base.claims|
    ensures a.base.claims[k].claimId in AuditClaims(VerifiedAnswer(ctx, a).lists, a.base.claims, |a.base.claims|,
            allowed, guards).rejected
       <==> !Clears(ctx, a.base, a.base.claims[k], allowed, guards(a.base.claims[k]))
  {
    var c := ctx.(allowDocumentNumeric := true);
    VerifySingle(c, a.base);
    assert FilingIds(Filings(c, a.base)) == ClaimIds(a.base.claims);
    FiledAlone(Filings(c, a.base), k);
    RuledRejected(c, a.base, k);
    AuditClaimsSettle(VerifiedAnswer(ctx, a).lists, a.base.claims, |a.base.claims|, allowed, guards, k);
  }

  predicate AllClear(ctx: Context, a: GroundedAnswer, allowed: set<Id>, guards: AgentClaim -> Guards) {
    forall k :: 0 <= k < |a.base.claims| ==> Clears(ctx, a.base, a.base.claims[k], allowed, guards(a.base.claims[k]))
  }

  lemma {:induction false} NoneRejectedIfAllClear(
      ctx: Context, a: GroundedAnswer, allowed: set<Id>, guards: AgentClaim -> Guards)
    requires CaseOk(ctx) && a.base.executionStatus == ExecutionStatusFor(a.answerStatus)
             && NoDuplicates(ClaimIds(a.base.claims))
    ensures AuditClaims(VerifiedAnswer(ctx, a).lists, a.base.claims, |a.base.claims|, allowed, guards).rejected == []
       <==> AllClear(ctx, a, allowed, guards)
  {
    var claims := a.base.claims;
    var m := AuditClaims(VerifiedAnswer(ctx, a).lists, claims, |claims|, allowed, guards);
    forall k | 0 <= k < |claims|
      ensures claims[k].claimId in m.rejected <==> !Clears(ctx, a.base, claims[k], allowed, guards(claims[k]))
    {
      RejectedIfNotClear(ctx, a, allowed, guards, k);
    }
    if m.rejected != [] {
      RejectedIsAClaim(ctx, a, allowed, guards, m.rejected[0]);
    }
  }

  lemma {:induction false} RejectedIsAClaim(
      ctx: Context, a: GroundedAnswer, allowed: set<Id>, guards: AgentClaim -> Guards, id: Id)
    requires CaseOk(ctx) && a.base.executionStatus == ExecutionStatusFor(a.answerStatus)
             && NoDuplicates(ClaimIds(a.base.claims))
    requires id in AuditClaims(VerifiedAnswer(ctx, a).lists, a.base.claims, |a.base.claims|, allowed, guards).rejected
    ensures exists k :: 0 <= k < |a.base.claims| && a.base.claims[k].claimId == id
  {
    var l := VerifiedAnswer(ctx, a).lists;
    VerifyFilesEachClaimOnce(ctx, a);
    assert forall k :: 0 <= k < |a.base.claims| ==> a.base.claims[k].claimId in ClaimIdSet(a.base.claims);
    AuditClaimsKeep(l, a.base.claims, |a.base.claims|, allowed, guards);
    assert IsFiled(l, id);
    IdsOfClaims(a.base.claims, id);
  }

  // ---------------------------------------------------------------- the same, read off the draft

  /** The text states a figure of a kind that must be backed by cited evidence. */
  predicate StatesFigure(dc: DraftClaim) {
    dc.statement.hasDigit && dc.statement.mentionsNumeric && dc.category in {FINANCIAL, CASH_FLOW}
  }

  const FIGURE_TYPES: set<EvidenceType> := {SQL_FACT, CALCULATION, TABLE_CELL, DOCUMENT_SPAN}

  /** What a draft claim needs beyond what the materializer has checked. */
  predicate Sound(ctx: Context, req: Request, refs: seq<EvidenceRef>, dc: DraftClaim, g: Guards) {
    && req.asOfDate == ctx.trusted.asOfDate
    && (forall phrase :: phrase in BANNED_PHRASES ==> phrase !in dc.statement.forbidden)
    && (StatesFigure(dc) ==> exists e :: e in refs && e.evidenceId in dc.supporting && e.evidenceType in FIGURE_TYPES)
    && (forall e :: e in refs && e.evidenceId in dc.supporting + dc.opposing ==> EvidencePasses(ctx, [], e))
    && !MissesNumber(dc.supporting, g)
  }

  /** The claim the k-th draft claim becomes. */
  function ClaimOf(req: Request, d: Draft, k: nat): AgentClaim
    requires k < |d.claims| <= |req.freshIds|
  {
    MaterializeClaim(d.claims[k], req.freshIds[k], req.asOfDate)
  }

  predicate SoundDraft(ctx: Context, req: Request, refs: seq<EvidenceRef>, d: Draft, guards: AgentClaim -> Guards)
    requires |d.claims| <= |req.freshIds|
  {
    forall k :: 0 <= k < |d.claims| ==> Sound(ctx, req, refs, d.claims[k], guards(ClaimOf(req, d, k)))
  }

  lemma {:induction false} FlagIsIrrelevantToEvidence(ctx: Context, calculations: seq<Calculation>, e: EvidenceRef)
    ensures EvidencePasses(ctx.(allowDocumentNumeric := true), calculations, e) == EvidencePasses(ctx, calculations, e)
  {
  }

  /** The evidence of an artifact is what is cited of the packed references, and nothing cited is missing there. */
  ghost predicate Attached(artifact: AgentArtifact, refs: seq<EvidenceRef>, cited: set<Id>) {
    && artifact.grounded && artifact.calculations == [] && cited <= EvidenceIds(refs)
    && forall e :: e in artifact.evidence <==> e in refs && e.evidenceId in cited
  }

  lemma {:induction false} FigureBacked(
      artifact: AgentArtifact, refs: seq<EvidenceRef>, cited: set<Id>, claim: AgentClaim)
    requires Attached(artifact, refs, cited) && forall id :: id in claim.supporting ==> id in cited
    ensures NumberIsBacked(artifact, claim, true)
       <==> exists e :: e in refs && e.evidenceId in claim.supporting && e.evidenceType in FIGURE_TYPES
  {
    if e :| e in refs && e.evidenceId in claim.supporting && e.evidenceType in FIGURE_TYPES {
      assert e in artifact.evidence;
    }
  }

  lemma {:induction false} CitedIsKnown(artifact: AgentArtifact, refs: seq<EvidenceRef>, cited: set<Id>, id: Id)
    requires Attached(artifact, refs, cited) && id in cited
    ensures id in EvidenceIds(artifact.evidence) && id in EvidenceIds(refs)
  {
    var e :| e in refs && e.evidenceId == id;
    assert e in artifact.evidence;
  }

  /** The contract of a materialized claim, without what the draft validator and the citations already ensure. */
  lemma {:induction false} ContractOfDraft(
      artifact: AgentArtifact, refs: seq<EvidenceRef>, cited: set<Id>, dc: DraftClaim, id: Id, drawn: Date, asOf: Date)
    requires Attached(artifact, refs, cited) && ValidDraftClaim(dc)
    requires forall x :: x in dc.supporting + dc.opposing ==> x in cited
    ensures MeetsContract(artifact, MaterializeClaim(dc, id, drawn), asOf, true) <==>
              && drawn == asOf && (forall phrase :: phrase in BANNED_PHRASES ==> phrase !in dc.statement.forbidden)
              && (StatesFigure(dc) ==>
                    exists e :: e in refs && e.evidenceId in dc.supporting && e.evidenceType in FIGURE_TYPES)
  {
    var claim := MaterializeClaim(dc, id, drawn);
    FigureBacked(artifact, refs, cited, claim);
    forall x | x in claim.supporting + claim.opposing ensures x in EvidenceIds(artifact.evidence) {
      CitedIsKnown(artifact, refs, cited, x);
    }
    assert claim.supporting != [] <==> dc.supporting != [] by {
      if dc.supporting != [] { assert dc.supporting[0] in claim.supporting; }
      if claim.supporting != [] { assert claim.supporting[0] in dc.supporting; }
    }
  }

  lemma {:induction false} EvidenceOfDraft(
      ctx: Context, artifact: AgentArtifact, refs: seq<EvidenceRef>, cited: set<Id>, dc: DraftClaim, claim: AgentClaim)
    requires Attached(artifact, refs, cited) && forall x :: x in dc.supporting + dc.opposing ==> x in cited
    requires forall x :: x in claim.supporting + claim.opposing <==> x in dc.supporting + dc.opposing
    ensures (forall e :: e in artifact.evidence && e.evidenceId in claim.supporting + claim.opposing
                    ==> EvidencePasses(ctx.(allowDocumentNumeric := true), [], e))
       <==> (forall e :: e in refs && e.evidenceId in dc.supporting + dc.opposing ==> EvidencePasses(ctx, [], e))
  {
    forall e: EvidenceRef
      ensures EvidencePasses(ctx.(allowDocumentNumeric := true), [], e) == EvidencePasses(ctx, [], e)
    {
      FlagIsIrrelevantToEvidence(ctx, [], e);
    }
  }

  lemma {:induction false} ClearOfDraft(
      ctx: Context, req: Request, artifact: AgentArtifact, refs: seq<EvidenceRef>, cited: set<Id>, dc: DraftClaim,
      id: Id, g: Guards)
    requires Attached(artifact, refs, cited) && ValidDraftClaim(dc)
    requires forall x :: x in dc.supporting + dc.opposing ==> x in cited
    ensures Clears(ctx, artifact, MaterializeClaim(dc, id, req.asOfDate), EvidenceIds(refs), g)
            <==> Sound(ctx, req, refs, dc, g)
  {
    var claim := MaterializeClaim(dc, id, req.asOfDate);
    ContractOfDraft(artifact, refs, cited, dc, id, req.asOfDate, ctx.trusted.asOfDate);
    EvidenceOfDraft(ctx, artifact, refs, cited, dc, claim);
    assert !CitesOutside(claim, EvidenceIds(refs)) by {
      forall x | x in claim.supporting + claim.opposing ensures x in EvidenceIds(refs) {
        CitedIsKnown(artifact, refs, cited, x);
      }
    }
  }

  lemma {:induction false} MaterializedIsAttached(req: Request, refs: seq<EvidenceRef>, d: Draft)
    requires |d.claims| <= |req.freshIds| && Materialize(req, refs, d).Answer?
    requires Materialize(req, refs, d).answer.answerStatus != ABSTAINED
    ensures Attached(Materialize(req, refs, d).answer.base, refs, DraftCitations(d))
    ensures forall dc :: dc in d.claims ==>
              ValidDraftClaim(dc) && forall x :: x in dc.supporting + dc.opposing ==> x in DraftCitations(d)
  {
  }

  lemma {:induction false} MaterializedIsClear(
      ctx: Context, req: Request, refs: seq<EvidenceRef>, d: Draft, g: Guards, k: nat)
    requires |d.claims| <= |req.freshIds| && Materialize(req, refs, d).Answer? && k < |d.claims|
    requires Materialize(req, refs, d).answer.answerStatus != ABSTAINED
    ensures Clears(ctx, Materialize(req, refs, d).answer.base, ClaimOf(req, d, k), EvidenceIds(refs), g)
       <==> Sound(ctx, req, refs, d.claims[k], g)
  {
    MaterializedIsAttached(req, refs, d);
    assert d.claims[k] in d.claims;
    ClearOfDraft(ctx, req, Materialize(req, refs, d).answer.base, refs, DraftCitations(d), d.claims[k], req.freshIds[k],
        g);
  }

  /** Some claim of the draft is of the conflict category. */
  predicate HasConflictCategory(d: Draft) {
    exists c :: c in d.claims && c.category == DATA_CONFLICT
  }

  /** A lexical guard flags a claim. */
  predicate AnyDraftFlagged(req: Request, d: Draft, guards: AgentClaim -> Guards)
    requires |d.claims| <= |req.freshIds|
  {
    exists k :: 0 <= k < |d.claims| && Flags(ClaimOf(req, d, k), guards(ClaimOf(req, d, k))) != {}
  }

  /** The claims of an answer are those of the draft, one by one. */
  predicate ClaimsOf(claims: seq<AgentClaim>, req: Request, d: Draft)
    requires |d.claims| <= |req.freshIds|
  {
    |claims| == |d.claims| && forall k :: 0 <= k < |claims| ==> claims[k] == ClaimOf(req, d, k)
  }

  lemma {:induction false} ConflictReadOff(claims: seq<AgentClaim>, req: Request, d: Draft)
    requires |d.claims| <= |req.freshIds| && ClaimsOf(claims, req, d)
    requires forall c :: c in claims ==> c.opposing == []
    ensures AnyConflictShaped(claims) <==> HasConflictCategory(d)
  {
    if c :| c in d.claims && c.category == DATA_CONFLICT {
      var k :| 0 <= k < |d.claims| && d.claims[k] == c;
      assert claims[k] in claims && ConflictShaped(claims[k]);
    }
    if c :| c in claims && ConflictShaped(c) {
      var k :| 0 <= k < |claims| && claims[k] == c;
      assert d.claims[k] in d.claims;
    }
  }

  lemma {:induction false} FlagsReadOff(claims: seq<AgentClaim>, req: Request, d: Draft, guards: AgentClaim -> Guards)
    requires |d.claims| <= |req.freshIds| && ClaimsOf(claims, req, d)
    ensures AnyFlagged(claims, guards) <==> AnyDraftFlagged(req, d, guards)
  {
    if k: nat :| k < |d.claims| && Flags(ClaimOf(req, d, k), guards(ClaimOf(req, d, k))) != {} {
      assert claims[k] in claims;
    }
    if c :| c in claims && Flags(c, guards(c)) != {} {
      var k :| 0 <= k < |claims| && claims[k] == c;
      assert claims[k] == ClaimOf(req, d, k);
    }
  }

  lemma {:induction false} FamilyReadOff(req: Request, refs: seq<EvidenceRef>, d: Draft, guards: AgentClaim -> Guards)
    requires |d.claims| <= |req.freshIds| && Materialize(req, refs, d).Answer?
    requires Materialize(req, refs, d).answer.answerStatus == ANSWERED
    ensures AnyConflictShaped(Materialize(req, refs, d).answer.base.claims) <==> HasConflictCategory(d)
    ensures AnyFlagged(Materialize(req, refs, d).answer.base.claims, guards) <==> AnyDraftFlagged(req, d, guards)
  {
    var claims := Materialize(req, refs, d).answer.base.claims;
    MaterializedClaims(req, refs, d);
    StatusReadOff(req, refs, d);
    ConflictReadOff(claims, req, d);
    FlagsReadOff(claims, req, d, guards);
  }

  lemma {:induction false} ClearIfSound(
      req: Request, refs: seq<EvidenceRef>, d: Draft, ctx: Context, guards: AgentClaim -> Guards)
    requires |d.claims| <= |req.freshIds| && Materialize(req, refs, d).Answer?
    ensures var a := Materialize(req, refs, d).answer;
            AllClear(ctx, a, EvidenceIds(refs), guards) <==>
              a.answerStatus == ABSTAINED || SoundDraft(ctx, req, refs, d, guards)
  {
    var a := Materialize(req, refs, d).answer;
    MaterializedClaims(req, refs, d);
    if a.answerStatus != ABSTAINED {
      forall k | 0 <= k < |d.claims|
        ensures Clears(ctx, a.base, a.base.claims[k], EvidenceIds(refs), guards(a.base.claims[k]))
           <==> Sound(ctx, req, refs, d.claims[k], guards(ClaimOf(req, d, k)))
      {
        MaterializedIsClear(ctx, req, refs, d, guards(ClaimOf(req, d, k)), k);
      }
    }
  }

  /** A draft that answers without reservation. */
  predicate Unreserved(d: Draft) {
    && d.claims != [] && !Truthy(d.abstentionReason) && d.missingInformation == [] && d.conflicts == []
    && forall c :: c in d.claims ==> c.verdict == SUPPORTED && c.opposing == []
  }

  predicate Plainly(claims: seq<AgentClaim>) {
    forall c :: c in claims ==> c.verdict == SUPPORTED && c.opposing == []
  }

  lemma {:induction false} PlainClaims(claims: seq<AgentClaim>, req: Request, d: Draft)
    requires |d.claims| <= |req.freshIds| && ClaimsOf(claims, req, d)
    ensures Plainly(claims) <==> forall c :: c in d.claims ==> c.verdict == SUPPORTED && c.opposing == []
  {
    if Plainly(claims) {
      forall c | c in d.claims ensures c.verdict == SUPPORTED && c.opposing == [] {
        var k :| 0 <= k < |d.claims| && d.claims[k] == c;
        assert claims[k] in claims;
        SameEmptiness(c.opposing);
      }
    }
    if forall c :: c in d.claims ==> c.verdict == SUPPORTED && c.opposing == [] {
      forall c | c in claims ensures c.verdict == SUPPORTED && c.opposing == [] {
        var k :| 0 <= k < |claims| && claims[k] == c;
        assert d.claims[k] in d.claims;
        SameEmptiness(d.claims[k].opposing);
      }
    }
  }

  lemma {:induction false} SameEmptiness(ids: seq<Id>)
    ensures Dedup(ids) == [] <==> ids == []
  {
    if ids != [] { assert ids[0] in Dedup(ids); }
  }

  lemma {:induction false} AbstainingIsReserved(d: Draft)
    ensures !(WillAbstain(d) && Unreserved(d))
  {
    if d.claims != [] { assert d.claims[0] in d.claims; }
  }

  lemma {:induction false} AnsweredIfUnreserved(req: Request, refs: seq<EvidenceRef>, d: Draft)
    requires |d.claims| <= |req.freshIds| && Materialize(req, refs, d).Answer?
    ensures Materialize(req, refs, d).answer.answerStatus == ANSWERED <==> Unreserved(d)
  {
    var a := Materialize(req, refs, d).answer;
    ForecastIsExact(req, refs, d);
    MaterializedClaims(req, refs, d);
    StatusReadOff(req, refs, d);
    AbstainingIsReserved(d);
    if a.answerStatus != ABSTAINED { PlainClaims(a.base.claims, req, d); }
  }

  /** On a valid case the audit of a materialized answer passes exactly if its draft abstains or has only sound claims,
      unless the draft answers without reservation and has a claim of the conflict category while no guard flags any. */
  lemma {:induction false} AuditPassesExactly(
      req: Request, refs: seq<EvidenceRef>, d: Draft, ctx: Context, guards: AgentClaim -> Guards)
    requires |d.claims| <= |req.freshIds| && NoDuplicates(req.freshIds) && Materialize(req, refs, d).Answer?
    requires CaseOk(ctx)
    ensures Audited(ctx, Materialize(req, refs, d).answer, EvidenceIds(refs), guards).Ok() <==>
              && (WillAbstain(d) || SoundDraft(ctx, req, refs, d, guards))
              && !(Unreserved(d) && HasConflictCategory(d) && !AnyDraftFlagged(req, d, guards))
  {
    var a, allowed := Materialize(req, refs, d).answer, EvidenceIds(refs);
    MaterializedIsValid(req, refs, d);
    MaterializedIdsAreDistinct(req, refs, d);
    CleanVerify(ctx, a);
    AuditAgreesWithMaterializer(req, refs, d, ctx, guards);
    NoneRejectedIfAllClear(ctx, a, allowed, guards);
    ClearIfSound(req, refs, d, ctx, guards);
    ForecastIsExact(req, refs, d);
    AnsweredIfUnreserved(req, refs, d);
    if a.answerStatus == ANSWERED { FamilyReadOff(req, refs, d, guards); }
  }

  // ---------------------------------------------------------------- what an answer that has passed is good for

  lemma {:induction false} CountedIdsAreDistinct(claims: seq<AgentClaim>)
    ensures |ClaimIdSet(claims)| <= |claims|
    ensures |ClaimIdSet(claims)| == |claims| ==> NoDuplicates(ClaimIds(claims))
  {
    if claims != [] {
      var front, last := claims[..|claims| - 1], claims[|claims| - 1];
      assert claims == front + [last];
      assert ClaimIdSet(claims) == ClaimIdSet(front) + {last.claimId};
      CountedIdsAreDistinct(front);
      IdsOfClaims(front, last.claimId);
      assert ClaimIds(claims) == ClaimIds(front) + [last.claimId];
    } else {
      assert ClaimIdSet([]) == {};
    }
  }

  /** An answer, of whatever origin, that passes its audit: the case is valid, claim ids are distinct, every claim meets
      the contract on cited evidence that passes in full and was packed, every calculation replays, and exactly what is
      cited is attached. */
  predicate Trustworthy(ctx: Context, a: GroundedAnswer, allowed: set<Id>, guards: AgentClaim -> Guards) {
    && CaseOk(ctx) && NoDuplicates(ClaimIds(a.base.claims)) && AllClear(ctx, a, allowed, guards)
    && (forall c :: c in a.base.calculations ==> c.replays)
    && EvidenceIds(a.base.evidence) == CitedIds(a.base.claims) && EvidenceIds(a.base.evidence) <= allowed
  }

  lemma {:induction false} NoReplayFailed(calculations: seq<Calculation>)
    requires FailedReplays(calculations) == []
    ensures forall c :: c in calculations ==> c.replays
  {
    if calculations != [] {
      NoReplayFailed(calculations[..|calculations| - 1]);
      assert calculations == calculations[..|calculations| - 1] + [calculations[|calculations| - 1]];
    }
  }

  /** The findings of a passing audit, part by part. */
  lemma {:induction false} PassedParts(ctx: Context, a: GroundedAnswer, allowed: set<Id>, guards: AgentClaim -> Guards)
    requires Audited(ctx, a, allowed, guards).Ok()
    ensures a.base.executionStatus == ExecutionStatusFor(a.answerStatus) && a.base.executionStatus != FAILED
    ensures var before := BeforeStatus(VerifiedAnswer(ctx, a), a, allowed, guards);
            && Audited(ctx, a, allowed, guards) == SettleStatus(before, a) && before.lists.rejected == []
            && VerifiedAnswer(ctx, a).blocking == [] && VerifiedAnswer(ctx, a).replayFailures == []
            && PackingCodes(a, allowed) == {} && DuplicateCodes(a) == {}
            && StatusCodes(a, DerivedStatus(before.lists, a), NormalizationDue(before, a)) == {}
  {
  }

  lemma {:induction false} CaseWasValid(ctx: Context, a: GroundedAnswer)
    requires VerifiedAnswer(ctx, a).blocking == []
    ensures CaseOk(ctx)
  {
    VerifySingle(ctx.(allowDocumentNumeric := true), a.base);
  }

  lemma {:induction false} CodesEmpty(a: GroundedAnswer, allowed: set<Id>)
    requires PackingCodes(a, allowed) == {} && DuplicateCodes(a) == {}
    ensures EvidenceIds(a.base.evidence) == CitedIds(a.base.claims) && EvidenceIds(a.base.evidence) <= allowed
    ensures |ClaimIdSet(a.base.claims)| == |a.base.claims|
  {
    assert EvidenceIds(a.base.evidence) != CitedIds(a.base.claims)
           ==> ARTIFACT_EVIDENCE_NOT_EXACTLY_CITED in PackingCodes(a, allowed);
    assert !(EvidenceIds(a.base.evidence) <= allowed) ==> EVIDENCE_NOT_IN_PACKED_CONTEXT in PackingCodes(a, allowed);
    assert |ClaimIdSet(a.base.claims)| != |a.base.claims| ==> DUPLICATE_CLAIM_ID in DuplicateCodes(a);
  }

  lemma {:induction false} PassedIsTrustworthy(
      ctx: Context, a: GroundedAnswer, allowed: set<Id>, guards: AgentClaim -> Guards)
    requires Audited(ctx, a, allowed, guards).Ok()
    ensures Trustworthy(ctx, a, allowed, guards)
  {
    PassedParts(ctx, a, allowed, guards);
    CaseWasValid(ctx, a);
    CodesEmpty(a, allowed);
    CountedIdsAreDistinct(a.base.claims);
    NoneRejectedIfAllClear(ctx, a, allowed, guards);
    VerifySingle(ctx.(allowDocumentNumeric := true), a.base);
    NoReplayFailed(a.base.calculations);
  }

  /** After the service's downgrade, if one is due, the answer passes a second audit with its own status derived. */
  lemma {:induction false} PassedStaysPassed(
      ctx: Context, a: GroundedAnswer, allowed: set<Id>, guards: AgentClaim -> Guards)
    requires Audited(ctx, a, allowed, guards).Ok() && ValidAnswer(a)
    ensures var b := Downgrade(a, Audited(ctx, a, allowed, guards)).0;
            var g := Audited(ctx, b, allowed, guards);
            ValidAnswer(b) && g.Ok() && g.derived == Some(b.answerStatus) && !g.normalize
  {
    PassedParts(ctx, a, allowed, guards);
    DowngradeIsFinal(ctx, a, allowed, guards);
    var f := Audited(ctx, a, allowed, guards);
    if !Downgrade(a, f).1 {
      NoDowngradeDue(f, BeforeStatus(VerifiedAnswer(ctx, a), a, allowed, guards), a);
    }
  }

  /** An answer that is valid and trustworthy, and on which another audit changes nothing. */
  predicate Stands(ctx: Context, a: GroundedAnswer, allowed: set<Id>, guards: AgentClaim -> Guards) {
    var f := Audited(ctx, a, allowed, guards);
    && ValidAnswer(a) && Trustworthy(ctx, a, allowed, guards)
    && f.Ok() && f.derived == Some(a.answerStatus) && Downgrade(a, f) == (a, false)
  }

  lemma {:induction false} PassedAnswerStands(
      ctx: Context, a: GroundedAnswer, b: GroundedAnswer, allowed: set<Id>, guards: AgentClaim -> Guards)
    requires Audited(ctx, a, allowed, guards).Ok() && ValidAnswer(a)
             && b == Downgrade(a, Audited(ctx, a, allowed, guards)).0
    ensures Stands(ctx, b, allowed, guards)
  {
    PassedStaysPassed(ctx, a, allowed, guards);
    PassedIsTrustworthy(ctx, b, allowed, guards);
  }

  lemma {:induction false} NoDowngradeDue(f: Findings, before: Findings, a: GroundedAnswer)
    requires f == SettleStatus(before, a) && f.Ok() && !Downgrade(a, f).1 && a.base.executionStatus != FAILED
    requires StatusCodes(a, DerivedStatus(before.lists, a), NormalizationDue(before, a)) == {}
    ensures f.derived == Some(a.answerStatus) && !f.normalize
  {
    var codes := StatusCodes(a, DerivedStatus(before.lists, a), NormalizationDue(before, a));
    assert f.derived != Some(a.answerStatus) && !f.normalize ==> ANSWER_STATUS_MISMATCH in codes;
  }
}
