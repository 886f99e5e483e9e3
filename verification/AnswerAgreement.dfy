/** The materializer, the auditor and the service's downgrade agree about the answer state
    (grounded_qa.py:405-532, auditor.py:503-734, qa_service.py:1455-1479). */
module AnswerAgreement {
  import opened Common
  import opened Contracts
  import opened EvidenceAuditor
  import opened ClaimAudit
  import opened AnswerAudit
  import opened GroundedQA

  // ---------------------------------------------------------------- the service's downgrade

  /** _normalize_non_blocking_review: the auditor-owned ANSWERED -> NEEDS_REVIEW downgrade. */
  function Downgrade(a: GroundedAnswer, f: Findings): (GroundedAnswer, bool) {
    if f.normalize && f.Ok() && f.RequiresHumanReview() && f.derived == Some(NEEDS_REVIEW)
       && a.answerStatus == ANSWERED && a.base.executionStatus != FAILED
    then (a.(answerStatus := NEEDS_REVIEW, directAnswer := None, base := a.base.(executionStatus := PARTIAL),
             abstentionReason := None, refusalReason := None), true)
    else (a, false)
  }

  // ---------------------------------------------------------------- what verify leaves for the gate

  predicate AnyFlagged(claims: seq<AgentClaim>, guards: AgentClaim -> Guards) {
    exists c :: c in claims && Flags(c, guards(c)) != {}
  }

  predicate AnyConflictShaped(claims: seq<AgentClaim>) {
    exists c :: c in claims && ConflictShaped(c)
  }

  /** The one family the gate refuses without rejecting a claim. */
  predicate UnflaggedConflict(a: GroundedAnswer, guards: AgentClaim -> Guards) {
    a.answerStatus == ANSWERED && AnyConflictShaped(a.base.claims) && !AnyFlagged(a.base.claims, guards)
  }

  lemma {:induction false} CleanVerify(ctx: Context, a: GroundedAnswer)
    requires CaseOk(ctx) && a.base.executionStatus != FAILED && a.base.calculations == []
    ensures var f := VerifiedAnswer(ctx, a);
            f.blocking == [] && f.replayFailures == [] && f.answerOk && f.answerCodes == {}
  {
    VerifySingle(ctx.(allowDocumentNumeric := true), a.base);
  }

  /** After verify, a claim that is not rejected has no codes, and is in review iff it is conflict-shaped. */
  lemma {:induction false} VerifyLeaves(ctx: Context, a: GroundedAnswer, k: nat)
    requires CaseOk(ctx) && a.base.executionStatus != FAILED
    requires k < |a.base.claims| && NoDuplicates(ClaimIds(a.base.claims))
    requires a.base.claims[k].claimId !in VerifiedAnswer(ctx, a).lists.rejected
    ensures var l, id := VerifiedAnswer(ctx, a).lists, a.base.claims[k].claimId;
            CodesOf(l.codes, id) == {} && (id in l.review <==> ConflictShaped(a.base.claims[k]))
  {
    var c := ctx.(allowDocumentNumeric := true);
    VerifySingle(c, a.base);
    assert FilingIds(Filings(c, a.base)) == ClaimIds(a.base.claims);
    FiledAlone(Filings(c, a.base), k);
  }

  /** Each claim's place and codes are its own shape and flags. */
  ghost predicate ReadsOff(m: Lists, claims: seq<AgentClaim>, guards: AgentClaim -> Guards, k: nat)
    requires k < |claims|
  {
    && CodesOf(m.codes, claims[k].claimId) == Flags(claims[k], guards(claims[k]))
    && (claims[k].claimId in m.review <==> ConflictShaped(claims[k]) || Flags(claims[k], guards(claims[k])) != {})
  }

  lemma {:induction false} ReviewReadOff(m: Lists, claims: seq<AgentClaim>, guards: AgentClaim -> Guards)
    requires forall k :: 0 <= k < |claims| ==> ReadsOff(m, claims, guards, k)
    requires forall id :: id in m.review ==> id in ClaimIds(claims)
    ensures m.review != [] <==> AnyConflictShaped(claims) || AnyFlagged(claims, guards)
    ensures ReviewCodes(m) != {} <==> AnyFlagged(claims, guards)
    ensures ReviewCodes(m) <= NON_BLOCKING
  {
    forall id | id in m.review
      ensures exists k :: 0 <= k < |claims| && claims[k].claimId == id && ReadsOff(m, claims, guards, k)
    {
      var k :| 0 <= k < |claims| && ClaimIds(claims)[k] == id;
      assert ReadsOff(m, claims, guards, k);
    }
    if m.review != [] { assert m.review[0] in m.review; }
    forall c | c in claims && Flags(c, guards(c)) != {} ensures c.claimId in m.review && ReviewCodes(m) != {} {
      var k :| 0 <= k < |claims| && claims[k] == c;
      assert ReadsOff(m, claims, guards, k);
      var code :| code in Flags(c, guards(c));
      assert code in CodesOf(m.codes, c.claimId);
      assert code in ReviewCodes(m);
    }
    forall c | c in claims && ConflictShaped(c) ensures c.claimId in m.review {
      var k :| 0 <= k < |claims| && claims[k] == c;
      assert ReadsOff(m, claims, guards, k);
    }
  }

  /** Once every claim survives, the review list and its codes are read off the claims. */
  lemma {:induction false} SurvivorReadsOff(
      ctx: Context, a: GroundedAnswer, allowed: set<Id>, guards: AgentClaim -> Guards, k: nat)
    requires CaseOk(ctx) && a.base.executionStatus == ExecutionStatusFor(a.answerStatus)
    requires NoDuplicates(ClaimIds(a.base.claims)) && k < |a.base.claims|
    requires AuditClaims(VerifiedAnswer(ctx, a).lists, a.base.claims, |a.base.claims|, allowed, guards).rejected == []
    ensures !HardReject(a.base.claims[k], allowed, guards(a.base.claims[k]))
    ensures ReadsOff(AuditClaims(VerifiedAnswer(ctx, a).lists, a.base.claims, |a.base.claims|, allowed, guards),
            a.base.claims, guards, k)
  {
    VerifyFilesEachClaimOnce(ctx, a);
    AuditClaimsSettle(VerifiedAnswer(ctx, a).lists, a.base.claims, |a.base.claims|, allowed, guards, k);
    VerifyLeaves(ctx, a, k);
  }

  lemma {:induction false} SurvivorsReadOff(
      ctx: Context, a: GroundedAnswer, allowed: set<Id>, guards: AgentClaim -> Guards)
    requires CaseOk(ctx) && a.base.executionStatus == ExecutionStatusFor(a.answerStatus)
    requires NoDuplicates(ClaimIds(a.base.claims)) && a.base.calculations == []
    requires Audited(ctx, a, allowed, guards).lists.rejected == []
    ensures var claims, m := a.base.claims, Audited(ctx, a, allowed, guards).lists;
            && NoHardReject(claims, |claims|, allowed, guards)
            && (m.review != [] <==> AnyConflictShaped(claims) || AnyFlagged(claims, guards))
            && (ReviewCodes(m) != {} <==> AnyFlagged(claims, guards))
            && ReviewCodes(m) <= NON_BLOCKING
  {
    CleanVerify(ctx, a);
    var claims, l := a.base.claims, VerifiedAnswer(ctx, a).lists;
    var m := AuditClaims(l, claims, |claims|, allowed, guards);
    AuditPartitionsClaims(ctx, a, allowed, guards);
    forall k | 0 <= k < |claims|
      ensures !HardReject(claims[k], allowed, guards(claims[k])) && ReadsOff(m, claims, guards, k)
    {
      SurvivorReadsOff(ctx, a, allowed, guards, k);
    }
    forall id | id in m.review ensures id in ClaimIds(claims) {
      assert IsFiled(m, id);
      IdsOfClaims(claims, id);
    }
    ReviewReadOff(m, claims, guards);
  }

  // ---------------------------------------------------------------- the shape of a materialized answer

  lemma {:induction false} MaterializedClaims(req: Request, refs: seq<EvidenceRef>, d: Draft)
    requires |d.claims| <= |req.freshIds| && Materialize(req, refs, d).Answer?
    ensures var a := Materialize(req, refs, d).answer;
            a.base.claims == if a.answerStatus == ABSTAINED then []
                else MaterializeClaims(d.claims, req.freshIds, req.asOfDate)
  {
  }

  lemma {:induction false} DraftCitationsAreKept(d: Draft, ids: seq<Id>, asOf: Date)
    requires |d.claims| <= |ids|
    ensures CitedIds(MaterializeClaims(d.claims, ids, asOf)) == DraftCitations(d)
  {
    var claims := MaterializeClaims(d.claims, ids, asOf);
    forall id | id in DraftCitations(d) ensures id in CitedIds(claims) {
      var c :| c in d.claims && id in c.supporting + c.opposing;
      var i :| 0 <= i < |d.claims| && d.claims[i] == c;
      assert claims[i] in claims && id in claims[i].supporting + claims[i].opposing;
    }
    forall id | id in CitedIds(claims) ensures id in DraftCitations(d) {
      var c :| c in claims && id in c.supporting + c.opposing;
      var i :| 0 <= i < |claims| && claims[i] == c;
      assert d.claims[i] in d.claims && id in d.claims[i].supporting + d.claims[i].opposing;
    }
  }

  /** A materialized answer carries exactly its cited evidence, all of it packed. */
  lemma {:induction false} MaterializedIsPacked(req: Request, refs: seq<EvidenceRef>, d: Draft)
    requires |d.claims| <= |req.freshIds| && Materialize(req, refs, d).Answer?
    ensures var a := Materialize(req, refs, d).answer;
            PackingCodes(a, EvidenceIds(refs)) == {} && CitedIds(a.base.claims) <= EvidenceIds(refs)
  {
    var a := Materialize(req, refs, d).answer;
    DraftCitationsAreKept(d, req.freshIds, req.asOfDate);
    MaterializedClaims(req, refs, d);
    if a.answerStatus == ABSTAINED {
      assert CitedIds([]) == {} == EvidenceIds([]);
    } else {
      var cited := DraftCitations(d);
      forall id | id in cited ensures id in EvidenceIds(CitedRefs(refs, cited)) {
        var e :| e in refs && e.evidenceId == id;
        assert e in CitedRefs(refs, cited);
      }
      assert EvidenceIds(CitedRefs(refs, cited)) == cited;
    }
  }

  lemma {:induction false} DistinctIdsCount(claims: seq<AgentClaim>)
    requires NoDuplicates(ClaimIds(claims))
    ensures |ClaimIdSet(claims)| == |claims|
  {
    if claims != [] {
      var front, last := claims[..|claims| - 1], claims[|claims| - 1];
      assert ClaimIds(front) == ClaimIds(claims)[..|front|];
      DistinctIdsCount(front);
      IdsOfClaims(front, last.claimId);
      assert claims == front + [last];
      assert ClaimIdSet(claims) == ClaimIdSet(front) + {last.claimId};
      forall j | 0 <= j < |front| ensures ClaimIds(front)[j] != last.claimId {
        assert ClaimIds(claims)[j] != ClaimIds(claims)[|front|];
      }
    } else {
      assert ClaimIdSet([]) == {};
    }
  }

  lemma {:induction false} MaterializedIdsAreDistinct(req: Request, refs: seq<EvidenceRef>, d: Draft)
    requires |d.claims| <= |req.freshIds| && NoDuplicates(req.freshIds) && Materialize(req, refs, d).Answer?
    ensures var a := Materialize(req, refs, d).answer; NoDuplicates(ClaimIds(a.base.claims)) && DuplicateCodes(a) == {}
  {
    var a := Materialize(req, refs, d).answer;
    MaterializedClaims(req, refs, d);
    assert forall i :: 0 <= i < |a.base.claims| ==> ClaimIds(a.base.claims)[i] == req.freshIds[i];
    DistinctIdsCount(a.base.claims);
  }

  /** What the state of a materialized answer says about its claims. */
  lemma {:induction false} StatusReadOff(req: Request, refs: seq<EvidenceRef>, d: Draft)
    requires |d.claims| <= |req.freshIds| && Materialize(req, refs, d).Answer?
    ensures var a := Materialize(req, refs, d).answer;
            var signal := a.conflicts != [] || a.missingInformation != []
                          || exists c :: c in a.base.claims && (c.opposing != [] || c.verdict != SUPPORTED);
            match a.answerStatus
            case ABSTAINED => a.base.claims == []
            case NEEDS_REVIEW => a.base.claims != [] && signal
            case ANSWERED => a.base.claims != [] && !signal
  {
    var claims := MaterializeClaims(d.claims, req.freshIds, req.asOfDate);
    MaterializedClaims(req, refs, d);
    SupportedMembers(claims);
  }

  // ---------------------------------------------------------------- the agreement theorems

  /** Whatever claims went to review, the auditor derives the materializer's status or the permitted downgrade. */
  lemma {:induction false} DerivedStatusAgrees(req: Request, refs: seq<EvidenceRef>, d: Draft, l: Lists)
    requires |d.claims| <= |req.freshIds| && Materialize(req, refs, d).Answer?
    ensures var a := Materialize(req, refs, d).answer;
            DerivedStatus(l, a) == a.answerStatus || (a.answerStatus == ANSWERED && DerivedStatus(l, a) == NEEDS_REVIEW)
  {
    StatusReadOff(req, refs, d);
  }

  /** On every accepted draft the auditor re-derives the materializer's state, or the one permitted
      downgrade ANSWERED -> NEEDS_REVIEW. If no claim is rejected the audit passes, except in exactly one
      family: an ANSWERED answer with a conflict-category claim that no lexical guard flags. */
  lemma {:induction false} AuditAgreesWithMaterializer(
    req: Request, refs: seq<EvidenceRef>, d: Draft, ctx: Context, guards: AgentClaim -> Guards)
    requires |d.claims| <= |req.freshIds| && NoDuplicates(req.freshIds) && Materialize(req, refs, d).Answer?
    requires CaseOk(ctx)
    ensures var a := Materialize(req, refs, d).answer;
            var f := Audited(ctx, a, EvidenceIds(refs), guards);
            && (f.derived == Some(a.answerStatus) || (a.answerStatus == ANSWERED && f.derived == Some(NEEDS_REVIEW)))
            && (f.lists.rejected == [] ==>
                  (f.Ok() <==> !UnflaggedConflict(a, guards)))
            && (f.Ok() ==> (f.normalize <==> f.derived != Some(a.answerStatus)))
  {
    var a := Materialize(req, refs, d).answer;
    var allowed := EvidenceIds(refs);
    MaterializedIsValid(req, refs, d);
    MaterializedIsPacked(req, refs, d);
    MaterializedIdsAreDistinct(req, refs, d);
    CleanVerify(ctx, a);
    var before := BeforeStatus(VerifiedAnswer(ctx, a), a, allowed, guards);
    assert Audited(ctx, a, allowed, guards) == SettleStatus(before, a);
    DerivedStatusAgrees(req, refs, d, before.lists);
    if before.lists.rejected == [] {
      SurvivorsReadOff(ctx, a, allowed, guards);
      AnsweredRendering(req, refs, d);
      StatusReadOff(req, refs, d);
      GateOnSurvivors(before, a, AnyConflictShaped(a.base.claims), AnyFlagged(a.base.claims, guards));
    }
  }

  /** The gate when every claim survived: `shaped` and `flagged` say whether some claim is
      conflict-shaped or flagged. */
  lemma {:induction false} GateOnSurvivors(before: Findings, a: GroundedAnswer, shaped: bool, flagged: bool)
    requires before.lists.rejected == [] && before.replayFailures == [] && before.blocking == [] && before.answerOk
    requires before.lists.review != [] <==> shaped || flagged
    requires (ReviewCodes(before.lists) != {} <==> flagged) && ReviewCodes(before.lists) <= NON_BLOCKING
    requires shaped <==> AnyConflictShaped(a.base.claims)
    requires DuplicateCodes(a) == {}
    requires match a.answerStatus
             case ABSTAINED => a.base.claims == [] && a.directAnswer.None? && Truthy(a.abstentionReason)
             case NEEDS_REVIEW => a.directAnswer.None? && DerivedStatus(before.lists, a) == NEEDS_REVIEW
             case ANSWERED => a.base.claims != [] && Text(a.directAnswer) == Rendering(SupportedClaims(a.base.claims))
                              && a.conflicts == [] && a.missingInformation == []
                              && forall c :: c in a.base.claims ==> c.opposing == [] && c.verdict == SUPPORTED
    ensures var f := SettleStatus(before, a);
            && (f.Ok() <==> !(a.answerStatus == ANSWERED && shaped && !flagged))
            && (f.Ok() ==> (f.normalize <==> f.derived != Some(a.answerStatus)))
  {
    if a.answerStatus == ANSWERED {
      assert DerivedStatus(before.lists, a) == if shaped || flagged then NEEDS_REVIEW else ANSWERED;
      assert NormalizationDue(before, a) <==> flagged;
    }
  }

  lemma {:induction false} AnsweredRendering(req: Request, refs: seq<EvidenceRef>, d: Draft)
    requires |d.claims| <= |req.freshIds| && Materialize(req, refs, d).Answer?
    ensures var a := Materialize(req, refs, d).answer;
            && (a.answerStatus == ANSWERED ==> Text(a.directAnswer) == Rendering(SupportedClaims(a.base.claims)))
            && (a.answerStatus != ANSWERED ==> a.directAnswer.None?)
            && (a.answerStatus == ABSTAINED ==> Truthy(a.abstentionReason))
  {
    MaterializedClaims(req, refs, d);
  }

  // ---------------------------------------------------------------- the downgrade is final

  /** Changing only the execution status between non-failed values changes no ruling. */
  lemma {:induction false} StatusDoesNotRule(ctx: Context, artifact: AgentArtifact, status: ExecutionStatus)
    requires artifact.executionStatus != FAILED && status != FAILED
    ensures var other := artifact.(executionStatus := status);
            && Filings(ctx, other) == Filings(ctx, artifact)
            && ReplaysOf(ctx, other) == ReplaysOf(ctx, artifact) && BlockingOf(ctx, other) == BlockingOf(ctx, artifact)
  {
    var other := artifact.(executionStatus := status);
    assert BadEvidence(ctx, other) == BadEvidence(ctx, artifact);
    assert forall c :: MeetsContract(other, c, ctx.trusted.asOfDate, ctx.allowDocumentNumeric)
                  <==> MeetsContract(artifact, c, ctx.trusted.asOfDate, ctx.allowDocumentNumeric);
    assert BlamedIds(other, ctx.trusted.asOfDate, ctx.allowDocumentNumeric)
        == BlamedIds(artifact, ctx.trusted.asOfDate, ctx.allowDocumentNumeric);
  }

  /** A downgraded answer satisfies its validator, re-audits clean with the same claim lists,
      and is not downgraded again. */
  lemma {:induction false} DowngradeIsFinal(
      ctx: Context, a: GroundedAnswer, allowed: set<Id>, guards: AgentClaim -> Guards)
    requires a.base.grounded
    ensures var f := Audited(ctx, a, allowed, guards);
            var (b, downgraded) := Downgrade(a, f);
            downgraded ==>
              var g := Audited(ctx, b, allowed, guards);
              && ValidAnswer(b) && g.Ok() && g.lists == f.lists
              && g.derived == Some(b.answerStatus) && !g.normalize && Downgrade(b, g) == (b, false)
  {
    var f := Audited(ctx, a, allowed, guards);
    var (b, downgraded) := Downgrade(a, f);
    if downgraded {
      var c := ctx.(allowDocumentNumeric := true);
      StatusDoesNotRule(c, a.base, PARTIAL);
      VerifySingle(c, a.base);
      VerifySingle(c, b.base);
      var before, after := BeforeStatus(VerifiedAnswer(ctx, a), a, allowed, guards),
          BeforeStatus(VerifiedAnswer(ctx, b), b, allowed, guards);
      assert f == SettleStatus(before, a);
      assert after.lists == before.lists && after.answerOk == before.answerOk;
      assert DerivedStatus(after.lists, b) == DerivedStatus(before.lists, a) == NEEDS_REVIEW;
    }
  }

  /** A passing audit downgrades an answer exactly if it derives another state than the answer's own; the downgrade then
      changes the state, and takes the answer text away, and nothing else. */
  lemma {:induction false} DowngradedExactly(
      ctx: Context, a: GroundedAnswer, allowed: set<Id>, guards: AgentClaim -> Guards)
    requires ValidAnswer(a) && Audited(ctx, a, allowed, guards).Ok()
    ensures var f := Audited(ctx, a, allowed, guards);
            var (b, downgraded) := Downgrade(a, f);
            && (downgraded <==> f.derived != Some(a.answerStatus))
            && (downgraded ==> a.answerStatus == ANSWERED && b.answerStatus == NEEDS_REVIEW && b.directAnswer == None)
            && b.base.claims == a.base.claims && b.base.evidence == a.base.evidence
            && b.base.calculations == a.base.calculations
            && b.base.producer == a.base.producer && b.base.grounded == a.base.grounded
            && b.missingInformation == a.missingInformation && b.conflicts == a.conflicts
            && b.provenance == a.provenance
            && (!downgraded ==> b == a)
  {
    var f, before := Audited(ctx, a, allowed, guards), BeforeStatus(VerifiedAnswer(ctx, a), a, allowed, guards);
    assert f == SettleStatus(before, a);
    StatusAgrees(before, a);
  }

  lemma {:induction false} StatusAgrees(before: Findings, a: GroundedAnswer)
    ensures var f := SettleStatus(before, a);
            f.answerOk ==> f.derived == Some(a.answerStatus) || f.normalize
    ensures NormalizationDue(before, a) ==> DerivedStatus(before.lists, a) != a.answerStatus
  {
    var codes := StatusCodes(a, DerivedStatus(before.lists, a), NormalizationDue(before, a));
    assert a.answerStatus != DerivedStatus(before.lists, a) && !NormalizationDue(before, a)
           ==> ANSWER_STATUS_MISMATCH in codes;
  }

  /** The guards that never reject a claim by themselves. */
  predicate IsSoft(code: AuditCode) {
    || code == POLARITY_CONFLICT_WITH_CITATION || code == THRESHOLD_DIRECTION_CONFLICT_WITH_CITATION
    || code == STRUCTURAL_COVERAGE_INSUFFICIENT
  }

  /** Some claim is under review, and everything recorded against those that are is soft. */
  predicate OnlySoftCodes(l: Lists) {
    && (forall id, code :: id in l.review && code in CodesOf(l.codes, id) ==> IsSoft(code))
    && exists id :: id in l.review && CodesOf(l.codes, id) != {}
  }

  lemma {:induction false} ReviewIsSoft(l: Lists)
    ensures (ReviewCodes(l) != {} && ReviewCodes(l) <= NON_BLOCKING) <==> OnlySoftCodes(l)
  {
    if ReviewCodes(l) != {} && ReviewCodes(l) <= NON_BLOCKING {
      var code :| code in ReviewCodes(l);
      forall id, code | id in l.review && code in CodesOf(l.codes, id) ensures IsSoft(code) {
        assert code in ReviewCodes(l);
      }
    }
    if OnlySoftCodes(l) {
      var id :| id in l.review && CodesOf(l.codes, id) != {};
      var code :| code in CodesOf(l.codes, id);
      assert code in ReviewCodes(l);
      forall c | c in ReviewCodes(l) ensures c in NON_BLOCKING {
        var i :| i in l.review && c in CodesOf(l.codes, i);
        assert IsSoft(c);
      }
    }
  }

  /** The auditor asks for the downgrade only where it is satisfied: with distinct claim ids, exactly if it passes an
      ANSWERED answer, derives NEEDS_REVIEW, and has only soft codes against the claims under review. */
  lemma {:induction false} NormalizedExactly(
      ctx: Context, a: GroundedAnswer, allowed: set<Id>, guards: AgentClaim -> Guards)
    requires NoDuplicates(ClaimIds(a.base.claims))
    ensures var f := Audited(ctx, a, allowed, guards);
            f.normalize <==> && f.Ok() && a.answerStatus == ANSWERED && f.derived == Some(NEEDS_REVIEW)
                             && OnlySoftCodes(f.lists)
  {
    DistinctIdsCount(a.base.claims);
    var before := BeforeStatus(VerifiedAnswer(ctx, a), a, allowed, guards);
    ReviewIsSoft(before.lists);
    SettledNormalizes(before, a);
  }

  lemma {:induction false} SettledNormalizes(before: Findings, a: GroundedAnswer)
    requires DuplicateCodes(a) == {}
    ensures var f := SettleStatus(before, a);
            f.normalize ==> f.Ok() && a.answerStatus == ANSWERED && f.derived == Some(NEEDS_REVIEW)
    ensures var f := SettleStatus(before, a);
            f.Ok() && a.answerStatus == ANSWERED && f.derived == Some(NEEDS_REVIEW) ==> f.normalize
  {
    StatusAgrees(before, a);
  }

  // ---------------------------------------------------------------- the one family the gate refuses

  /** Guards that find nothing wrong. */
  function Quiet(claim: AgentClaim): Guards {
    Guards(NumericSpans.Scan([], [], [], []), map[], false, false, true)
  }

  lemma {:induction false} QuietRejectsNothing(claims: seq<AgentClaim>, n: nat, allowed: set<Id>)
    requires n <= |claims| && forall c :: c in claims ==> !CitesOutside(c, allowed)
    ensures NoHardReject(claims, n, allowed, Quiet)
  {
    NumericSpans.NothingScanned();
  }

  /** A case with one current, parsed and frozen document section. */
  function SoundContext(): Context {
    var db := Tables(map[1 := CaseRow(7, 2)], map[], map[10 := SectionRow(7, 20, 30, "h", 1, 1)],
                     map[20 := VersionRow(7, None, None, None, Some(30))], map[30 := ParseRunRow(7, 20, false)],
                         {(1, 20)});
    Context(db, Trusted(7, 1, 0, 0), Some(Snapshot([30], [])), false)
  }

  function SoundRefs(): seq<EvidenceRef> {
    [EvidenceRefOf(PackedSection(5, 10, 20, 30, 1, "h"))]
  }

  function ConflictClaim(): DraftClaim {
    DraftClaim(DATA_CONFLICT, Statement("x", false, false, {}), SUPPORTED, [5], [], None)
  }

  function ConflictDraft(): Draft {
    Draft([ConflictClaim()], [], [], None, None, false)
  }

  function ConflictRequest(): Request {
    Request(0, 6, Provenance(1, 1, "grounded_qa", "1.1", "v1", CREATED, "", []), [100])
  }

  lemma {:induction false} ConflictDraftIsAccepted()
    ensures EvidenceIds(SoundRefs()) == {5} && DraftCitations(ConflictDraft()) == {5}
    ensures ValidDraft(ConflictDraft()) && Refusal(SoundRefs(), ConflictDraft(), 6).None?
  {
    var d, refs := ConflictDraft(), SoundRefs();
    assert Strip("x") == "x";
    assert refs[0] in refs && EvidenceIds(refs) == {5};
    assert DraftCitations(d) == {5} by {
      assert ConflictClaim() in d.claims && 5 in ConflictClaim().supporting + ConflictClaim().opposing;
    }
  }

  lemma {:induction false} ConflictClaimsDecide(claims: seq<AgentClaim>)
    requires claims == [MaterializeClaim(ConflictClaim(), 100, 0)]
    ensures Decide(ConflictDraft(), claims) == Outcome(ANSWERED, None)
  {
    assert claims[0] in claims;
    SupportedMembers(claims);
  }

  lemma {:induction false} ConflictDraftIsAnswered()
    ensures var m := Materialize(ConflictRequest(), SoundRefs(), ConflictDraft());
            && m.Answer? && m.answer.answerStatus == ANSWERED
            && m.answer.base.claims == [MaterializeClaim(ConflictClaim(), 100, 0)]
            && EvidenceIds(SoundRefs()) == {5}
            && EvidenceIds(m.answer.base.evidence) == {5}
            && forall e :: e in m.answer.base.evidence ==> e in SoundRefs()
  {
    var claims := MaterializeClaims(ConflictDraft().claims, [100], 0);
    ConflictDraftIsAccepted();
    assert claims == [MaterializeClaim(ConflictClaim(), 100, 0)];
    ConflictClaimsDecide(claims);
    assert SoundRefs()[0] in CitedRefs(SoundRefs(), {5});
  }

  /** The family is not empty: one SUPPORTED claim of category DATA_CONFLICT with sound evidence and quiet
      guards is ANSWERED for the materializer and refused by the auditor although no claim is rejected. */
  lemma {:induction false} ConflictCategoryIsRefused()
    ensures Materialize(ConflictRequest(), SoundRefs(), ConflictDraft()).Answer?
    ensures var a := Materialize(ConflictRequest(), SoundRefs(), ConflictDraft()).answer;
            var f := Audited(SoundContext(), a, EvidenceIds(SoundRefs()), Quiet);
            a.answerStatus == ANSWERED && f.lists.rejected == [] && !f.Ok()
  {
    ConflictDraftIsAnswered();
    var ctx, a := SoundContext(), Materialize(ConflictRequest(), SoundRefs(), ConflictDraft()).answer;
    var c := ctx.(allowDocumentNumeric := true);
    assert EvidencePasses(c, [], SoundRefs()[0]);
    SoleConflictClaimSurvives(c, a.base, 100);
    VerifySingle(c, a.base);
    QuietRejectsNothing(a.base.claims, 1, EvidenceIds(SoundRefs()));
    SurvivorsStay(VerifiedAnswer(ctx, a).lists, a.base.claims, 1, EvidenceIds(SoundRefs()), Quiet);
    CleanVerify(ctx, a);
    assert a.base.claims[0] in a.base.claims;
    AuditAgreesWithMaterializer(ConflictRequest(), SoundRefs(), ConflictDraft(), ctx, Quiet);
  }

  lemma {:induction false} SurvivorsStay(
      l: Lists, claims: seq<AgentClaim>, n: nat, allowed: set<Id>, guards: AgentClaim -> Guards)
    requires n <= |claims| && l.rejected == [] && NoHardReject(claims, n, allowed, guards)
    ensures AuditClaims(l, claims, n, allowed, guards).rejected == []
  {
    if n != 0 { SurvivorsStay(l, claims, n - 1, allowed, guards); }
  }

  /** verify sends a sole conflict-category claim that meets its contract on sound evidence to review. */
  lemma {:induction false} SoleConflictClaimSurvives(ctx: Context, artifact: AgentArtifact, id: Id)
    requires CaseOk(ctx) && artifact.executionStatus != FAILED && artifact.calculations == []
    requires |artifact.claims| == 1 && artifact.claims[0].claimId == id && artifact.claims[0].category == DATA_CONFLICT
    requires MeetsContract(artifact, artifact.claims[0], ctx.trusted.asOfDate, ctx.allowDocumentNumeric)
    requires forall e :: e in artifact.evidence ==> EvidencePasses(ctx, [], e)
    requires artifact.claims[0].calculations == []
    ensures FileEach(NO_CLAIMS, Filings(ctx, artifact)) == NO_CLAIMS.(review := [id])
  {
    assert BadEvidence(ctx, artifact) == {};
    assert BlamedIds(artifact, ctx.trusted.asOfDate, ctx.allowDocumentNumeric) == {};
    assert Filings(ctx, artifact) == [Filing(id, ForReview)];
    assert [Filing(id, ForReview)][..0] == [];
  }
}
