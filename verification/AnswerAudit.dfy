/** The answer-level gate on top of the claim audit
    (src/creditlens/agents/auditor.py:503-734, EvidenceAuditor.verify_grounded_answer). */
module AnswerAudit {
  import opened Common
  import opened Contracts
  import opened EvidenceAuditor
  import opened ClaimAudit
  import NumericSpans

  /** What the gate looks at besides the claim itself: the scanned statement, the scanned section texts by the evidence
      ids that lead to them, and what the other lexical guards say about the claim and the texts it cites: a polarity
      reversal, a threshold reversal, and enough shared terms. */
  datatype Guards = Guards(
    statement: NumericSpans.Scanned, texts: map<Id, NumericSpans.Scanned>,
    polarityConflict: bool, thresholdConflict: bool, covered: bool)

  /** Some text cited in support has a number or date with this key. */
  predicate KeyIsCited(key: seq<string>, supporting: seq<Id>, texts: map<Id, NumericSpans.Scanned>) {
    exists id :: id in supporting && id in texts && key in NumericSpans.KeysOf(texts[id])
  }

  /** The statement has a number or date that no text cited in support has. */
  predicate MissesNumber(supporting: seq<Id>, g: Guards) {
    exists span :: span in NumericSpans.SpansOf(g.statement) && !KeyIsCited(span.key, supporting, g.texts)
  }

  const NON_BLOCKING: set<AuditCode> :=
    {POLARITY_CONFLICT_WITH_CITATION, STRUCTURAL_COVERAGE_INSUFFICIENT, THRESHOLD_DIRECTION_CONFLICT_WITH_CITATION}

  // ---------------------------------------------------------------- moving one claim

  function ClaimRejected(l: Lists, id: Id, code: AuditCode): Lists {
    Lists(Without(l.accepted, id), if id in l.rejected then l.rejected else l.rejected + [id],
          Without(l.review, id), AddCode(l.codes, id, code))
  }

  function ClaimFlagged(l: Lists, id: Id, code: AuditCode): Lists {
    if id in l.rejected then l
    else Lists(Without(l.accepted, id), l.rejected, if id in l.review then l.review else l.review + [id],
        AddCode(l.codes, id, code))
  }

  predicate CitesOutside(claim: AgentClaim, allowed: set<Id>) {
    exists id :: id in claim.supporting + claim.opposing && id !in allowed
  }

  /** A citation outside the packed context, or a number no citation contains, rejects the claim outright. */
  predicate HardReject(claim: AgentClaim, allowed: set<Id>, g: Guards) {
    CitesOutside(claim, allowed) || MissesNumber(claim.supporting, g)
  }

  function RejectIf(l: Lists, due: bool, id: Id, code: AuditCode): Lists {
    if due then ClaimRejected(l, id, code) else l
  }

  /** The softer guards are consulted only for a SUPPORTED claim that is not rejected yet. */
  function FlagIf(l: Lists, claim: AgentClaim, due: bool, code: AuditCode): Lists {
    if claim.verdict == SUPPORTED && claim.claimId !in l.rejected && due then ClaimFlagged(l, claim.claimId, code)
    else l
  }

  function AuditClaim(l: Lists, claim: AgentClaim, allowed: set<Id>, g: Guards): Lists {
    var l1 := RejectIf(l, CitesOutside(claim, allowed), claim.claimId, CITATION_NOT_IN_PACKED_CONTEXT);
    var l2 := RejectIf(l1, MissesNumber(claim.supporting, g), claim.claimId, NUMERIC_TOKEN_NOT_IN_CITATION);
    var l3 := FlagIf(l2, claim, g.polarityConflict, POLARITY_CONFLICT_WITH_CITATION);
    var l4 := FlagIf(l3, claim, g.thresholdConflict, THRESHOLD_DIRECTION_CONFLICT_WITH_CITATION);
    FlagIf(l4, claim, !g.covered, STRUCTURAL_COVERAGE_INSUFFICIENT)
  }

  function AuditClaims(l: Lists, claims: seq<AgentClaim>, n: nat, allowed: set<Id>, guards: AgentClaim -> Guards): Lists
    requires n <= |claims|
  {
    if n == 0 then l
    else AuditClaim(AuditClaims(l, claims, n - 1, allowed, guards), claims[n - 1], allowed, guards(claims[n - 1]))
  }

  predicate NoHardReject(claims: seq<AgentClaim>, n: nat, allowed: set<Id>, guards: AgentClaim -> Guards)
    requires n <= |claims|
  {
    forall k :: 0 <= k < n ==> !HardReject(claims[k], allowed, guards(claims[k]))
  }

  // ---------------------------------------------------------------- the answer as a whole

  function CitedIds(claims: seq<AgentClaim>): set<Id> {
    set c, id | c in claims && id in c.supporting + c.opposing :: id
  }

  function ClaimIdSet(claims: seq<AgentClaim>): set<Id> {
    set c | c in claims :: c.claimId
  }

  predicate NeedsReviewShape(claim: AgentClaim) {
    claim.category == DATA_CONFLICT || claim.opposing != [] || claim.verdict != SUPPORTED
  }

  function DerivedStatus(l: Lists, a: GroundedAnswer): AnswerStatus {
    if a.base.claims == [] then ABSTAINED
    else if a.conflicts != [] || a.missingInformation != [] || l.review != []
            || exists c :: c in a.base.claims && NeedsReviewShape(c) then NEEDS_REVIEW
    else ANSWERED
  }

  function ReviewCodes(l: Lists): set<AuditCode> {
    set id, code | id in l.review && code in CodesOf(l.codes, id) :: code
  }

  /** When an ANSWERED artifact may be downgraded to review instead of being rejected. */
  predicate NormalizationDue(f: Findings, a: GroundedAnswer) {
    && a.answerStatus == ANSWERED
    && DerivedStatus(f.lists, a) == NEEDS_REVIEW
    && f.lists.review != []
    && ReviewCodes(f.lists) != {}
    && ReviewCodes(f.lists) <= NON_BLOCKING
    && f.lists.rejected == [] && f.replayFailures == [] && f.blocking == [] && f.answerOk
  }

  /** Evidence outside the packed context, or evidence that is not exactly what the claims cite. */
  function PackingCodes(a: GroundedAnswer, allowed: set<Id>): set<AuditCode> {
    var ids := EvidenceIds(a.base.evidence);
    When(!(ids <= allowed), EVIDENCE_NOT_IN_PACKED_CONTEXT)
        + When(ids != CitedIds(a.base.claims), ARTIFACT_EVIDENCE_NOT_EXACTLY_CITED)
  }

  function Text(answer: Option<string>): string {
    if answer.Some? then answer.value else ""
  }

  function RenderingCodes(a: GroundedAnswer, derived: AnswerStatus, normalize: bool): set<AuditCode> {
    match derived
    case ABSTAINED =>
      When(Truthy(a.directAnswer), ABSTENTION_MUST_NOT_HAVE_DIRECT_ANSWER)
          + When(!Truthy(a.abstentionReason), ABSTENTION_REASON_REQUIRED)
    case NEEDS_REVIEW =>
      When(Truthy(a.directAnswer) && !normalize, NEEDS_REVIEW_MUST_NOT_HAVE_DIRECT_ANSWER)
    case ANSWERED =>
      When(Strip(Text(a.directAnswer)) != Strip(Rendering(SupportedClaims(a.base.claims))),
          DIRECT_ANSWER_NOT_EXACT_CLAIM_RENDERING)
  }

  function StatusCodes(a: GroundedAnswer, derived: AnswerStatus, normalize: bool): set<AuditCode> {
    When(a.answerStatus != derived && !normalize, ANSWER_STATUS_MISMATCH) + RenderingCodes(a, derived, normalize)
  }

  function DuplicateCodes(a: GroundedAnswer): set<AuditCode> {
    When(|ClaimIdSet(a.base.claims)| != |a.base.claims|, DUPLICATE_CLAIM_ID)
  }

  /** The findings once the claims are audited and before the status is settled. */
  function BeforeStatus(f: Findings, a: GroundedAnswer, allowed: set<Id>, guards: AgentClaim -> Guards): Findings {
    var n := |a.base.claims|;
    f.(lists := AuditClaims(f.lists, a.base.claims, n, allowed, guards),
       answerCodes := f.answerCodes + PackingCodes(a, allowed),
       answerOk := f.answerOk && PackingCodes(a, allowed) == {} && NoHardReject(a.base.claims, n, allowed, guards))
  }

  function SettleStatus(f: Findings, a: GroundedAnswer): Findings {
    var derived, normalize := DerivedStatus(f.lists, a), NormalizationDue(f, a);
    var codes := StatusCodes(a, derived, normalize) + DuplicateCodes(a);
    f.(answerCodes := f.answerCodes + codes, answerOk := f.answerOk && codes == {}, derived := Some(derived),
        normalize := normalize)
  }

  function Refused(code: AuditCode): Findings {
    NO_FINDINGS.(blocking := [code], answerCodes := {code}, answerOk := false)
  }

  /** verify, as verify_grounded_answer calls it. */
  function VerifiedAnswer(ctx: Context, a: GroundedAnswer): Findings {
    Verified(ctx.(allowDocumentNumeric := true), [a.base])
  }

  /** The findings of verify_grounded_answer. */
  function Audited(ctx: Context, a: GroundedAnswer, allowed: set<Id>, guards: AgentClaim -> Guards): Findings {
    if a.base.executionStatus == FAILED then Refused(GROUNDING_EXECUTION_FAILED)
    else if a.base.executionStatus != ExecutionStatusFor(a.answerStatus) then Refused(GROUNDING_STATUS_MATRIX_MISMATCH)
    else
      var f := VerifiedAnswer(ctx, a);
      if f.blocking != [] then f.(answerOk := false)
      else SettleStatus(BeforeStatus(f, a, allowed, guards), a)
  }

  // ---------------------------------------------------------------- the auditor's own code

  method RejectAnswer(result: AuditResult, code: AuditCode)
    modifies result`answerOk, result`answerCodes
    ensures !result.answerOk && result.answerCodes == old(result.answerCodes) + {code}
  {
    result.answerOk := false;
    result.answerCodes := result.answerCodes + {code};
  }

  method RejectClaim(result: AuditResult, id: Id, code: AuditCode)
    modifies result`answerOk, result`accepted, result`rejected, result`review, result`codes
    ensures !result.answerOk && result.Claims() == ClaimRejected(old(result.Claims()), id, code)
  {
    result.answerOk := false;
    if id !in result.rejected { result.rejected := result.rejected + [id]; }
    result.accepted := Without(result.accepted, id);
    result.review := Without(result.review, id);
    result.codes := AddCode(result.codes, id, code);
  }

  method FlagClaimForReview(result: AuditResult, id: Id, code: AuditCode)
    modifies result`accepted, result`review, result`codes
    ensures result.Claims() == ClaimFlagged(old(result.Claims()), id, code)
  {
    if id in result.rejected { return; }
    result.accepted := Without(result.accepted, id);
    if id !in result.review { result.review := result.review + [id]; }
    result.codes := AddCode(result.codes, id, code);
  }

  /** The keys of all texts cited in support. */
  method CitedKeys(supporting: seq<Id>, texts: map<Id, NumericSpans.Scanned>) returns (keys: set<seq<string>>)
    ensures forall key :: key in keys <==> KeyIsCited(key, supporting, texts)
  {
    keys := {};
    for i := 0 to |supporting|
      invariant forall key :: key in keys <==> KeyIsCited(key, supporting[..i], texts)
    {
      assert supporting[..i + 1] == supporting[..i] + [supporting[i]];
      if supporting[i] in texts {
        var text := texts[supporting[i]];
        var spans := NumericSpans.AnswerNumericSpans(text.dates, text.numbers, text.percents, text.chinese);
        keys := keys + set span | span in spans :: span.key;
      }
    }
    assert supporting[..|supporting|] == supporting;
  }

  lemma {:induction false} WithoutAbsent(s: seq<Id>, id: Id)
    requires id !in s
    ensures Without(s, id) == s
  {
    if s != [] {
      assert s == [s[0]] + s[1..];
      WithoutAbsent(s[1..], id);
    }
  }

  lemma {:induction false} CodeTwice(codes: map<Id, set<AuditCode>>, id: Id, code: AuditCode)
    ensures AddCode(AddCode(codes, id, code), id, code) == AddCode(codes, id, code)
  {
  }

  lemma {:induction false} RejectedTwice(l: Lists, id: Id, code: AuditCode)
    ensures ClaimRejected(ClaimRejected(l, id, code), id, code) == ClaimRejected(l, id, code)
  {
    WithoutAbsent(Without(l.accepted, id), id);
    WithoutAbsent(Without(l.review, id), id);
    CodeTwice(l.codes, id, code);
  }

  predicate AnyMissing(spans: seq<NumericSpans.Span>, keys: set<seq<string>>) {
    exists span :: span in spans && span.key !in keys
  }

  /** The claim has been rejected if a number was missing, from findings l and ok on. */
  predicate RejectedIfMissing(result: AuditResult, l: Lists, ok: bool, missing: bool, id: Id)
    reads result
  {
    if result.Claims() != RejectIf(l, missing, id, NUMERIC_TOKEN_NOT_IN_CITATION) then false
    else result.answerOk == (ok && !missing)
  }

  method CheckNumber(
      result: AuditResult, ghost l: Lists, ghost ok: bool, ghost missing: bool, id: Id, cited: bool)
    requires RejectedIfMissing(result, l, ok, missing, id)
    modifies result`answerOk, result`accepted, result`rejected, result`review, result`codes
    ensures RejectedIfMissing(result, l, ok, missing || !cited, id)
  {
    RejectedTwice(l, id, NUMERIC_TOKEN_NOT_IN_CITATION);
    if !cited { RejectClaim(result, id, NUMERIC_TOKEN_NOT_IN_CITATION); }
  }

  lemma {:induction false} OneSpanMore(spans: seq<NumericSpans.Span>, i: nat, keys: set<seq<string>>)
    requires i < |spans|
    ensures AnyMissing(spans[..i + 1], keys) <==> AnyMissing(spans[..i], keys) || spans[i].key !in keys
  {
    assert spans[..i + 1] == spans[..i] + [spans[i]];
  }

  /** One rejection per span that no cited text has. */
  method RejectMissingNumbers(result: AuditResult, claim: AgentClaim, g: Guards)
    modifies result`answerOk, result`accepted, result`rejected, result`review, result`codes
    ensures var due := MissesNumber(claim.supporting, g);
            && result.Claims() == RejectIf(old(result.Claims()), due, claim.claimId, NUMERIC_TOKEN_NOT_IN_CITATION)
            && result.answerOk == (old(result.answerOk) && !due)
  {
    ghost var l, ok := result.Claims(), result.answerOk;
    var s := g.statement;
    var spans := NumericSpans.AnswerNumericSpans(s.dates, s.numbers, s.percents, s.chinese);
    var keys := CitedKeys(claim.supporting, g.texts);
    for i := 0 to |spans|
      invariant RejectedIfMissing(result, l, ok, AnyMissing(spans[..i], keys), claim.claimId)
    {
      OneSpanMore(spans, i, keys);
      CheckNumber(result, l, ok, AnyMissing(spans[..i], keys), claim.claimId, spans[i].key in keys);
    }
    assert spans[..|spans|] == spans;
    assert AnyMissing(spans, keys) == MissesNumber(claim.supporting, g);
  }

  method AuditOneClaim(result: AuditResult, claim: AgentClaim, allowed: set<Id>, g: Guards)
    modifies result`answerOk, result`accepted, result`rejected, result`review, result`codes
    ensures result.Claims() == AuditClaim(old(result.Claims()), claim, allowed, g)
    ensures result.answerOk == (old(result.answerOk) && !HardReject(claim, allowed, g))
  {
    if CitesOutside(claim, allowed) { RejectClaim(result, claim.claimId, CITATION_NOT_IN_PACKED_CONTEXT); }
    RejectMissingNumbers(result, claim, g);
    if claim.verdict == SUPPORTED && claim.claimId !in result.rejected && g.polarityConflict {
      FlagClaimForReview(result, claim.claimId, POLARITY_CONFLICT_WITH_CITATION);
    }
    if claim.verdict == SUPPORTED && claim.claimId !in result.rejected && g.thresholdConflict {
      FlagClaimForReview(result, claim.claimId, THRESHOLD_DIRECTION_CONFLICT_WITH_CITATION);
    }
    if claim.verdict == SUPPORTED && claim.claimId !in result.rejected && !g.covered {
      FlagClaimForReview(result, claim.claimId, STRUCTURAL_COVERAGE_INSUFFICIENT);
    }
  }

  /** The first n claims have been audited, from findings l and ok on. */
  predicate AuditedSoFar(
      result: AuditResult, l: Lists, ok: bool, claims: seq<AgentClaim>, n: nat, allowed: set<Id>,
      guards: AgentClaim -> Guards)
    requires n <= |claims|
    reads result
  {
    if result.Claims() != AuditClaims(l, claims, n, allowed, guards) then false
    else result.answerOk == (ok && NoHardReject(claims, n, allowed, guards))
  }

  method AuditNextClaim(
      result: AuditResult, ghost l: Lists, ghost ok: bool, claims: seq<AgentClaim>, i: nat, allowed: set<Id>,
      guards: AgentClaim -> Guards)
    requires i < |claims| && AuditedSoFar(result, l, ok, claims, i, allowed, guards)
    modifies result`answerOk, result`accepted, result`rejected, result`review, result`codes
    ensures AuditedSoFar(result, l, ok, claims, i + 1, allowed, guards)
  {
    AuditOneClaim(result, claims[i], allowed, guards(claims[i]));
  }

  method AuditAllClaims(result: AuditResult, claims: seq<AgentClaim>, allowed: set<Id>, guards: AgentClaim -> Guards)
    modifies result`answerOk, result`accepted, result`rejected, result`review, result`codes
    ensures result.Claims() == AuditClaims(old(result.Claims()), claims, |claims|, allowed, guards)
    ensures result.answerOk == (old(result.answerOk) && NoHardReject(claims, |claims|, allowed, guards))
  {
    ghost var l, ok := result.Claims(), result.answerOk;
    for i := 0 to |claims|
      invariant AuditedSoFar(result, l, ok, claims, i, allowed, guards)
    {
      AuditNextClaim(result, l, ok, claims, i, allowed, guards);
    }
  }

  method CheckPacking(result: AuditResult, a: GroundedAnswer, allowed: set<Id>)
    modifies result`answerOk, result`answerCodes
    ensures result.answerCodes == old(result.answerCodes) + PackingCodes(a, allowed)
    ensures result.answerOk == (old(result.answerOk) && PackingCodes(a, allowed) == {})
  {
    if !(EvidenceIds(a.base.evidence) <= allowed) { RejectAnswer(result, EVIDENCE_NOT_IN_PACKED_CONTEXT); }
    if EvidenceIds(a.base.evidence) != CitedIds(a.base.claims) {
      RejectAnswer(result, ARTIFACT_EVIDENCE_NOT_EXACTLY_CITED);
    }
  }

  method CheckRendering(result: AuditResult, a: GroundedAnswer, derived: AnswerStatus, normalize: bool)
    modifies result`answerOk, result`answerCodes
    ensures var codes := StatusCodes(a, derived, normalize) + DuplicateCodes(a);
            result.answerCodes == old(result.answerCodes) + codes
                && result.answerOk == (old(result.answerOk) && codes == {})
  {
    if a.answerStatus != derived && !normalize { RejectAnswer(result, ANSWER_STATUS_MISMATCH); }
    match derived {
      case ABSTAINED =>
        if Truthy(a.directAnswer) { RejectAnswer(result, ABSTENTION_MUST_NOT_HAVE_DIRECT_ANSWER); }
        if !Truthy(a.abstentionReason) { RejectAnswer(result, ABSTENTION_REASON_REQUIRED); }
      case NEEDS_REVIEW =>
        if Truthy(a.directAnswer) && !normalize { RejectAnswer(result, NEEDS_REVIEW_MUST_NOT_HAVE_DIRECT_ANSWER); }
      case ANSWERED =>
        if Strip(Text(a.directAnswer)) != Strip(Rendering(SupportedClaims(a.base.claims))) {
          RejectAnswer(result, DIRECT_ANSWER_NOT_EXACT_CLAIM_RENDERING);
        }
    }
    if |ClaimIdSet(a.base.claims)| != |a.base.claims| { RejectAnswer(result, DUPLICATE_CLAIM_ID); }
  }

  method CheckStatus(result: AuditResult, a: GroundedAnswer)
    modifies result`answerOk, result`answerCodes, result`derived, result`normalize
    ensures result.Value() == SettleStatus(old(result.Value()), a)
  {
    var derived := DerivedStatus(result.Claims(), a);
    var due := NormalizationDue(result.Value(), a);
    result.derived := Some(derived);
    result.normalize := due;
    CheckRendering(result, a, derived, due);
  }

  /** EvidenceAuditor.verify_grounded_answer. */
  method VerifyGroundedAnswer(ctx: Context, a: GroundedAnswer, allowed: set<Id>, guards: AgentClaim -> Guards)
    returns (result: AuditResult)
    ensures fresh(result)
    ensures result.Value() == Audited(ctx, a, allowed, guards)
  {
    if a.base.executionStatus == FAILED || a.base.executionStatus != ExecutionStatusFor(a.answerStatus) {
      var code := if a.base.executionStatus == FAILED then GROUNDING_EXECUTION_FAILED
          else GROUNDING_STATUS_MATRIX_MISMATCH;
      result := new AuditResult();
      result.blocking := [code];
      RejectAnswer(result, code);
      return;
    }
    result := Verify(ctx.(allowDocumentNumeric := true), [a.base]);
    ghost var f := result.Value();
    if result.blocking != [] {
      result.answerOk := false;
      return;
    }
    CheckPacking(result, a, allowed);
    AuditAllClaims(result, a.base.claims, allowed, guards);
    assert result.Value() == BeforeStatus(f, a, allowed, guards);
    CheckStatus(result, a);
  }

  // ---------------------------------------------------------------- claims only move one way

  predicate IsFiled(l: Lists, id: Id) {
    id in l.accepted || id in l.review || id in l.rejected
  }

  /** From l to m claims only move accepted -> review -> rejected, and none appears or disappears. */
  ghost predicate Moved(l: Lists, m: Lists) {
    && (forall id :: id in m.accepted ==> id in l.accepted)
    && (forall id :: id in m.review ==> id in l.accepted || id in l.review)
    && (forall id :: id in l.rejected ==> id in m.rejected)
    && (forall id :: IsFiled(l, id) <==> IsFiled(m, id))
  }

  /** One claim's move, keeping the partition. */
  ghost predicate Kept(l: Lists, m: Lists) {
    IsPartition(m) && Moved(l, m)
  }

  lemma {:induction false} RejectKeeps(l: Lists, due: bool, id: Id, code: AuditCode)
    requires IsPartition(l) && IsFiled(l, id)
    ensures Kept(l, RejectIf(l, due, id, code))
  {
    var m := RejectIf(l, due, id, code);
    OnceFiled(l, id);
    forall x ensures Filed(m)[x] <= 1 {
      assert x != id ==> Filed(m)[x] == Filed(l)[x];
    }
  }

  lemma {:induction false} OnceFiled(l: Lists, id: Id)
    requires IsPartition(l) && IsFiled(l, id)
    ensures multiset(l.accepted)[id] + multiset(l.rejected)[id] + multiset(l.review)[id] == 1
  {
    assert Filed(l)[id] <= 1;
  }

  lemma {:induction false} FlagKeeps(l: Lists, claim: AgentClaim, due: bool, code: AuditCode)
    requires IsPartition(l) && IsFiled(l, claim.claimId)
    ensures Kept(l, FlagIf(l, claim, due, code))
  {
    var m := FlagIf(l, claim, due, code);
    OnceFiled(l, claim.claimId);
    forall x ensures Filed(m)[x] <= 1 {
      assert x != claim.claimId ==> Filed(m)[x] == Filed(l)[x];
    }
  }

  lemma {:induction false} AuditClaimKeeps(l: Lists, claim: AgentClaim, allowed: set<Id>, g: Guards)
    requires IsPartition(l) && IsFiled(l, claim.claimId)
    ensures Kept(l, AuditClaim(l, claim, allowed, g))
  {
    var l1 := RejectIf(l, CitesOutside(claim, allowed), claim.claimId, CITATION_NOT_IN_PACKED_CONTEXT);
    RejectKeeps(l, CitesOutside(claim, allowed), claim.claimId, CITATION_NOT_IN_PACKED_CONTEXT);
    var l2 := RejectIf(l1, MissesNumber(claim.supporting, g), claim.claimId, NUMERIC_TOKEN_NOT_IN_CITATION);
    RejectKeeps(l1, MissesNumber(claim.supporting, g), claim.claimId, NUMERIC_TOKEN_NOT_IN_CITATION);
    MovedTransitive(l, l1, l2);
    var l3 := FlagIf(l2, claim, g.polarityConflict, POLARITY_CONFLICT_WITH_CITATION);
    FlagKeeps(l2, claim, g.polarityConflict, POLARITY_CONFLICT_WITH_CITATION);
    MovedTransitive(l, l2, l3);
    var l4 := FlagIf(l3, claim, g.thresholdConflict, THRESHOLD_DIRECTION_CONFLICT_WITH_CITATION);
    FlagKeeps(l3, claim, g.thresholdConflict, THRESHOLD_DIRECTION_CONFLICT_WITH_CITATION);
    MovedTransitive(l, l3, l4);
    FlagKeeps(l4, claim, !g.covered, STRUCTURAL_COVERAGE_INSUFFICIENT);
    MovedTransitive(l, l4, AuditClaim(l, claim, allowed, g));
  }

  lemma {:induction false} MovedTransitive(l: Lists, m: Lists, n: Lists)
    requires Moved(l, m) && Moved(m, n)
    ensures Moved(l, n)
  {
  }

  lemma {:induction false} AuditClaimsKeep(
      l: Lists, claims: seq<AgentClaim>, n: nat, allowed: set<Id>, guards: AgentClaim -> Guards)
    requires n <= |claims| && IsPartition(l)
    requires forall k :: 0 <= k < |claims| ==> IsFiled(l, claims[k].claimId)
    ensures Kept(l, AuditClaims(l, claims, n, allowed, guards))
  {
    if n != 0 {
      var m, claim := AuditClaims(l, claims, n - 1, allowed, guards), claims[n - 1];
      AuditClaimsKeep(l, claims, n - 1, allowed, guards);
      AuditClaimKeeps(m, claim, allowed, guards(claim));
      MovedTransitive(l, m, AuditClaim(m, claim, allowed, guards(claim)));
    }
  }

  lemma {:induction false} VerifyFilesTheClaims(ctx: Context, artifact: AgentArtifact)
    requires artifact.executionStatus != FAILED
    ensures AllFilings(ctx, [artifact]) == Filings(ctx, artifact)
    ensures FilingIds(AllFilings(ctx, [artifact])) == ClaimIds(artifact.claims) == AllIds([artifact])
  {
    assert [artifact][..0] == [];
    assert FilingIds(Filings(ctx, artifact)) == ClaimIds(artifact.claims);
  }

  lemma {:induction false} IdsOfClaims(claims: seq<AgentClaim>, id: Id)
    ensures id in ClaimIdSet(claims) <==> id in ClaimIds(claims)
  {
    if id in ClaimIdSet(claims) {
      var claim :| claim in claims && claim.claimId == id;
      var k :| 0 <= k < |claims| && claims[k] == claim;
      assert ClaimIds(claims)[k] == id;
    }
  }

  lemma {:induction false} VerifyFilesEachClaimOnce(ctx: Context, a: GroundedAnswer)
    requires a.base.executionStatus != FAILED && NoDuplicates(ClaimIds(a.base.claims))
    ensures var l := VerifiedAnswer(ctx, a).lists;
            IsPartition(l) && forall id :: id in ClaimIdSet(a.base.claims) <==> IsFiled(l, id)
  {
    var c := ctx.(allowDocumentNumeric := true);
    VerifyFilesTheClaims(c, a.base);
    VerifyPartitions(c, [a.base]);
    forall id { IdsOfClaims(a.base.claims, id); }
  }

  /** Through verify and then the answer gate, the three lists stay a partition of the answer's claims,
      and a claim only ever moves accepted -> review -> rejected. */
  lemma {:induction false} AuditPartitionsClaims(
      ctx: Context, a: GroundedAnswer, allowed: set<Id>, guards: AgentClaim -> Guards)
    requires a.base.executionStatus == ExecutionStatusFor(a.answerStatus)
    requires NoDuplicates(ClaimIds(a.base.claims))
    ensures var l := Audited(ctx, a, allowed, guards).lists;
            && IsPartition(l)
            && Moved(VerifiedAnswer(ctx, a).lists, l)
            && forall id :: id in ClaimIdSet(a.base.claims) <==> IsFiled(l, id)
  {
    VerifyFilesEachClaimOnce(ctx, a);
    var l := VerifiedAnswer(ctx, a).lists;
    assert forall k :: 0 <= k < |a.base.claims| ==> a.base.claims[k].claimId in ClaimIdSet(a.base.claims);
    AuditClaimsKeep(l, a.base.claims, |a.base.claims|, allowed, guards);
  }

  // ---------------------------------------------------------------- where each claim ends up

  /** The review codes a claim earns if it is not rejected. */
  function Flags(claim: AgentClaim, g: Guards): set<AuditCode> {
    if claim.verdict != SUPPORTED then {}
    else When(g.polarityConflict, POLARITY_CONFLICT_WITH_CITATION)
         + When(g.thresholdConflict, THRESHOLD_DIRECTION_CONFLICT_WITH_CITATION)
         + When(!g.covered, STRUCTURAL_COVERAGE_INSUFFICIENT)
  }

  /** What auditing a claim does to that claim's id. */
  ghost predicate Settled(l: Lists, m: Lists, claim: AgentClaim, allowed: set<Id>, guard: Guards) {
    var id := claim.claimId;
    && (id in m.rejected <==> id in l.rejected || HardReject(claim, allowed, guard))
    && (id !in m.rejected ==> (id in m.review <==> id in l.review || Flags(claim, guard) != {}))
    && (id !in m.rejected ==> CodesOf(m.codes, id) == CodesOf(l.codes, id) + Flags(claim, guard))
  }

  /** l and m agree on one id. */
  predicate SameOn(l: Lists, m: Lists, id: Id) {
    && (id in l.accepted <==> id in m.accepted) && (id in l.review <==> id in m.review)
    && (id in l.rejected <==> id in m.rejected) && CodesOf(l.codes, id) == CodesOf(m.codes, id)
  }

  predicate RejectStep(l: Lists, m: Lists, due: bool, id: Id, other: Id) {
    && (id in m.rejected <==> id in l.rejected || due)
    && (!due ==> m == l)
    && (other != id ==> SameOn(l, m, other))
  }

  predicate FlagStep(l: Lists, m: Lists, claim: AgentClaim, due: bool, code: AuditCode, other: Id) {
    var id, flagged := claim.claimId, claim.verdict == SUPPORTED && due;
    && m.rejected == l.rejected
    && (id !in l.rejected ==> (id in m.review <==> id in l.review || flagged))
    && (id !in l.rejected ==> CodesOf(m.codes, id) == CodesOf(l.codes, id) + When(flagged, code))
    && (other != id ==> SameOn(l, m, other))
  }

  lemma {:induction false} RejectSettles(l: Lists, due: bool, id: Id, code: AuditCode, other: Id)
    ensures RejectStep(l, RejectIf(l, due, id, code), due, id, other)
  {
  }

  lemma {:induction false} FlagSettles(l: Lists, claim: AgentClaim, due: bool, code: AuditCode, other: Id)
    ensures FlagStep(l, FlagIf(l, claim, due, code), claim, due, code, other)
  {
    var id := claim.claimId;
    if claim.verdict == SUPPORTED && id !in l.rejected && due {
      var m := ClaimFlagged(l, id, code);
      assert CodesOf(m.codes, id) == CodesOf(l.codes, id) + {code};
      assert other != id ==> CodesOf(m.codes, other) == CodesOf(l.codes, other);
    } else {
      assert CodesOf(l.codes, id) == CodesOf(l.codes, id) + {};
    }
  }

  lemma {:induction false} StepsSettle(ls: seq<Lists>, claim: AgentClaim, allowed: set<Id>, g: Guards, other: Id)
    requires |ls| == 6
    requires RejectStep(ls[0], ls[1], CitesOutside(claim, allowed), claim.claimId, other)
    requires RejectStep(ls[1], ls[2], MissesNumber(claim.supporting, g), claim.claimId, other)
    requires FlagStep(ls[2], ls[3], claim, g.polarityConflict, POLARITY_CONFLICT_WITH_CITATION, other)
    requires FlagStep(ls[3], ls[4], claim, g.thresholdConflict, THRESHOLD_DIRECTION_CONFLICT_WITH_CITATION, other)
    requires FlagStep(ls[4], ls[5], claim, !g.covered, STRUCTURAL_COVERAGE_INSUFFICIENT, other)
    ensures Settled(ls[0], ls[5], claim, allowed, g)
    ensures other != claim.claimId ==> SameOn(ls[0], ls[5], other)
  {
  }

  lemma {:induction false} AuditClaimSettles(l: Lists, claim: AgentClaim, allowed: set<Id>, g: Guards, other: Id)
    ensures Settled(l, AuditClaim(l, claim, allowed, g), claim, allowed, g)
    ensures other != claim.claimId ==> SameOn(l, AuditClaim(l, claim, allowed, g), other)
  {
    var id := claim.claimId;
    RejectSettles(l, CitesOutside(claim, allowed), id, CITATION_NOT_IN_PACKED_CONTEXT, other);
    var l1 := RejectIf(l, CitesOutside(claim, allowed), id, CITATION_NOT_IN_PACKED_CONTEXT);
    RejectSettles(l1, MissesNumber(claim.supporting, g), id, NUMERIC_TOKEN_NOT_IN_CITATION, other);
    var l2 := RejectIf(l1, MissesNumber(claim.supporting, g), id, NUMERIC_TOKEN_NOT_IN_CITATION);
    FlagSettles(l2, claim, g.polarityConflict, POLARITY_CONFLICT_WITH_CITATION, other);
    var l3 := FlagIf(l2, claim, g.polarityConflict, POLARITY_CONFLICT_WITH_CITATION);
    FlagSettles(l3, claim, g.thresholdConflict, THRESHOLD_DIRECTION_CONFLICT_WITH_CITATION, other);
    var l4 := FlagIf(l3, claim, g.thresholdConflict, THRESHOLD_DIRECTION_CONFLICT_WITH_CITATION);
    FlagSettles(l4, claim, !g.covered, STRUCTURAL_COVERAGE_INSUFFICIENT, other);
    StepsSettle([l, l1, l2, l3, l4, AuditClaim(l, claim, allowed, g)], claim, allowed, g, other);
  }

  lemma {:induction false} SettlesOnce(l: Lists, m: Lists, r: Lists, claim: AgentClaim, allowed: set<Id>, g: Guards)
    ensures SameOn(l, m, claim.claimId) && Settled(m, r, claim, allowed, g) ==> Settled(l, r, claim, allowed, g)
    ensures Settled(l, m, claim, allowed, g) && SameOn(m, r, claim.claimId) ==> Settled(l, r, claim, allowed, g)
    ensures SameOn(l, m, claim.claimId) && SameOn(m, r, claim.claimId) ==> SameOn(l, r, claim.claimId)
  {
  }

  /** Claim k is settled if it is among the first n, and else untouched. */
  ghost predicate SettledAmong(
      l: Lists, m: Lists, claims: seq<AgentClaim>, n: nat, allowed: set<Id>, guards: AgentClaim -> Guards, k: nat)
    requires k < |claims|
  {
    if k < n then Settled(l, m, claims[k], allowed, guards(claims[k])) else SameOn(l, m, claims[k].claimId)
  }

  /** Claim k is settled if it is claim i, and else untouched. */
  ghost predicate SettledAt(
      m: Lists, r: Lists, claims: seq<AgentClaim>, i: nat, allowed: set<Id>, guards: AgentClaim -> Guards, k: nat)
    requires k < |claims|
  {
    if k == i then Settled(m, r, claims[k], allowed, guards(claims[k])) else SameOn(m, r, claims[k].claimId)
  }

  lemma {:induction false} OneSettles(
      m: Lists, claims: seq<AgentClaim>, i: nat, allowed: set<Id>, guards: AgentClaim -> Guards, k: nat)
    requires i < |claims| && k < |claims| && NoDuplicates(ClaimIds(claims))
    ensures SettledAt(m, AuditClaim(m, claims[i], allowed, guards(claims[i])), claims, i, allowed, guards, k)
  {
    assert k != i ==> ClaimIds(claims)[k] != ClaimIds(claims)[i];
    AuditClaimSettles(m, claims[i], allowed, guards(claims[i]), claims[k].claimId);
  }

  lemma {:induction false} NextSettles(
      l: Lists, m: Lists, r: Lists, claims: seq<AgentClaim>, i: nat, allowed: set<Id>, guards: AgentClaim -> Guards,
      k: nat)
    requires i < |claims| && k < |claims| && SettledAmong(l, m, claims, i, allowed, guards, k)
    requires SettledAt(m, r, claims, i, allowed, guards, k)
    ensures SettledAmong(l, r, claims, i + 1, allowed, guards, k)
  {
    SettlesOnce(l, m, r, claims[k], allowed, guards(claims[k]));
  }

  /** With distinct ids, each claim's place and codes depend on that claim alone. */
  lemma {:induction false} AuditClaimsSettle(
    l: Lists, claims: seq<AgentClaim>, n: nat, allowed: set<Id>, guards: AgentClaim -> Guards, k: nat)
    requires n <= |claims| && k < |claims| && NoDuplicates(ClaimIds(claims))
    ensures SettledAmong(l, AuditClaims(l, claims, n, allowed, guards), claims, n, allowed, guards, k)
  {
    if n != 0 {
      var m := AuditClaims(l, claims, n - 1, allowed, guards);
      var r := AuditClaim(m, claims[n - 1], allowed, guards(claims[n - 1]));
      OneSettles(m, claims, n - 1, allowed, guards, k);
      AuditClaimsSettle(l, claims, n - 1, allowed, guards, k);
      NextSettles(l, m, r, claims, n - 1, allowed, guards, k);
    }
  }
}
