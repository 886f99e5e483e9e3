/** Turning an untrusted model draft into a server-owned answer artifact
    (src/creditlens/agents/grounded_qa.py:301-532, src/creditlens/agents/contracts.py:132-203). */
module GroundedQA {
  import opened Common
  import opened Contracts

  // ---------------------------------------------------------------- the draft

  datatype DraftClaim = DraftClaim(
    category: Category, statement: Statement, verdict: Verdict,
    supporting: seq<Id>, opposing: seq<Id>, uncertaintyReason: Option<string>)

  /** `decisionLanguage`: some text of the draft matches a forbidden credit-decision pattern. */
  datatype Draft = Draft(
    claims: seq<DraftClaim>, missingInformation: seq<string>, conflicts: seq<string>,
    abstentionReason: Option<string>, refusalReason: Option<RefusalReason>, decisionLanguage: bool)

  /** DraftAnswerClaim's validators; a validated statement is stripped and not blank. */
  predicate ValidDraftClaim(c: DraftClaim) {
    && c.statement.text == Strip(c.statement.text) != ""
    && (c.verdict == SUPPORTED ==> c.supporting != [])
    && (c.verdict == INSUFFICIENT_EVIDENCE ==> Truthy(c.uncertaintyReason))
  }

  predicate InsufficientOnly(d: Draft) {
    d.claims != [] && forall c :: c in d.claims ==> c.verdict == INSUFFICIENT_EVIDENCE
  }

  /** The draft validator's forecast that the answer will be an abstention. */
  predicate WillAbstain(d: Draft) {
    Truthy(d.abstentionReason) || InsufficientOnly(d) || (d.claims == [] && d.missingInformation != [])
  }

  predicate ValidDraft(d: Draft) {
    && (forall c :: c in d.claims ==> ValidDraftClaim(c))
    && (d.refusalReason.Some? ==> WillAbstain(d))
  }

  datatype OutputRejection =
    | INVALID_MODEL_OUTPUT | CLAIM_LIMIT_EXCEEDED | UNKNOWN_EVIDENCE_ID
    | FORBIDDEN_CREDIT_DECISION | EMPTY_MODEL_DRAFT

  datatype Materialized = Answer(answer: GroundedAnswer) | OutputRejected(code: OutputRejection)

  // ---------------------------------------------------------------- packed evidence

  /** A packed section; `evidenceId` is the id derived from its section id and text hash. */
  datatype PackedSection = PackedSection(
    evidenceId: Id, sectionId: Id, documentVersionId: Id, parseRunId: Id, pageStart: int, textHash: string)

  function EvidenceRefOf(s: PackedSection): EvidenceRef {
    EvidenceRef(s.evidenceId, DOCUMENT_SPAN, s.sectionId, s.textHash, Some(s.documentVersionId), Some(s.sectionId),
                Some(s.parseRunId), Some(s.pageStart), None, None)
  }

  /** The ids the service allows citations to use. */
  function PackedIds(sections: seq<PackedSection>): set<Id> {
    set s | s in sections :: s.evidenceId
  }

  /** One reference per evidence id, the first section with that id winning. */
  function FirstRefs(sections: seq<PackedSection>): (refs: seq<EvidenceRef>)
    ensures EvidenceIds(refs) == PackedIds(sections)
    ensures forall i, j :: 0 <= i < j < |refs| ==> refs[i].evidenceId != refs[j].evidenceId
  {
    if sections == [] then []
    else
      var front, ref := FirstRefs(sections[..|sections| - 1]), EvidenceRefOf(sections[|sections| - 1]);
      assert sections == sections[..|sections| - 1] + [sections[|sections| - 1]];
      assert PackedIds(sections) == PackedIds(sections[..|sections| - 1]) + {ref.evidenceId};
      assert EvidenceIds(front + [ref]) == EvidenceIds(front) + {ref.evidenceId};
      assert forall i :: 0 <= i < |front| ==> front[i] in front;
      if ref.evidenceId in EvidenceIds(front) then front else front + [ref]
  }

  /** _evidence_refs. */
  method EvidenceRefs(sections: seq<PackedSection>) returns (refs: seq<EvidenceRef>)
    ensures refs == FirstRefs(sections)
  {
    refs := [];
    for i := 0 to |sections|
      invariant refs == FirstRefs(sections[..i])
    {
      assert sections[..i + 1][..i] == sections[..i];
      var ref := EvidenceRefOf(sections[i]);
      if ref.evidenceId !in EvidenceIds(refs) {
        refs := refs + [ref];
      }
    }
    assert sections[..|sections|] == sections;
  }

  /** Section k is the first with its evidence id. */
  predicate IsFirst(sections: seq<PackedSection>, k: nat) {
    k < |sections| && forall j :: 0 <= j < k ==> sections[j].evidenceId != sections[k].evidenceId
  }

  /** What a reference says of a section. */
  predicate Refers(e: EvidenceRef, s: PackedSection) {
    && e.evidenceId == s.evidenceId && e.evidenceType == DOCUMENT_SPAN && e.sourceId == s.sectionId
    && e.contentHash == s.textHash && e.documentVersionId == Some(s.documentVersionId)
    && e.sectionId == Some(s.sectionId) && e.parseRunId == Some(s.parseRunId) && e.pageNumber == Some(s.pageStart)
  }

  /** Each reference is that of the first section with its id, and they come in the order of first occurrence. */
  lemma {:induction false} RefsAreFirst(sections: seq<PackedSection>, n: nat, i: nat) returns (k: nat)
    requires n <= |sections| && i < |FirstRefs(sections)|
    ensures IsFirst(sections, k) && Refers(FirstRefs(sections)[i], sections[k])
    ensures FirstRefs(sections[..n]) <= FirstRefs(sections)
  {
    var front, last := sections[..|sections| - 1], sections[|sections| - 1];
    assert sections == front + [last];
    if i < |FirstRefs(front)| {
      k := RefsAreFirst(front, if n < |sections| then n else |front|, i);
    } else {
      k := |sections| - 1;
      assert forall j :: 0 <= j < k ==> sections[j] in front && sections[j].evidenceId in PackedIds(front);
      RefsArePrefix(front, if n < |sections| then n else |front|);
    }
    if n < |sections| { assert front[..n] == sections[..n]; } else { assert sections[..n] == sections; }
  }

  lemma {:induction false} RefsArePrefix(sections: seq<PackedSection>, n: nat)
    requires n <= |sections|
    ensures FirstRefs(sections[..n]) <= FirstRefs(sections)
  {
    if n < |sections| {
      RefsArePrefix(sections[..|sections| - 1], n);
      assert sections[..|sections| - 1][..n] == sections[..n];
    } else {
      assert sections[..n] == sections;
    }
  }

  // ---------------------------------------------------------------- materialization

  /** Server-side inputs: as-of date, claim limit, provenance and freshly generated claim ids. */
  datatype Request = Request(asOfDate: Date, maxClaims: nat, provenance: Provenance, freshIds: seq<Id>)

  function MaterializeClaim(d: DraftClaim, id: Id, asOf: Date): AgentClaim {
    AgentClaim(id, d.category, d.statement.(text := Strip(d.statement.text)), d.verdict,
               Dedup(d.supporting), Dedup(d.opposing), [], asOf, d.uncertaintyReason)
  }

  function MaterializeClaims(ds: seq<DraftClaim>, ids: seq<Id>, asOf: Date): (claims: seq<AgentClaim>)
    requires |ds| <= |ids|
    ensures |claims| == |ds|
    ensures forall i :: 0 <= i < |ds| ==> claims[i] == MaterializeClaim(ds[i], ids[i], asOf)
  {
    seq(|ds|, i requires 0 <= i < |ds| => MaterializeClaim(ds[i], ids[i], asOf))
  }

  function DraftCitations(d: Draft): set<Id> {
    set c, id | c in d.claims && id in c.supporting + c.opposing :: id
  }

  function CitedRefs(refs: seq<EvidenceRef>, cited: set<Id>): (r: seq<EvidenceRef>)
    ensures forall e :: e in r <==> e in refs && e.evidenceId in cited
  {
    if refs == [] then [] else (if refs[0].evidenceId in cited then [refs[0]] else []) + CitedRefs(refs[1..], cited)
  }

  /** What the materializer refuses, in its order of checks. */
  function Refusal(refs: seq<EvidenceRef>, d: Draft, maxClaims: nat): Option<OutputRejection> {
    if !ValidDraft(d) then Some(INVALID_MODEL_OUTPUT)
    else if |d.claims| > maxClaims then Some(CLAIM_LIMIT_EXCEEDED)
    else if !(DraftCitations(d) <= EvidenceIds(refs)) then Some(UNKNOWN_EVIDENCE_ID)
    else if d.decisionLanguage then Some(FORBIDDEN_CREDIT_DECISION)
    else if d.claims == [] && !Truthy(d.abstentionReason) && d.missingInformation == [] then Some(EMPTY_MODEL_DRAFT)
    else None
  }

  /** They come in the order of the references. */
  lemma {:induction false} CitedInOrder(refs: seq<EvidenceRef>, cited: set<Id>, n: nat)
    requires n <= |refs|
    ensures CitedRefs(refs[..n], cited) <= CitedRefs(refs, cited)
  {
    if n > 0 {
      CitedInOrder(refs[1..], cited, n - 1);
      assert refs[..n][1..] == refs[1..][..n - 1];
    }
  }

  /** The draft cites nothing unknown: each id it cites is that of some reference. */
  predicate CitesOnly(refs: seq<EvidenceRef>, d: Draft) {
    forall c, id :: c in d.claims && id in c.supporting + c.opposing ==> exists e :: e in refs && e.evidenceId == id
  }

  /** Every claim says something, a SUPPORTED one cites support and an INSUFFICIENT_EVIDENCE one says why; and a draft
      with a refusal code abstains. */
  predicate WellFormedDraft(d: Draft) {
    && (forall c :: c in d.claims ==>
          && c.statement.text != "" && c.statement.text == Strip(c.statement.text)
          && (c.verdict == SUPPORTED ==> |c.supporting| > 0)
          && (c.verdict == INSUFFICIENT_EVIDENCE ==> c.uncertaintyReason != None && c.uncertaintyReason != Some("")))
    && (d.refusalReason == None || Reason(d) != None)
  }

  /** Why a draft abstains, if it does: because it says so, because all it has are insufficient claims, or because it
      has nothing but missing information. */
  datatype AbstentionGround = SaysSo | InsufficientClaims | MissingOnly

  function Reason(d: Draft): Option<AbstentionGround> {
    if d.abstentionReason != None && d.abstentionReason != Some("") then Some(SaysSo)
    else if d.claims != [] && forall c :: c in d.claims ==> c.verdict == INSUFFICIENT_EVIDENCE
    then Some(InsufficientClaims)
    else if d.claims == [] && d.missingInformation != [] then Some(MissingOnly)
    else None
  }

  /** Which drafts are refused, for which first reason: they are malformed, make too many claims, cite an unknown id,
      use the language of a credit decision, or say nothing at all. */
  lemma {:induction false} DraftsRefusedExactly(req: Request, refs: seq<EvidenceRef>, d: Draft)
    requires |d.claims| <= |req.freshIds|
    ensures var m := Materialize(req, refs, d);
            if !WellFormedDraft(d) then m == OutputRejected(INVALID_MODEL_OUTPUT)
            else if |d.claims| > req.maxClaims then m == OutputRejected(CLAIM_LIMIT_EXCEEDED)
            else if !CitesOnly(refs, d) then m == OutputRejected(UNKNOWN_EVIDENCE_ID)
            else if d.decisionLanguage then m == OutputRejected(FORBIDDEN_CREDIT_DECISION)
            else if d.claims == [] && Reason(d) == None then m == OutputRejected(EMPTY_MODEL_DRAFT)
            else m.Answer?
  {
    assert DraftCitations(d) <= EvidenceIds(refs) <==> CitesOnly(refs, d) by { CitationsKnown(refs, d); }
  }

  lemma {:induction false} CitationsKnown(refs: seq<EvidenceRef>, d: Draft)
    ensures DraftCitations(d) <= EvidenceIds(refs) <==> CitesOnly(refs, d)
  {
    if CitesOnly(refs, d) {
      forall id | id in DraftCitations(d) ensures id in EvidenceIds(refs) {
        var c :| c in d.claims && id in c.supporting + c.opposing;
      }
    } else {
      var c, id :| c in d.claims && id in c.supporting + c.opposing && !exists e :: e in refs && e.evidenceId == id;
      assert id in DraftCitations(d) && id !in EvidenceIds(refs);
    }
  }

  datatype Outcome = Outcome(status: AnswerStatus, abstentionReason: Option<string>)

  const INSUFFICIENT_ONLY_REASON := "模型明确指出现有证据不足，无法形成受支持结论。"
  const UNSUPPORTED_REASON := "现有证据不足以形成可直接回答的受支持结论。"

  /** The branch structure that decides the answer state. */
  function Decide(d: Draft, claims: seq<AgentClaim>): Outcome {
    var supported := SupportedClaims(claims);
    var conflictSignal := d.conflicts != [] || exists c :: c in claims && (c.verdict != SUPPORTED || c.opposing != []);
    if Truthy(d.abstentionReason) then Outcome(ABSTAINED, d.abstentionReason)
    else if claims != [] && (forall c :: c in claims ==> c.verdict == INSUFFICIENT_EVIDENCE) then
      Outcome(ABSTAINED, Some(INSUFFICIENT_ONLY_REASON))
    else if conflictSignal && claims != [] then Outcome(NEEDS_REVIEW, None)
    else if supported != [] && d.missingInformation == [] then Outcome(ANSWERED, None)
    else if supported != [] then Outcome(NEEDS_REVIEW, None)
    else Outcome(ABSTAINED, Some(UNSUPPORTED_REASON))
  }

  function Build(req: Request, refs: seq<EvidenceRef>, d: Draft, claims: seq<AgentClaim>): GroundedAnswer {
    var o := Decide(d, claims);
    var abstains := o.status == ABSTAINED;
    GroundedAnswer(
      AgentArtifact("grounded_qa", ExecutionStatusFor(o.status), if abstains then [] else claims,
                    if abstains then [] else CitedRefs(refs, DraftCitations(d)), [], true),
      req.provenance,
      o.status,
      if o.status == ANSWERED then Some(Rendering(SupportedClaims(claims))) else None,
      d.missingInformation, d.conflicts, o.abstentionReason,
      if !abstains then None else if d.refusalReason.Some? then d.refusalReason else Some(UNSPECIFIED_REFUSAL))
  }

  /** GroundedQAAgent._materialize. */
  function Materialize(req: Request, refs: seq<EvidenceRef>, d: Draft): Materialized
    requires |d.claims| <= |req.freshIds|
  {
    var refusal := Refusal(refs, d, req.maxClaims);
    if refusal.Some? then OutputRejected(refusal.value)
    else Answer(Build(req, refs, d, MaterializeClaims(d.claims, req.freshIds, req.asOfDate)))
  }

  // ---------------------------------------------------------------- what an accepted draft becomes

  lemma {:induction false} SupportedMembers(claims: seq<AgentClaim>)
    ensures forall c :: c in SupportedClaims(claims) <==> c in claims && c.verdict == SUPPORTED
    ensures SupportedClaims(claims) == [] <==> forall c :: c in claims ==> c.verdict != SUPPORTED
  {
    if claims != [] {
      SupportedMembers(claims[1..]);
      assert claims == [claims[0]] + claims[1..];
    }
  }

  lemma {:induction false} RenderingNotEmpty(claims: seq<AgentClaim>)
    requires claims != [] && forall c :: c in claims ==> Strip(c.statement.text) != ""
    ensures Rendering(claims) != ""
  {
    assert claims[0] in claims;
  }

  lemma {:induction false} SameVerdicts(d: Draft, ids: seq<Id>, asOf: Date)
    requires |d.claims| <= |ids|
    ensures var claims := MaterializeClaims(d.claims, ids, asOf);
            && (d.claims == [] <==> claims == [])
            && (InsufficientOnly(d) <==> claims != [] && forall c :: c in claims ==> c.verdict == INSUFFICIENT_EVIDENCE)
  {
    var claims := MaterializeClaims(d.claims, ids, asOf);
    if InsufficientOnly(d) {
      forall c | c in claims ensures c.verdict == INSUFFICIENT_EVIDENCE {
        var i :| 0 <= i < |claims| && claims[i] == c;
        assert d.claims[i] in d.claims;
      }
    } else if claims != [] {
      var dc :| dc in d.claims && dc.verdict != INSUFFICIENT_EVIDENCE;
      var i :| 0 <= i < |d.claims| && d.claims[i] == dc;
      assert claims[i] in claims;
    }
  }

  /** The draft validator's forecast is exact: an accepted draft becomes ABSTAINED if and only if it holds.
      Hence a model's refusal code is kept on every abstention and never reaches another state. */
  lemma {:induction false} ForecastIsExact(req: Request, refs: seq<EvidenceRef>, d: Draft)
    requires |d.claims| <= |req.freshIds| && Materialize(req, refs, d).Answer?
    ensures var a := Materialize(req, refs, d).answer;
            && (a.answerStatus == ABSTAINED <==> WillAbstain(d))
            && (d.refusalReason.Some? ==> a.answerStatus == ABSTAINED && a.refusalReason == d.refusalReason)
            && (a.answerStatus != ABSTAINED ==> a.refusalReason.None?)
  {
    var claims := MaterializeClaims(d.claims, req.freshIds, req.asOfDate);
    SameVerdicts(d, req.freshIds, req.asOfDate);
    SupportedMembers(claims);
  }

  /** Every artifact built from an accepted draft satisfies the artifact's own validator. */
  lemma {:induction false} MaterializedIsValid(req: Request, refs: seq<EvidenceRef>, d: Draft)
    requires |d.claims| <= |req.freshIds| && Materialize(req, refs, d).Answer?
    ensures ValidAnswer(Materialize(req, refs, d).answer)
  {
    var claims := MaterializeClaims(d.claims, req.freshIds, req.asOfDate);
    SupportedMembers(claims);
    var supported := SupportedClaims(claims);
    if Decide(d, claims).status == ANSWERED {
      forall c | c in supported ensures Strip(c.statement.text) != "" {
        var i :| 0 <= i < |claims| && claims[i] == c;
        assert ValidDraftClaim(d.claims[i]);
      }
      RenderingNotEmpty(supported);
    }
  }
}
