/** What stands in an answer: its text, laid out claim by claim, and the parts it takes over from the draft
    (grounded_qa.py:431-526, auditor.py:704-722). */
module AnswerText {
  import opened Common
  import opened Contracts
  import opened EvidenceAuditor
  import opened AnswerAudit
  import opened GroundedQA
  import opened AnswerAgreement
  import opened AuditSoundness

  // ---------------------------------------------------------------- parts laid out in a text

  predicate Stands(text: string, part: string, at: nat) {
    at + |part| <= |text| && text[at..at + |part|] == part
  }

  /** Part k begins one blank after the end of the part before it. */
  predicate Follows(text: string, parts: seq<string>, at: seq<nat>, k: nat)
    requires 0 < k < |parts| == |at|
  {
    var end := at[k - 1] + |parts[k - 1]|;
    end < |text| && text[end] == ' ' && at[k] == end + 1
  }

  /** Part k stands at position at[k]: the first at the start, each next one a blank after the one before, the last up
      to the end. */
  predicate LaidOut(text: string, parts: seq<string>, at: seq<nat>) {
    && |at| == |parts|
    && (forall k :: 0 <= k < |parts| ==> Stands(text, parts[k], at[k]))
    && (forall k: nat :: 0 < k < |parts| ==> Follows(text, parts, at, k))
    && (if parts == [] then text == "" else at[0] == 0 && at[|at| - 1] + |parts[|parts| - 1]| == |text|)
  }

  lemma {:induction false} OnePart(part: string)
    ensures LaidOut(part, [part], [0])
  {
  }

  function Shifted(at: seq<nat>, offset: nat): (r: seq<nat>)
    ensures |r| == |at| && forall i :: 0 <= i < |at| ==> r[i] == at[i] + offset
  {
    seq(|at|, i requires 0 <= i < |at| => at[i] + offset)
  }

  lemma {:induction false} StandsLater(before: string, text: string, part: string, at: nat)
    requires Stands(text, part, at)
    ensures Stands(before + text, part, at + |before|)
  {
    assert (before + text)[at + |before|..at + |before| + |part|] == text[at..at + |part|];
  }

  lemma {:induction false} PartsStandLater(part: string, text: string, parts: seq<string>, at: seq<nat>)
    requires LaidOut(text, parts, at)
    ensures var t, ps, ats := part + " " + text, [part] + parts, [0] + Shifted(at, |part| + 1);
            forall k :: 0 <= k < |ps| ==> Stands(t, ps[k], ats[k])
  {
    var t, ps, ats := part + " " + text, [part] + parts, [0] + Shifted(at, |part| + 1);
    forall k | 0 <= k < |ps| ensures Stands(t, ps[k], ats[k]) {
      if k == 0 {
        assert t[..|part|] == part;
      } else {
        assert Stands(text, parts[k - 1], at[k - 1]);
        StandsLater(part + " ", text, parts[k - 1], at[k - 1]);
      }
    }
  }

  lemma {:induction false} FollowsLater(part: string, text: string, parts: seq<string>, at: seq<nat>, k: nat)
    requires LaidOut(text, parts, at) && 0 < k < |parts| + 1
    ensures Follows(part + " " + text, [part] + parts, [0] + Shifted(at, |part| + 1), k)
  {
    var t := part + " " + text;
    if k == 1 {
      assert t[|part|] == ' ';
    } else {
      assert Follows(text, parts, at, k - 1);
      var end := at[k - 2] + |parts[k - 2]|;
      assert t[end + |part| + 1] == text[end];
    }
  }

  lemma {:induction false} PartBefore(part: string, text: string, parts: seq<string>, at: seq<nat>)
    requires LaidOut(text, parts, at) && parts != []
    ensures LaidOut(part + " " + text, [part] + parts, [0] + Shifted(at, |part| + 1))
  {
    var t, ps, ats := part + " " + text, [part] + parts, [0] + Shifted(at, |part| + 1);
    PartsStandLater(part, text, parts, at);
    forall k: nat | 0 < k < |ps| ensures Follows(t, ps, ats, k) {
      FollowsLater(part, text, parts, at, k);
    }
  }

  /** The stripped statements of claims, in order. */
  function Statements(claims: seq<AgentClaim>): (parts: seq<string>)
    ensures |parts| == |claims|
  {
    seq(|claims|, i requires 0 <= i < |claims| => Strip(claims[i].statement.text))
  }

  lemma {:induction false} OneStatementMore(claims: seq<AgentClaim>)
    requires |claims| > 1
    ensures Statements(claims) == [Strip(claims[0].statement.text)] + Statements(claims[1..])
    ensures Rendering(claims) == Strip(claims[0].statement.text) + " " + Rendering(claims[1..])
  {
  }

  lemma {:induction false} RenderingIsLaidOut(claims: seq<AgentClaim>) returns (at: seq<nat>)
    ensures LaidOut(Rendering(claims), Statements(claims), at)
  {
    if claims == [] {
      at := [];
    } else if |claims| == 1 {
      OnePart(Strip(claims[0].statement.text));
      assert Statements(claims) == [Strip(claims[0].statement.text)];
      at := [0];
    } else {
      var part := Strip(claims[0].statement.text);
      var rest := RenderingIsLaidOut(claims[1..]);
      PartBefore(part, Rendering(claims[1..]), Statements(claims[1..]), rest);
      OneStatementMore(claims);
      at := [0] + Shifted(rest, |part| + 1);
    }
  }

  // ---------------------------------------------------------------- the supported claims, in order

  predicate PicksAt(claims: seq<AgentClaim>, picked: seq<AgentClaim>, pos: seq<nat>) {
    |pos| == |picked| && forall i :: 0 <= i < |pos| ==> pos[i] < |claims| && picked[i] == claims[pos[i]]
  }

  predicate Ascending(pos: seq<nat>) {
    forall i, j :: 0 <= i < j < |pos| ==> pos[i] < pos[j]
  }

  predicate AllSupportedIn(claims: seq<AgentClaim>, pos: seq<nat>) {
    forall k :: 0 <= k < |claims| ==> (claims[k].verdict == SUPPORTED <==> k in pos)
  }

  /** The claims at these increasing positions, and no others, are SUPPORTED. */
  predicate SupportedAt(claims: seq<AgentClaim>, supported: seq<AgentClaim>, pos: seq<nat>) {
    PicksAt(claims, supported, pos) && Ascending(pos) && AllSupportedIn(claims, pos)
  }

  lemma {:induction false} PicksLater(
      claim: AgentClaim, claims: seq<AgentClaim>, picked: seq<AgentClaim>, pos: seq<nat>)
    requires PicksAt(claims, picked, pos)
    ensures PicksAt([claim] + claims, picked, Shifted(pos, 1))
    ensures PicksAt([claim] + claims, [claim] + picked, [0] + Shifted(pos, 1))
  {
  }

  lemma {:induction false} AscendsLater(pos: seq<nat>)
    requires Ascending(pos)
    ensures Ascending(Shifted(pos, 1)) && Ascending([0] + Shifted(pos, 1))
  {
  }

  lemma {:induction false} ShiftedMembers(pos: seq<nat>, k: nat)
    ensures k in Shifted(pos, 1) <==> k > 0 && k - 1 in pos
  {
    if k > 0 && k - 1 in pos {
      var i :| 0 <= i < |pos| && pos[i] == k - 1;
      assert Shifted(pos, 1)[i] == k;
    }
  }

  lemma {:induction false} SupportedFirst(
      claim: AgentClaim, claims: seq<AgentClaim>, supported: seq<AgentClaim>, pos: seq<nat>)
    requires SupportedAt(claims, supported, pos) && claim.verdict == SUPPORTED
    ensures SupportedAt([claim] + claims, [claim] + supported, [0] + Shifted(pos, 1))
  {
    var all, at := [claim] + claims, [0] + Shifted(pos, 1);
    PicksLater(claim, claims, supported, pos);
    AscendsLater(pos);
    forall k | 0 <= k < |all| ensures all[k].verdict == SUPPORTED <==> k in at {
      ShiftedMembers(pos, k);
      if k > 0 { assert all[k] == claims[k - 1]; }
    }
  }

  lemma {:induction false} SkippedFirst(
      claim: AgentClaim, claims: seq<AgentClaim>, supported: seq<AgentClaim>, pos: seq<nat>)
    requires SupportedAt(claims, supported, pos) && claim.verdict != SUPPORTED
    ensures SupportedAt([claim] + claims, supported, Shifted(pos, 1))
  {
    var all, at := [claim] + claims, Shifted(pos, 1);
    PicksLater(claim, claims, supported, pos);
    AscendsLater(pos);
    forall k | 0 <= k < |all| ensures all[k].verdict == SUPPORTED <==> k in at {
      ShiftedMembers(pos, k);
      if k > 0 { assert all[k] == claims[k - 1]; }
    }
  }

  lemma {:induction false} SupportedInOrder(claims: seq<AgentClaim>) returns (pos: seq<nat>)
    ensures SupportedAt(claims, SupportedClaims(claims), pos)
  {
    if claims == [] {
      pos := [];
    } else {
      var rest := SupportedInOrder(claims[1..]);
      assert claims == [claims[0]] + claims[1..];
      if claims[0].verdict == SUPPORTED {
        SupportedFirst(claims[0], claims[1..], SupportedClaims(claims[1..]), rest);
        pos := [0] + Shifted(rest, 1);
      } else {
        SkippedFirst(claims[0], claims[1..], SupportedClaims(claims[1..]), rest);
        assert [] + SupportedClaims(claims[1..]) == SupportedClaims(claims[1..]);
        pos := Shifted(rest, 1);
      }
    }
  }

  lemma {:induction false} AllSupported(claims: seq<AgentClaim>)
    requires forall c :: c in claims ==> c.verdict == SUPPORTED
    ensures SupportedClaims(claims) == claims
  {
    if claims != [] {
      assert claims == [claims[0]] + claims[1..];
      AllSupported(claims[1..]);
    }
  }

  // ---------------------------------------------------------------- the text of an answer

  function DraftStatements(d: Draft): (parts: seq<string>)
    ensures |parts| == |d.claims|
  {
    seq(|d.claims|, i requires 0 <= i < |d.claims| => Strip(d.claims[i].statement.text))
  }

  lemma {:induction false} StatementsAreKept(req: Request, d: Draft)
    requires |d.claims| <= |req.freshIds| && forall c :: c in d.claims ==> ValidDraftClaim(c)
    ensures Statements(MaterializeClaims(d.claims, req.freshIds, req.asOfDate)) == DraftStatements(d)
  {
    var claims := MaterializeClaims(d.claims, req.freshIds, req.asOfDate);
    forall k | 0 <= k < |d.claims| ensures Statements(claims)[k] == DraftStatements(d)[k] {
      assert ValidDraftClaim(d.claims[k]);
    }
  }

  /** The text of an answered draft is all its statements, in draft order, each a blank after the one before. */
  lemma {:induction false} AnswerIsLaidOut(req: Request, refs: seq<EvidenceRef>, d: Draft) returns (at: seq<nat>)
    requires |d.claims| <= |req.freshIds| && Materialize(req, refs, d).Answer?
    requires Materialize(req, refs, d).answer.answerStatus == ANSWERED
    ensures d.claims != [] && Materialize(req, refs, d).answer.directAnswer.Some?
    ensures LaidOut(Materialize(req, refs, d).answer.directAnswer.value, DraftStatements(d), at)
  {
    var a, claims := Materialize(req, refs, d).answer, MaterializeClaims(d.claims, req.freshIds, req.asOfDate);
    MaterializedClaims(req, refs, d);
    StatusReadOff(req, refs, d);
    AllSupported(claims);
    AnsweredRendering(req, refs, d);
    StatementsAreKept(req, d);
    at := RenderingIsLaidOut(claims);
  }

  /** An answer of any origin that passes its audit as ANSWERED says, up to blanks at its ends, exactly its supported
      statements, in order, each a blank after the one before. */
  lemma {:induction false} PassedTextIsLaidOut(
      ctx: Context, a: GroundedAnswer, allowed: set<Id>, guards: AgentClaim -> Guards)
    returns (text: string, supported: seq<AgentClaim>, pos: seq<nat>, at: seq<nat>)
    requires Audited(ctx, a, allowed, guards).Ok() && Audited(ctx, a, allowed, guards).derived == Some(ANSWERED)
    ensures Strip(Text(a.directAnswer)) == Strip(text)
    ensures SupportedAt(a.base.claims, supported, pos) && LaidOut(text, Statements(supported), at)
  {
    PassedParts(ctx, a, allowed, guards);
    supported := SupportedClaims(a.base.claims);
    text := Rendering(supported);
    pos := SupportedInOrder(a.base.claims);
    at := RenderingIsLaidOut(supported);
    AnsweredCodes(a, NormalizationDue(BeforeStatus(VerifiedAnswer(ctx, a), a, allowed, guards), a));
  }

  lemma {:induction false} AnsweredCodes(a: GroundedAnswer, normalize: bool)
    ensures StatusCodes(a, ANSWERED, normalize) == {} ==>
              Strip(Text(a.directAnswer)) == Strip(Rendering(SupportedClaims(a.base.claims)))
  {
    assert Strip(Text(a.directAnswer)) != Strip(Rendering(SupportedClaims(a.base.claims))) ==>
             DIRECT_ANSWER_NOT_EXACT_CLAIM_RENDERING in StatusCodes(a, ANSWERED, normalize);
  }

  // ---------------------------------------------------------------- what is taken over from the draft

  /** A materialized answer keeps the draft's missing information and conflicts and the server's own provenance. An
      abstention gives the draft's reason, or says that the model found only insufficient evidence, or that nothing is
      supported, and its refusal code is the draft's or unspecified; every other answer has neither. */
  lemma {:induction false} DraftIsTakenOver(req: Request, refs: seq<EvidenceRef>, d: Draft)
    requires |d.claims| <= |req.freshIds| && Materialize(req, refs, d).Answer?
    ensures var a := Materialize(req, refs, d).answer;
            && a.missingInformation == d.missingInformation && a.conflicts == d.conflicts
            && a.provenance == req.provenance
            && a.abstentionReason == (
                 if !WillAbstain(d) then None
                 else if Truthy(d.abstentionReason) then d.abstentionReason
                 else if InsufficientOnly(d) then Some(INSUFFICIENT_ONLY_REASON) else Some(UNSUPPORTED_REASON))
            && a.refusalReason == (
                 if !WillAbstain(d) then None
                 else if d.refusalReason.Some? then d.refusalReason else Some(UNSPECIFIED_REFUSAL))
  {
    ForecastIsExact(req, refs, d);
    SameVerdicts(d, req.freshIds, req.asOfDate);
  }

  /** Some claim of the draft cites the id, in support or against. */
  predicate IsCited(d: Draft, id: Id) {
    exists c :: c in d.claims && (id in c.supporting || id in c.opposing)
  }

  /** An answer carries exactly the references its draft cites, in the order of the references; an abstention carries
      none, and no claims. */
  lemma {:induction false} EvidenceIsTakenOver(req: Request, refs: seq<EvidenceRef>, d: Draft, n: nat)
    requires |d.claims| <= |req.freshIds| && Materialize(req, refs, d).Answer? && n <= |refs|
    ensures var a := Materialize(req, refs, d).answer.base;
            if WillAbstain(d) then a.evidence == [] && a.claims == []
            else
              && (forall e :: e in a.evidence <==> e in refs && IsCited(d, e.evidenceId))
              && CitedRefs(refs[..n], set e | e in refs && IsCited(d, e.evidenceId) :: e.evidenceId) <= a.evidence
  {
    ForecastIsExact(req, refs, d);
    var cited := set e | e in refs && IsCited(d, e.evidenceId) :: e.evidenceId;
    forall id ensures id in DraftCitations(d) <==> IsCited(d, id) { CitedByDraft(d, id); }
    forall id | id in DraftCitations(d) ensures id in cited { assert id in EvidenceIds(refs); }
    assert DraftCitations(d) == cited;
    CitedInOrder(refs, cited, n);
  }

  lemma {:induction false} CitedByDraft(d: Draft, id: Id)
    ensures id in DraftCitations(d) <==> IsCited(d, id)
  {
    if c :| c in d.claims && (id in c.supporting || id in c.opposing) { assert id in c.supporting + c.opposing; }
  }

  /** A claim of an answer that does not abstain is the draft's, under a fresh id: category, stripped statement,
      verdict, supporting and opposing evidence each once, and the reason for its uncertainty. */
  lemma {:induction false} ClaimsAreTakenOver(req: Request, refs: seq<EvidenceRef>, d: Draft, k: nat)
    requires |d.claims| <= |req.freshIds| && Materialize(req, refs, d).Answer? && k < |d.claims| && !WillAbstain(d)
    ensures var a, dc := Materialize(req, refs, d).answer, d.claims[k];
            && |a.base.claims| == |d.claims| && a.base.calculations == []
            && var c := a.base.claims[k];
               && c.claimId == req.freshIds[k] && c.category == dc.category && c.verdict == dc.verdict
               && c.statement.text == Strip(dc.statement.text) && c.asOfDate == req.asOfDate && c.calculations == []
               && c.uncertaintyReason == dc.uncertaintyReason
               && (forall id :: id in c.supporting <==> id in dc.supporting) && NoDuplicates(c.supporting)
               && (forall id :: id in c.opposing <==> id in dc.opposing) && NoDuplicates(c.opposing)
  {
    ForecastIsExact(req, refs, d);
    MaterializedClaims(req, refs, d);
  }
}
