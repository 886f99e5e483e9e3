/** What applying an audit to the claims of a run leaves undecided. */
module ReviewVerdicts {
  import opened Common
  import opened Contracts
  import opened EvidenceAuditor
  import opened ClaimAudit
  import opened FullReview
  import opened ReviewInvariants

  lemma {:induction false} LastArtifact(artifacts: seq<AgentArtifact>)
    requires artifacts != []
    ensures var front, last := artifacts[..|artifacts| - 1], artifacts[|artifacts| - 1];
            && AllIds(artifacts) == AllIds(front) + ClaimIds(last.claims)
            && PassedOverIds(artifacts) ==
               PassedOverIds(front) + if PassedOver(last) then set id | id in ClaimIds(last.claims) else {}
  {
    assert artifacts == artifacts[..|artifacts| - 1] + [artifacts[|artifacts| - 1]];
  }

  lemma {:induction false} LastFilings(ctx: Context, artifacts: seq<AgentArtifact>)
    requires artifacts != []
    ensures var front, last := artifacts[..|artifacts| - 1], artifacts[|artifacts| - 1];
            FilingIds(AllFilings(ctx, artifacts))
            == FilingIds(AllFilings(ctx, front)) + if TreatmentOf(ctx, last).Skip? then [] else ClaimIds(last.claims)
  {
    var front, last := artifacts[..|artifacts| - 1], artifacts[|artifacts| - 1];
    var first, second := AllFilings(ctx, front), Filings(ctx, last);
    assert FilingIds(first + second) == FilingIds(first) + FilingIds(second);
    assert FilingIds(second) == if TreatmentOf(ctx, last).Skip? then [] else ClaimIds(last.claims);
  }

  lemma {:induction false} PassedOverAreClaims(artifacts: seq<AgentArtifact>, id: Id)
    requires id in PassedOverIds(artifacts)
    ensures id in AllIds(artifacts)
  {
    LastArtifact(artifacts);
    if id in PassedOverIds(artifacts[..|artifacts| - 1]) { PassedOverAreClaims(artifacts[..|artifacts| - 1], id); }
  }

  lemma {:induction false} DistinctParts(first: seq<Id>, second: seq<Id>)
    requires NoDuplicates(first + second)
    ensures NoDuplicates(first) && forall id :: id in first ==> id !in second
  {
    var all := first + second;
    forall i, j | 0 <= i < j < |first| ensures first[i] != first[j] { assert all[i] != all[j]; }
    forall i, j | 0 <= i < |first| && 0 <= j < |second| ensures first[i] != second[j] {
      assert all[i] != all[|first| + j];
    }
  }

  lemma {:induction false} WhereFiled(ctx: Context, artifacts: seq<AgentArtifact>, id: Id)
    requires artifacts != [] && CaseOk(ctx) && NoDuplicates(AllIds(artifacts))
    ensures var front, last := artifacts[..|artifacts| - 1], artifacts[|artifacts| - 1];
            var here := id in ClaimIds(last.claims);
            && NoDuplicates(AllIds(front))
            && (id in AllIds(artifacts) <==> id in AllIds(front) || here)
            && (here ==> id !in AllIds(front))
            && (id in FilingIds(AllFilings(ctx, artifacts)) <==>
                  id in FilingIds(AllFilings(ctx, front)) || (here && !PassedOver(last)))
            && (id in PassedOverIds(artifacts) <==> id in PassedOverIds(front) || (here && PassedOver(last)))
  {
    LastArtifact(artifacts);
    LastFilings(ctx, artifacts);
    DistinctParts(AllIds(artifacts[..|artifacts| - 1]), ClaimIds(artifacts[|artifacts| - 1].claims));
  }

  /** On a valid case exactly the claims of failed non-core artifacts get no verdict. */
  lemma {:induction false} FiledUnlessPassedOver(ctx: Context, artifacts: seq<AgentArtifact>, id: Id)
    requires CaseOk(ctx) && NoDuplicates(AllIds(artifacts)) && id in AllIds(artifacts)
    ensures id in FilingIds(AllFilings(ctx, artifacts)) <==> id !in PassedOverIds(artifacts)
  {
    var front := artifacts[..|artifacts| - 1];
    WhereFiled(ctx, artifacts, id);
    if id in AllIds(front) {
      FiledUnlessPassedOver(ctx, front, id);
    } else {
      if id in FilingIds(AllFilings(ctx, front)) { FiledAmongClaims(ctx, front, id); }
      if id in PassedOverIds(front) { PassedOverAreClaims(front, id); }
    }
  }

  lemma {:induction false} FiledAmongClaims(ctx: Context, artifacts: seq<AgentArtifact>, id: Id)
    requires id in FilingIds(AllFilings(ctx, artifacts))
    ensures id in AllIds(artifacts)
  {
    if artifacts != [] {
      LastArtifact(artifacts);
      LastFilings(ctx, artifacts);
      if id in FilingIds(AllFilings(ctx, artifacts[..|artifacts| - 1])) {
        FiledAmongClaims(ctx, artifacts[..|artifacts| - 1], id);
      }
    }
  }

  lemma {:induction false} InvalidCaseRejects(ctx: Context, artifacts: seq<AgentArtifact>, id: Id)
    requires !CaseOk(ctx)
    ensures id in AllIds(artifacts) <==> id in FilingIds(AllFilings(ctx, artifacts))
    ensures forall f :: f in AllFilings(ctx, artifacts) ==> f.ruling == Rejected(CASE_VALIDATION_FAILED)
  {
    if artifacts != [] {
      InvalidCaseRejects(ctx, artifacts[..|artifacts| - 1], id);
      LastArtifact(artifacts);
      LastFilings(ctx, artifacts);
    }
  }

  /** A claim is rejected, sent to review or passed over, or it is accepted; never both. */
  lemma {:induction false} AcceptedOrOpen(ctx: Context, artifacts: seq<AgentArtifact>, id: Id)
    requires NoDuplicates(AllIds(artifacts)) && id in AllIds(artifacts)
    ensures var l := Verified(ctx, artifacts).lists;
            id in l.accepted <==> id !in l.rejected && id !in l.review && id !in PassedOverIds(artifacts)
  {
    var l := Verified(ctx, artifacts).lists;
    VerifyPartitions(ctx, artifacts);
    PartitionListByList(l);
    if CaseOk(ctx) {
      FiledUnlessPassedOver(ctx, artifacts, id);
    } else {
      InvalidCaseRejects(ctx, artifacts, id);
      FiledUnder(NO_CLAIMS, AllFilings(ctx, artifacts), id);
    }
  }

  function Members(ids: seq<Id>): set<Id> {
    set id | id in ids
  }

  lemma {:induction false} MarkedStatus(claims: map<Id, ReviewStatus>, l: Lists, id: Id)
    requires id in claims
    ensures Marked(claims, l).Keys == claims.Keys
    ensures Marked(claims, l)[id] == if id in l.review then Pending else if id in l.rejected then NeedsRework
                                     else if id in l.accepted then Audited else claims[id]
  {
  }

  lemma {:induction false} OpenAfterAudit(
      ctx: Context, artifacts: seq<AgentArtifact>, claims: map<Id, ReviewStatus>, id: Id)
    requires NoDuplicates(AllIds(artifacts)) && id in AllIds(artifacts) && id in claims && claims[id] == Pending
    ensures var l := Verified(ctx, artifacts).lists;
            id in Blocking(Marked(claims, l)) <==> id in l.review || id in l.rejected || id in PassedOverIds(artifacts)
  {
    AcceptedOrOpen(ctx, artifacts, id);
    MarkedStatus(claims, Verified(ctx, artifacts).lists, id);
  }

  /** Applying the audit leaves open exactly the rejected claims, the claims for review and the ones passed over. */
  lemma {:induction false} AuditLeavesOpen(ctx: Context, artifacts: seq<AgentArtifact>, claims: map<Id, ReviewStatus>)
    requires NoDuplicates(AllIds(artifacts)) && claims.Keys == Members(AllIds(artifacts))
    requires forall id :: id in claims ==> claims[id] == Pending
    ensures var l := Verified(ctx, artifacts).lists;
            Blocking(Marked(claims, l)) == Members(l.review) + Members(l.rejected) + PassedOverIds(artifacts)
  {
    var l := Verified(ctx, artifacts).lists;
    var left, right := Blocking(Marked(claims, l)), Members(l.review) + Members(l.rejected) + PassedOverIds(artifacts);
    forall id ensures id in left <==> id in right {
      if id in claims {
        OpenAfterAudit(ctx, artifacts, claims, id);
      } else {
        FiledHeadings(ctx, artifacts);
        if id in PassedOverIds(artifacts) { PassedOverAreClaims(artifacts, id); }
      }
    }
  }

  lemma {:induction false} FiledHeadings(ctx: Context, artifacts: seq<AgentArtifact>)
    requires NoDuplicates(AllIds(artifacts))
    ensures var l := Verified(ctx, artifacts).lists;
            forall id :: id in l.accepted || id in l.rejected || id in l.review ==> id in AllIds(artifacts)
  {
    VerifyPartitions(ctx, artifacts);
    var l := Verified(ctx, artifacts).lists;
    forall id | id in l.accepted || id in l.rejected || id in l.review ensures id in AllIds(artifacts) {
      FiledAmongClaims(ctx, artifacts, id);
    }
  }
}
