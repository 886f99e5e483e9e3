/** Freezing the input world of a run (src/creditlens/application/snapshot_service.py:48-159). */
module CaseSnapshot {
  import opened Common
  import opened Contracts
  import opened EvidenceAuditor

  datatype Frozen = Frozen(snapshot: Snapshot) | CaseNotReady

  function Superseded(db: Tables): set<Id> {
    set id | id in db.facts && db.facts[id].supersedes.Some? :: db.facts[id].supersedes.value
  }

  /** The facts the freeze query selects. */
  function AdmittedFacts(db: Tables, trusted: Trusted): set<Id>
    requires trusted.caseId in db.cases
  {
    var c := db.cases[trusted.caseId];
    set id | id in db.facts
             && db.facts[id].tenantId == c.tenantId
             && db.facts[id].entityId == c.borrowerEntityId
             && (db.facts[id].caseId == Some(trusted.caseId) || db.facts[id].caseId.None?)
             && db.facts[id].availableAt <= trusted.cutoff
             && db.facts[id].verification != REJECTED
             && id !in Superseded(db)
  }

  /** The parse runs of the bound versions that have an active one, in row order. */
  function ActiveRuns(db: Tables, bound: seq<Id>): seq<Id>
    requires forall v :: v in bound ==> v in db.versions
  {
    if bound == [] then []
    else
      var last := db.versions[bound[|bound| - 1]].activeParseRunId;
      ActiveRuns(db, bound[..|bound| - 1]) + (if last.Some? then [last.value] else [])
  }

  /** The run is the active parse run of a version bound to the case. */
  predicate IsActiveRun(db: Tables, caseId: Id, run: Id) {
    exists v :: v in db.versions && (caseId, v) in db.caseDocuments && db.versions[v].activeParseRunId == Some(run)
  }

  lemma {:induction false} ActiveRunsExactly(db: Tables, bound: seq<Id>, run: Id)
    requires forall v :: v in bound ==> v in db.versions
    ensures run in ActiveRuns(db, bound) <==> exists v :: v in bound && db.versions[v].activeParseRunId == Some(run)
  {
    if bound != [] {
      var front, last := bound[..|bound| - 1], bound[|bound| - 1];
      assert bound == front + [last];
      ActiveRunsExactly(db, front, run);
    }
  }

  /** freeze_snapshot; `bound` are the case's document versions and `factRows` the selected facts,
      each in the order the database returns them. */
  method FreezeSnapshot(db: Tables, trusted: Trusted, bound: seq<Id>, factRows: seq<Id>) returns (r: Frozen)
    requires forall v :: v in bound <==> v in db.versions && (trusted.caseId, v) in db.caseDocuments
    requires trusted.caseId in db.cases ==> forall id :: id in factRows <==> id in AdmittedFacts(db, trusted)
    ensures r.CaseNotReady? <==> trusted.caseId !in db.cases || ActiveRuns(db, bound) == []
    ensures r.CaseNotReady? <==> trusted.caseId !in db.cases || !exists run :: IsActiveRun(db, trusted.caseId, run)
    ensures r.Frozen? ==> r.snapshot == Snapshot(ActiveRuns(db, bound), factRows)
    ensures r.Frozen? ==> forall run :: run in r.snapshot.parseRunIds <==> IsActiveRun(db, trusted.caseId, run)
  {
    if trusted.caseId !in db.cases { return CaseNotReady; }
    var members: seq<Id> := [];
    for i := 0 to |bound|
      invariant members == ActiveRuns(db, bound[..i])
    {
      assert bound[..i + 1][..i] == bound[..i];
      var version := db.versions[bound[i]];
      if version.activeParseRunId.None? { continue; }
      members := members + [version.activeParseRunId.value];
    }
    assert bound[..|bound|] == bound;
    if members == [] {
      forall run ensures !IsActiveRun(db, trusted.caseId, run) { ActiveRunsExactly(db, bound, run); }
      return CaseNotReady;
    }
    assert members[0] in members;
    forall run ensures run in members <==> IsActiveRun(db, trusted.caseId, run) { ActiveRunsExactly(db, bound, run); }
    r := Frozen(Snapshot(members, factRows));
  }

  /** What is frozen is exactly what the auditor's row checks let through, minus restated facts. */
  lemma {:induction false} FrozenFactsAreTheAuditableOnes(ctx: Context, id: Id)
    requires ctx.trusted.caseId in ctx.db.cases
    requires ctx.db.cases[ctx.trusted.caseId].tenantId == ctx.trusted.tenantId
    ensures id in AdmittedFacts(ctx.db, ctx.trusted)
       <==> && id in ctx.db.facts && FactRowPasses(ctx, ctx.db.facts[id])
            && !exists f :: f in ctx.db.facts && ctx.db.facts[f].supersedes == Some(id)
  {
  }

  /** Every fact admitted at freeze time still passes the auditor's full SQL_FACT check later, whatever
      else happened to the database, while its own row and the case row are unchanged. */
  lemma {:induction false} FrozenFactPassesAudit(
      frozenIn: Tables, ctx: Context, calculations: seq<Calculation>, e: EvidenceRef)
    requires ctx.trusted.caseId in frozenIn.cases && ctx.trusted.caseId in ctx.db.cases
    requires ctx.db.cases[ctx.trusted.caseId] == frozenIn.cases[ctx.trusted.caseId]
    requires ctx.db.cases[ctx.trusted.caseId].tenantId == ctx.trusted.tenantId
    requires e.evidenceType == SQL_FACT && e.factId.Some? && e.sourceId == e.factId.value
    requires e.factId.value in AdmittedFacts(frozenIn, ctx.trusted)
    requires e.factId.value in ctx.db.facts && ctx.db.facts[e.factId.value] == frozenIn.facts[e.factId.value]
    requires ctx.snapshot.Some? && e.factId.value in ctx.snapshot.value.factIds
    ensures EvidenceCodes(ctx, calculations, e) == {}
  {
    FrozenFactsAreTheAuditableOnes(ctx.(db := frozenIn), e.factId.value);
    assert FactRowPasses(ctx, ctx.db.facts[e.factId.value]);
  }
}
