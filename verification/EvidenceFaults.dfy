/** Every fault of an evidence object is named by its own code: a single change to evidence that passes is recorded as
    just what it is (src/creditlens/agents/auditor.py:194-475). */
module EvidenceFaults {
  import opened Common
  import opened Contracts
  import opened EvidenceAuditor

  // ---------------------------------------------------------------- facts

  function WithFact(ctx: Context, id: Id, fact: FactRow): Context {
    ctx.(db := ctx.db.(facts := ctx.db.facts[id := fact]))
  }

  /** What is recorded against a fact when one column of its row is changed. */
  lemma {:induction false} FactRowFaults(ctx: Context, e: EvidenceRef, fact: FactRow, other: Id, later: Instant)
    requires FactPasses(ctx, e) && fact == ctx.db.facts[e.factId.value] && later > ctx.trusted.cutoff
    ensures other != fact.tenantId ==>
              FactCodes(WithFact(ctx, e.factId.value, fact.(tenantId := other)), e) == {ACL_DENIED}
    ensures other != ctx.trusted.caseId ==>
              FactCodes(WithFact(ctx, e.factId.value, fact.(caseId := Some(other))), e) == {FACT_CASE_MISMATCH}
    ensures FactCodes(WithFact(ctx, e.factId.value, fact.(caseId := None)), e) == {}
    ensures other != fact.entityId ==>
              FactCodes(WithFact(ctx, e.factId.value, fact.(entityId := other)), e) == {FACT_ENTITY_MISMATCH}
    ensures FactCodes(WithFact(ctx, e.factId.value, fact.(availableAt := later)), e) == {FACT_NOT_AVAILABLE_AT_CUTOFF}
    ensures FactCodes(WithFact(ctx, e.factId.value, fact.(verification := REJECTED)), e) == {FACT_REJECTED}
  {
    OnlyTheRow(ctx, e, fact.(tenantId := other));
    OnlyTheRow(ctx, e, fact.(caseId := Some(other)));
    OnlyTheRow(ctx, e, fact.(caseId := None));
    OnlyTheRow(ctx, e, fact.(entityId := other));
    OnlyTheRow(ctx, e, fact.(availableAt := later));
    OnlyTheRow(ctx, e, fact.(verification := REJECTED));
  }

  /** Whatever row stands in the place of a fact that passes, only its columns can be at fault. */
  lemma {:induction false} OnlyTheRow(ctx: Context, e: EvidenceRef, row: FactRow)
    requires FactPasses(ctx, e)
    ensures FactCodes(WithFact(ctx, e.factId.value, row), e) == FactRowCodes(ctx, row)
  {
  }

  /** What is recorded against a fact that is not there, not frozen, or not named. */
  lemma {:induction false} FactReferenceFaults(ctx: Context, e: EvidenceRef, frozen: Snapshot, other: Id)
    requires FactPasses(ctx, e) && e.factId.value !in frozen.factIds && other != e.factId.value
    ensures FactCodes(ctx.(db := ctx.db.(facts := map id | id in ctx.db.facts && id != e.factId.value
              :: ctx.db.facts[id])), e) == {FACT_NOT_FOUND}
    ensures FactCodes(ctx.(snapshot := None), e) == {SNAPSHOT_REQUIRED}
    ensures FactCodes(ctx.(snapshot := Some(frozen)), e) == {FACT_NOT_IN_SNAPSHOT}
    ensures FactCodes(ctx, e.(factId := None)) == {MISSING_FACT_ID}
    ensures FactCodes(ctx, e.(sourceId := other)) == {FACT_SOURCE_MISMATCH}
  {
  }

  // ---------------------------------------------------------------- sections

  function WithSection(ctx: Context, id: Id, section: SectionRow): Context {
    ctx.(db := ctx.db.(sections := ctx.db.sections[id := section]))
  }

  /** What is recorded against a citation when one column of the cited section is changed. */
  lemma {:induction false} SectionFaults(
      ctx: Context, e: EvidenceRef, section: SectionRow, other: Id, text: string, page: int)
    requires LocatorComplete(e) && e.sectionId.value in ctx.db.sections && SectionAgrees(ctx, e)
    requires section == ctx.db.sections[e.sectionId.value]
    ensures text != section.textHash ==>
              SectionCodes(WithSection(ctx, e.sectionId.value, section.(textHash := text)), e)
                  == {CONTENT_HASH_MISMATCH}
    ensures other != section.tenantId ==>
              SectionCodes(WithSection(ctx, e.sectionId.value, section.(tenantId := other)), e) == {ACL_DENIED}
    ensures other != section.documentVersionId ==>
              SectionCodes(WithSection(ctx, e.sectionId.value, section.(documentVersionId := other)), e)
              == {DOCUMENT_VERSION_MISMATCH}
    ensures other != section.parseRunId ==>
              SectionCodes(WithSection(ctx, e.sectionId.value, section.(parseRunId := other)), e)
                  == {PARSE_RUN_MISMATCH}
    ensures other != e.sectionId.value ==> SectionCodes(ctx, e.(sourceId := other)) == {SOURCE_SECTION_MISMATCH}
    ensures page < section.pageStart || page > section.pageEnd ==>
              SectionCodes(ctx, e.(pageNumber := Some(page))) == {PAGE_OUTSIDE_SECTION}
  {
  }

  // ---------------------------------------------------------------- versions

  function WithVersion(ctx: Context, id: Id, version: VersionRow): Context {
    ctx.(db := ctx.db.(versions := ctx.db.versions[id := version]))
  }

  /** What is recorded against a citation when one column of the cited version is changed, its binding to the case is
      removed, or the version is not there. */
  lemma {:induction false} VersionFaults(
      ctx: Context, e: EvidenceRef, version: VersionRow, other: Id, day: Date, later: Instant)
    requires LocatorComplete(e) && VersionAgrees(ctx, e) && version == ctx.db.versions[e.documentVersionId.value]
    requires later > ctx.trusted.cutoff
    ensures var id := e.documentVersionId.value;
            && (other != version.tenantId ==>
                  VersionCodes(WithVersion(ctx, id, version.(tenantId := other)), e) == {ACL_DENIED})
            && (day > ctx.trusted.asOfDate ==>
                  VersionCodes(WithVersion(ctx, id, version.(validFrom := Some(day))), e) == {OUT_OF_EFFECTIVE_DATE})
            && (day <= ctx.trusted.asOfDate ==>
                  VersionCodes(WithVersion(ctx, id, version.(validTo := Some(day))), e) == {OUT_OF_EFFECTIVE_DATE})
            && VersionCodes(WithVersion(ctx, id, version.(availableAt := Some(later))), e) == {NOT_AVAILABLE_AT_CUTOFF}
    ensures VersionCodes(ctx.(db := ctx.db.(caseDocuments :=
              ctx.db.caseDocuments - {(ctx.trusted.caseId, e.documentVersionId.value)})), e)
            == {DOCUMENT_NOT_BOUND_TO_CASE}
    ensures other !in ctx.db.versions ==>
              VersionCodes(ctx, e.(documentVersionId := Some(other))) == {DOCUMENT_VERSION_NOT_FOUND}
  {
  }

  // ---------------------------------------------------------------- parse runs

  function WithRun(ctx: Context, id: Id, run: ParseRunRow): Context {
    ctx.(db := ctx.db.(parseRuns := ctx.db.parseRuns[id := run]))
  }

  /** What is recorded against a citation when one column of the cited parse run is changed, the run is not frozen or
      nothing is. */
  lemma {:induction false} ParseRunFaults(ctx: Context, e: EvidenceRef, run: ParseRunRow, other: Id, frozen: Snapshot)
    requires LocatorComplete(e) && ParseRunAgrees(ctx, e) && run == ctx.db.parseRuns[e.parseRunId.value]
    requires e.parseRunId.value !in frozen.parseRunIds
    ensures var id := e.parseRunId.value;
            && (other != run.tenantId ==>
                  ParseRunCodes(WithRun(ctx, id, run.(tenantId := other)), e) == {ACL_DENIED})
            && (other != run.documentVersionId ==>
                  ParseRunCodes(WithRun(ctx, id, run.(documentVersionId := other)), e) == {PARSE_RUN_VERSION_MISMATCH})
            && ParseRunCodes(WithRun(ctx, id, run.(revoked := true)), e) == {PARSE_RUN_REVOKED}
    ensures ParseRunCodes(ctx.(snapshot := Some(frozen)), e) == {PARSE_RUN_NOT_IN_SNAPSHOT}
    ensures ParseRunCodes(ctx.(snapshot := None), e) == {SNAPSHOT_REQUIRED}
    ensures other !in ctx.db.parseRuns && other in ctx.snapshot.value.parseRunIds ==>
              ParseRunCodes(ctx, e.(parseRunId := Some(other))) == {PARSE_RUN_NOT_FOUND}
  {
  }

  // ---------------------------------------------------------------- locators

  /** What is recorded against a citation that lacks one part of its locator. */
  lemma {:induction false} LocatorFaults(ctx: Context, e: EvidenceRef)
    requires DocumentPasses(ctx, e)
    ensures DocumentCodes(ctx, e.(sectionId := None)) == {MISSING_DOCUMENT_LOCATOR(SECTION_ID)}
    ensures DocumentCodes(ctx, e.(documentVersionId := None)) == {MISSING_DOCUMENT_LOCATOR(DOCUMENT_VERSION_ID)}
    ensures DocumentCodes(ctx, e.(parseRunId := None)) == {MISSING_DOCUMENT_LOCATOR(PARSE_RUN_ID)}
    ensures DocumentCodes(ctx, e.(pageNumber := None)) == {MISSING_DOCUMENT_LOCATOR(PAGE_NUMBER)}
    ensures DocumentCodes(ctx, e.(contentHash := "")) == {MISSING_DOCUMENT_LOCATOR(CONTENT_HASH)}
  {
  }

  // ---------------------------------------------------------------- calculations

  /** What is recorded against a calculation that is not named, not there, or differs from what was cited. */
  lemma {:induction false} CalculationFaults(
      calculations: seq<Calculation>, e: EvidenceRef, other: Id, text: string, c: Calculation)
    requires CalculationPasses(calculations, e) && other != e.calculationId.value
    requires c == CalculationById(calculations, e.calculationId.value).value
    ensures CalculationCodes(calculations, e.(calculationId := None)) == {MISSING_CALCULATION_ID}
    ensures CalculationCodes(calculations, e.(sourceId := other)) == {CALCULATION_SOURCE_MISMATCH}
    ensures CalculationCodes([], e) == {CALCULATION_NOT_FOUND}
    ensures text != e.contentHash
            ==> CalculationCodes(calculations, e.(contentHash := text)) == {CALCULATION_CONTENT_HASH_MISMATCH}
    ensures CalculationCodes([c.(replays := false)], e) == {CALCULATION_REPLAY_FAILED}
  {
    assert [c.(replays := false)][0].calculationId == e.calculationId.value by {
      FoundById(calculations, e.calculationId.value);
    }
    FoundById(calculations, e.calculationId.value);
    assert c.(replays := false) in [c.(replays := false)];
  }

  lemma {:induction false} FoundById(calculations: seq<Calculation>, id: Id)
    ensures CalculationById(calculations, id).Some? ==> CalculationById(calculations, id).value.calculationId == id
  {
    if calculations != [] { FoundById(calculations[..|calculations| - 1], id); }
  }
}
