/** The component harness that produces ablation cells, the two checkers that must accept them, and the conflict
    rule both sides recompute (src/creditlens/evaluation/agent_ablation_collector.py:61-225,
    src/creditlens/evaluation/agent_ablation.py:376-400, 629-753, src/creditlens/agents/challenger.py:64-96). */
module Ablation {
  import opened Common
  import opened Contracts

  // ---------------------------------------------------------------- the conflict rule

  /** A text with the numbers, periods and units found in it. */
  datatype Text = Text(raw: string, numbers: set<string>, periods: set<string>, units: set<string>)

  datatype Reason = NoNumbers | SameNumbers | OtherPeriod | OtherUnit | NumbersDiffer

  /** assess_conflict. */
  function AssessConflict(claim: Text, counter: Text): (bool, Reason) {
    if claim.numbers == {} || counter.numbers == {} then (false, NoNumbers)
    else if claim.numbers == counter.numbers then (false, SameNumbers)
    else if claim.periods != {} && counter.periods != {} && claim.periods !! counter.periods then (false, OtherPeriod)
    else if claim.units != {} && counter.units != {} && claim.units !! counter.units then (false, OtherUnit)
    else (claim.numbers - counter.numbers != {} && counter.numbers - claim.numbers != {}, NumbersDiffer)
  }

  /** Both sides state something in this dimension and share none of it. */
  predicate Apart(a: set<string>, b: set<string>) {
    a != {} && b != {} && a !! b
  }

  lemma {:induction false} Difference(a: set<string>, b: set<string>)
    ensures a - b == {} <==> a <= b
  {
    if a - b == {} {
      forall x | x in a ensures x in b { assert x !in a - b; }
    }
  }

  /** Two texts conflict exactly if each has a number the other lacks and neither their periods nor their units are
      apart; so conflict is symmetric, and a text never conflicts with itself. */
  lemma {:induction false} ConflictIsExact(a: Text, b: Text)
    ensures AssessConflict(a, b).0 <==>
            !(a.numbers <= b.numbers) && !(b.numbers <= a.numbers) && !Apart(a.periods, b.periods)
                && !Apart(a.units, b.units)
    ensures AssessConflict(a, b).0 == AssessConflict(b, a).0 && !AssessConflict(a, a).0
  {
    Difference(a.numbers, b.numbers);
    Difference(b.numbers, a.numbers);
    assert a.periods !! b.periods <==> b.periods !! a.periods;
    assert a.units !! b.units <==> b.units !! a.units;
  }

  /** The reason given is the first that applies: a side without numbers, the same numbers, periods apart, units apart;
      where none does, the numbers are said to differ. */
  lemma {:induction false} ReasonIsExact(a: Text, b: Text)
    ensures var reason := AssessConflict(a, b).1;
            && (reason == NoNumbers <==> a.numbers == {} || b.numbers == {})
            && (reason == SameNumbers <==> a.numbers == b.numbers != {})
            && (reason in {OtherPeriod, OtherUnit, NumbersDiffer} ==> a.numbers != b.numbers)
            && (reason == OtherPeriod ==> Apart(a.periods, b.periods))
            && (reason == OtherUnit ==> Apart(a.units, b.units) && !Apart(a.periods, b.periods))
            && (reason == NumbersDiffer ==> !Apart(a.periods, b.periods) && !Apart(a.units, b.units))
  {
  }

  // ---------------------------------------------------------------- frozen inputs

  datatype EvidenceMode = DocumentSpan | PolicyRule | SqlFact | UnknownReference

  datatype Counter = Counter(targetId: string, text: Text, expectedConflict: bool)

  /** A label and the violation text it stands for. */
  datatype Label = Label(id: string, fragment: string)

  datatype Fixture = Fixture(
    asOf: Date, category: Category, statement: Text, mode: EvidenceMode, labels: seq<Label>, counters: seq<Counter>)

  datatype Scenario = Scenario(scenarioId: string, unsupported: seq<string>, counterTargets: seq<string>,
      fixture: Fixture)

  function LabelIds(labels: seq<Label>): (ids: seq<string>)
    ensures |ids| == |labels| && forall i :: 0 <= i < |labels| ==> ids[i] == labels[i].id
  {
    seq(|labels|, i requires 0 <= i < |labels| => labels[i].id)
  }

  function TargetIds(counters: seq<Counter>): (ids: seq<string>)
    ensures |ids| == |counters| && forall i :: 0 <= i < |counters| ==> ids[i] == counters[i].targetId
  {
    seq(|counters|, i requires 0 <= i < |counters| => counters[i].targetId)
  }

  /** AblationScenario.validate_label_ids; the labels are the keys of a dictionary. */
  ghost predicate ValidScenario(s: Scenario) {
    && NoDuplicates(s.unsupported) && NoDuplicates(s.counterTargets)
    && NoDuplicates(LabelIds(s.fixture.labels)) && NoDuplicates(TargetIds(s.fixture.counters))
    && (forall id :: id in LabelIds(s.fixture.labels) <==> id in s.unsupported)
    && (forall id :: id in TargetIds(s.fixture.counters) <==> id in s.counterTargets)
  }

  // ---------------------------------------------------------------- cells

  /** The artifact under test with its provenance; the input hash is the fixture it covers. */
  datatype Input = Input(runId: Id, taskId: string, inputHash: Fixture, artifact: AgentArtifact)

  datatype ContractTrace = ContractTrace(enabled: bool, executed: bool, enforced: bool, ok: Option<bool>,
      violations: seq<string>)

  datatype ConflictTrace = ConflictTrace(
    targetId: string, claimText: Text, counterText: Text, expectedConflict: bool, isConflict: bool, reason: Reason)

  datatype Terminal = Completed | HumanReview

  datatype Outcome = Outcome(emitted: seq<string>, intercepted: seq<string>, found: seq<string>, hitl: bool,
      terminal: Terminal)

  datatype Sidecar = Sidecar(
    scenarioId: string, variant: string, runId: Id, disabled: set<string>, challengerEnabled: bool,
    auditorEnabled: bool,
    input: Input, contract: ContractTrace, conflicts: seq<ConflictTrace>, outcome: Outcome)

  datatype Observation = Observation(scenarioId: string, variant: string, runId: Id, outcome: Outcome)

  /** The contract validator as the pure function both sides call. */
  type Validator = (AgentArtifact, Date) -> (bool, seq<string>)

  predicate Within(fragment: string, text: string) {
    exists i :: 0 <= i <= |text| && fragment <= text[i..]
  }

  predicate Hit(entry: Label, violations: seq<string>) {
    exists v :: v in violations && Within(entry.fragment, v)
  }

  /** The labels whose fragment shows up in a violation, in order. */
  function Hits(labels: seq<Label>, violations: seq<string>): (ids: seq<string>)
    ensures forall id :: id in ids ==> id in LabelIds(labels)
  {
    if labels == [] then []
    else
      var last := labels[|labels| - 1];
      assert LabelIds(labels) == LabelIds(labels[..|labels| - 1]) + [last.id];
      Hits(labels[..|labels| - 1], violations) + if Hit(last, violations) then [last.id] else []
  }

  predicate StandsIn(fragment: string, text: string, i: nat) {
    i + |fragment| <= |text| && text[i..i + |fragment|] == fragment
  }

  lemma {:induction false} WithinExactly(fragment: string, text: string)
    ensures Within(fragment, text) <==> exists i :: StandsIn(fragment, text, i)
  {
    if i :| 0 <= i <= |text| && fragment <= text[i..] {
      assert text[i..i + |fragment|] == text[i..][..|fragment|];
      assert StandsIn(fragment, text, i);
    }
    if i: nat :| StandsIn(fragment, text, i) {
      assert text[i..][..|fragment|] == text[i..i + |fragment|];
    }
  }

  /** The label's fragment stands somewhere in a violation. */
  predicate IsHit(entry: Label, violations: seq<string>) {
    exists v :: v in violations && exists i :: 0 <= i <= |v| && StandsIn(entry.fragment, v, i)
  }

  /** A label is intercepted exactly if its fragment stands in a violation, and labels come in their own order. */
  lemma {:induction false} HitsExactly(labels: seq<Label>, violations: seq<string>, id: string, n: nat)
    requires n <= |labels|
    ensures id in Hits(labels, violations) <==> exists l :: l in labels && l.id == id && IsHit(l, violations)
    ensures Hits(labels[..n], violations) <= Hits(labels, violations)
  {
    if labels != [] {
      var front, last := labels[..|labels| - 1], labels[|labels| - 1];
      assert labels == front + [last];
      HitsExactly(front, violations, id, if n < |labels| then n else |front|);
      forall v ensures Within(last.fragment, v) <==> exists i :: 0 <= i <= |v| && StandsIn(last.fragment, v, i) {
        WithinExactly(last.fragment, v);
      }
      if n < |labels| { assert front[..n] == labels[..n]; } else { assert labels[..n] == labels; }
    }
  }

  function EvidenceTypeOf(mode: EvidenceMode): EvidenceType
    requires mode != UnknownReference
  {
    match mode
    case DocumentSpan => DOCUMENT_SPAN
    case PolicyRule => POLICY_RULE
    case SqlFact => SQL_FACT
  }

  /** The identifiers derived from a run. */
  datatype Ids = Ids(evidence: Id, source: Id, document: Id, section: Id, parseRun: Id, fact: Id, claim: Id)

  const HARNESS := "deterministic_component_harness"

  function EvidenceFor(fixture: Fixture, ids: Ids, hash: string): seq<EvidenceRef> {
    if fixture.mode == UnknownReference then []
    else
      var document, sql := fixture.mode == DocumentSpan, fixture.mode == SqlFact;
      [EvidenceRef(ids.evidence, EvidenceTypeOf(fixture.mode), ids.source, hash,
                   if document then Some(ids.document) else None, if document then Some(ids.section) else None,
                   if document then Some(ids.parseRun) else None, if document then Some(1) else None,
                   if sql then Some(ids.fact) else None, None)]
  }

  /** _build_input_artifact. */
  function BuildInput(s: Scenario, statement: Statement, runId: Id, ids: Ids, hash: string): Input {
    var f := s.fixture;
    var claim := AgentClaim(ids.claim, f.category, statement, SUPPORTED, [ids.evidence], [], [], f.asOf, None);
    Input(runId, "ablation:" + s.scenarioId, f,
        AgentArtifact(HARNESS, SUCCESS, [claim], EvidenceFor(f, ids, hash), [], false))
  }

  function Assessed(statement: Text, c: Counter): ConflictTrace {
    var (conflict, reason) := AssessConflict(statement, c.text);
    ConflictTrace(c.targetId, statement, c.text, c.expectedConflict, conflict, reason)
  }

  function AllAssessed(statement: Text, counters: seq<Counter>): (traces: seq<ConflictTrace>)
    ensures |traces| == |counters| && forall i :: 0 <= i < |counters| ==> traces[i] == Assessed(statement, counters[i])
  {
    seq(|counters|, i requires 0 <= i < |counters| => Assessed(statement, counters[i]))
  }

  function FoundIn(traces: seq<ConflictTrace>): (ids: seq<string>)
    ensures |ids| == |traces| && forall i :: 0 <= i < |traces| ==> ids[i] == traces[i].targetId
  {
    seq(|traces|, i requires 0 <= i < |traces| => traces[i].targetId)
  }

  predicate AnyConflict(traces: seq<ConflictTrace>) {
    exists t :: t in traces && t.isConflict
  }

  const SKIPPED := ContractTrace(false, false, false, None, [])

  function ContractTraceOf(validate: Validator, artifact: AgentArtifact, asOf: Date, enabled: bool): ContractTrace {
    if enabled then
      var (ok, violations) := validate(artifact, asOf);
      ContractTrace(true, true, true, Some(ok), violations)
    else SKIPPED
  }

  /** _execute_cell. */
  function Cell(validate: Validator, s: Scenario, variant: string, disabled: set<string>, input: Input): Sidecar {
    var auditor, challenger := "auditor" !in disabled, "challenger" !in disabled;
    var contract := ContractTraceOf(validate, input.artifact, s.fixture.asOf, auditor);
    var conflicts := if challenger then AllAssessed(s.fixture.statement, s.fixture.counters) else [];
    var intercepted := if contract.executed then Hits(s.fixture.labels, contract.violations) else [];
    var hitl := auditor && (intercepted != [] || AnyConflict(conflicts));
    Sidecar(s.scenarioId, variant, input.runId, disabled, challenger, auditor, input, contract, conflicts,
            Outcome(s.unsupported, intercepted, FoundIn(conflicts), hitl, if hitl then HumanReview else Completed))
  }

  function Observed(c: Sidecar): Observation {
    Observation(c.scenarioId, c.variant, c.runId, c.outcome)
  }

  method AssessAll(statement: Text, counters: seq<Counter>) returns (traces: seq<ConflictTrace>)
    ensures traces == AllAssessed(statement, counters)
  {
    traces := [];
    for i := 0 to |counters|
      invariant traces == AllAssessed(statement, counters[..i])
    {
      traces := traces + [Assessed(statement, counters[i])];
      assert AllAssessed(statement, counters[..i + 1]) == AllAssessed(statement, counters[..i])
             + [Assessed(statement, counters[i])];
    }
    assert counters[..|counters|] == counters;
  }

  method Intercept(labels: seq<Label>, violations: seq<string>) returns (ids: seq<string>)
    ensures ids == Hits(labels, violations)
  {
    ids := [];
    for i := 0 to |labels|
      invariant ids == Hits(labels[..i], violations)
    {
      assert labels[..i + 1][..i] == labels[..i];
      if exists v :: v in violations && Within(labels[i].fragment, v) { ids := ids + [labels[i].id]; }
    }
    assert labels[..|labels|] == labels;
  }

  /** The collector's own steps. */
  method ExecuteCell(validate: Validator, s: Scenario, variant: string, disabled: set<string>, input: Input)
    returns (sidecar: Sidecar, observation: Observation)
    ensures sidecar == Cell(validate, s, variant, disabled, input) && observation == Observed(sidecar)
  {
    var auditor, challenger := "auditor" !in disabled, "challenger" !in disabled;
    var contract := SKIPPED;
    var intercepted := [];
    if auditor {
      contract := ContractTraceOf(validate, input.artifact, s.fixture.asOf, true);
      intercepted := Intercept(s.fixture.labels, contract.violations);
    }
    var conflicts := [];
    if challenger { conflicts := AssessAll(s.fixture.statement, s.fixture.counters); }
    var hitl := auditor && (intercepted != [] || AnyConflict(conflicts));
    var outcome :=
        Outcome(s.unsupported, intercepted, FoundIn(conflicts), hitl, if hitl then HumanReview else Completed);
    sidecar := Sidecar(s.scenarioId, variant, input.runId, disabled, challenger, auditor, input, contract, conflicts,
        outcome);
    observation := Observation(s.scenarioId, variant, input.runId, outcome);
  }

  // ---------------------------------------------------------------- the checkers

  /** The validators of the sidecar and of its contract trace. */
  predicate SidecarValid(c: Sidecar) {
    && c.contract.enabled == c.contract.executed == c.contract.enforced
    && (if c.contract.executed then c.contract.ok.Some? else c.contract.ok.None? && c.contract.violations == [])
    && c.input.runId == c.runId && c.contract.enabled == c.auditorEnabled
    && (!c.challengerEnabled ==> c.conflicts == [])
    && NoDuplicates(FoundIn(c.conflicts)) && FoundIn(c.conflicts) == c.outcome.found
    && (!c.auditorEnabled ==> c.outcome.intercepted == [])
    && c.outcome.hitl == (c.auditorEnabled && (c.outcome.intercepted != [] || AnyConflict(c.conflicts)))
    && c.outcome.terminal == (if c.outcome.hitl then HumanReview else Completed)
  }

  /** The validators of an observation. */
  predicate ObservationValid(o: Observation) {
    && NoDuplicates(o.outcome.emitted) && NoDuplicates(o.outcome.intercepted) && NoDuplicates(o.outcome.found)
    && forall id :: id in o.outcome.intercepted ==> id in o.outcome.emitted
  }

  predicate Correlated(c: Sidecar, o: Observation) {
    c.scenarioId == o.scenarioId && c.variant == o.variant && c.runId == o.runId && c.outcome == o.outcome
  }

  /** The frozen input really is the fixture's. */
  predicate InputMatches(c: Sidecar, s: Scenario, statement: Statement) {
    var f, a := s.fixture, c.input.artifact;
    && c.input.inputHash == f && c.input.taskId == "ablation:" + s.scenarioId && a.producer == HARNESS
    && |a.claims| == 1
    && a.claims[0].statement == statement && a.claims[0].category == f.category && a.claims[0].asOfDate == f.asOf
    && a.claims[0].verdict == SUPPORTED && |a.claims[0].supporting| == 1
    && (if f.mode == UnknownReference then a.evidence == []
        else
          && |a.evidence| == 1 && a.evidence[0].evidenceType == EvidenceTypeOf(f.mode)
          && a.claims[0].supporting == [a.evidence[0].evidenceId])
  }

  /** The conflict loop: every frozen expectation and every trace agrees with recomputation. */
  predicate ConflictsMatch(traces: seq<ConflictTrace>, statement: Text, counters: seq<Counter>) {
    && |traces| == |counters|
    && forall i :: 0 <= i < |counters| ==>
         counters[i].expectedConflict == AssessConflict(statement, counters[i].text).0
             && traces[i] == Assessed(statement, counters[i])
  }

  /** _recompute_and_verify_sidecar, for the frozen variant that disables `disabled`. */
  predicate Recomputes(validate: Validator, c: Sidecar, s: Scenario, statement: Statement, disabled: set<string>) {
    var auditor, challenger := "auditor" !in disabled, "challenger" !in disabled;
    var counters := if challenger then s.fixture.counters else [];
    && c.disabled == disabled && c.challengerEnabled == challenger && c.auditorEnabled == auditor
    && InputMatches(c, s, statement)
    && c.contract == ContractTraceOf(validate, c.input.artifact, s.fixture.asOf, auditor)
    && c.outcome.emitted == s.unsupported
    && c.outcome.intercepted == (if auditor then Hits(s.fixture.labels, c.contract.violations) else [])
    && ConflictsMatch(c.conflicts, s.fixture.statement, counters)
    && c.outcome.found == TargetIds(counters)
  }

  // ---------------------------------------------------------------- what is produced is accepted

  lemma {:induction false} HitsAreDistinct(labels: seq<Label>, violations: seq<string>)
    requires NoDuplicates(LabelIds(labels))
    ensures NoDuplicates(Hits(labels, violations))
  {
    if labels != [] {
      var front, last := labels[..|labels| - 1], labels[|labels| - 1];
      assert LabelIds(labels) == LabelIds(front) + [last.id];
      forall i, j | 0 <= i < j < |front| ensures LabelIds(front)[i] != LabelIds(front)[j] {
        assert LabelIds(labels)[i] != LabelIds(labels)[j];
      }
      HitsAreDistinct(front, violations);
      assert last.id !in LabelIds(front);
    }
  }

  /** Every produced cell passes the validators of sidecar and observation, and correlates. */
  lemma {:induction false} CellIsValid(
      validate: Validator, s: Scenario, variant: string, disabled: set<string>, input: Input)
    requires ValidScenario(s)
    ensures var c := Cell(validate, s, variant, disabled, input);
            SidecarValid(c) && ObservationValid(Observed(c)) && Correlated(c, Observed(c))
  {
    var c := Cell(validate, s, variant, disabled, input);
    HitsAreDistinct(s.fixture.labels, c.contract.violations);
    if c.challengerEnabled { assert FoundIn(c.conflicts) == TargetIds(s.fixture.counters); }
  }

  /** Every frozen expectation about a conflict is what the conflict rule says. */
  predicate ExpectationsHold(f: Fixture) {
    forall i :: 0 <= i < |f.counters|
        ==> f.counters[i].expectedConflict == AssessConflict(f.statement, f.counters[i].text).0
  }

  /** A produced cell recomputes exactly if the challenger is disabled or every frozen expectation about a conflict
      is what the conflict rule says. */
  lemma {:induction false} CellRecomputes(
      validate: Validator, s: Scenario, statement: Statement, variant: string, disabled: set<string>, runId: Id,
      ids: Ids, hash: string)
    requires ValidScenario(s)
    ensures Recomputes(validate, Cell(validate, s, variant, disabled, BuildInput(s, statement, runId, ids, hash)), s,
            statement, disabled)
       <==> ("challenger" in disabled || ExpectationsHold(s.fixture))
  {
    var c := Cell(validate, s, variant, disabled, BuildInput(s, statement, runId, ids, hash));
    if c.challengerEnabled {
      assert FoundIn(c.conflicts) == TargetIds(s.fixture.counters);
    } else {
      assert FoundIn(c.conflicts) == TargetIds([]);
    }
  }
}
