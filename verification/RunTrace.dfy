/** The trace summary of a run and its two consumers (apps/api/main.py:440-546, 1189-1330,
    src/creditlens/demo_acceptance.py:470-543, apps/demo/presenter.py:204-227). */
module RunTrace {
  import opened Common

  // ---------------------------------------------------------------- rows

  /** Who a row belongs to. */
  datatype Scope = Scope(tenantId: Id, caseId: Id, runId: Id)

  /** An invocation record; `intact` says that its payload parses, projects and hashes to what its columns say. */
  datatype Invocation = Invocation(id: Id, scope: Scope, intact: bool)

  datatype Delivery = Pending | Processing | Delivered | Dead | Unknown(text: string)

  datatype OutboxRow = OutboxRow(invocationId: Id, scope: Scope, topic: string, status: Delivery)

  const TOPIC := "INVOCATION_TERMINATED"

  /** The heading an invocation is counted under. */
  datatype Heading = PendingCount | ProcessingCount | DeliveredCount | DeadCount | MissingCount | InvalidCount

  const HEADINGS: set<Heading> := {PendingCount, ProcessingCount, DeliveredCount, DeadCount, MissingCount, InvalidCount}

  // ---------------------------------------------------------------- one invocation

  /** delivery_by_invocation.get(id): the last row of an invocation. */
  function RowOf(rows: seq<OutboxRow>, id: Id): (r: Option<OutboxRow>)
    ensures r.Some? ==> r.value in rows && r.value.invocationId == id
    ensures r.None? <==> forall row :: row in rows ==> row.invocationId != id
  {
    if rows == [] then None
    else if rows[|rows| - 1].invocationId == id then Some(rows[|rows| - 1])
    else
      assert rows == rows[..|rows| - 1] + [rows[|rows| - 1]];
      RowOf(rows[..|rows| - 1], id)
  }

  /** _validate_persisted_invocation. */
  predicate Valid(record: Invocation, row: Option<OutboxRow>, run: Scope) {
    && record.intact && record.scope == run
    && (row.Some? ==>
          && row.value.scope == record.scope && row.value.invocationId == record.id && row.value.topic == TOPIC
          && !row.value.status.Unknown?)
  }

  function HeadingOf(record: Invocation, rows: seq<OutboxRow>, run: Scope): Heading {
    var row := RowOf(rows, record.id);
    if !Valid(record, row, run) then InvalidCount
    else if row.None? then MissingCount
    else match row.value.status
      case Pending => PendingCount
      case Processing => ProcessingCount
      case Delivered => DeliveredCount
      case Dead => DeadCount
      case Unknown(_) => InvalidCount
  }

  /** The row that counts for an invocation: the last of its rows. */
  predicate Decides(rows: seq<OutboxRow>, id: Id, k: nat) {
    && k < |rows| && rows[k].invocationId == id
    && forall j :: k < j < |rows| ==> rows[j].invocationId != id
  }

  lemma {:induction false} LastRowDecides(rows: seq<OutboxRow>, id: Id, k: nat)
    requires Decides(rows, id, k)
    ensures RowOf(rows, id) == Some(rows[k])
  {
    if k < |rows| - 1 { LastRowDecides(rows[..|rows| - 1], id, k); }
  }

  /** An invocation may be trusted: it is intact and belongs to the run. */
  predicate Sound(record: Invocation, run: Scope) {
    record.intact && record.scope == run
  }

  /** A row may be trusted: it belongs to the run, and its topic and status are known. */
  predicate SoundRow(row: OutboxRow, run: Scope) {
    && row.scope == run && row.topic == "INVOCATION_TERMINATED"
    && (row.status == Pending || row.status == Processing || row.status == Delivered || row.status == Dead)
  }

  /** An invocation without rows is missing, one whose last row and record may be trusted goes by the status of that
      row, and any other is invalid. */
  lemma {:induction false} HeadingIsExact(record: Invocation, rows: seq<OutboxRow>, run: Scope)
    ensures (forall j :: 0 <= j < |rows| ==> rows[j].invocationId != record.id) ==>
              HeadingOf(record, rows, run) == if Sound(record, run) then MissingCount else InvalidCount
    ensures forall k: nat :: Decides(rows, record.id, k) ==>
              var h := HeadingOf(record, rows, run);
              && (h == InvalidCount <==> !(Sound(record, run) && SoundRow(rows[k], run)))
              && (h != InvalidCount ==>
                   && h != MissingCount
                   && (h == PendingCount <==> rows[k].status == Pending)
                   && (h == ProcessingCount <==> rows[k].status == Processing)
                   && (h == DeliveredCount <==> rows[k].status == Delivered)
                   && (h == DeadCount <==> rows[k].status == Dead))
  {
    forall k: nat | Decides(rows, record.id, k) ensures RowOf(rows, record.id) == Some(rows[k]) {
      LastRowDecides(rows, record.id, k);
    }
  }

  /** An invocation in the response: whether it is valid, and its delivery status. */
  datatype View = View(id: Id, valid: bool, delivery: Heading)

  /** _trace_invocation_response: an invalid record is never echoed. */
  function ViewOf(record: Invocation, rows: seq<OutboxRow>, run: Scope): View {
    View(record.id, Valid(record, RowOf(rows, record.id), run), HeadingOf(record, rows, run))
  }

  function Views(invocations: seq<Invocation>, rows: seq<OutboxRow>, run: Scope): (views: seq<View>)
    ensures |views| == |invocations|
  {
    seq(|invocations|, i requires 0 <= i < |invocations| => ViewOf(invocations[i], rows, run))
  }

  // ---------------------------------------------------------------- counting

  function Count(invocations: seq<Invocation>, rows: seq<OutboxRow>, run: Scope, h: Heading): nat {
    if invocations == [] then 0
    else
      var last := invocations[|invocations| - 1];
      Count(invocations[..|invocations| - 1], rows, run, h) + if HeadingOf(last, rows, run) == h then 1 else 0
  }

  function Orphans(rows: seq<OutboxRow>, ids: set<Id>): nat {
    if rows == [] then 0
    else Orphans(rows[..|rows| - 1], ids) + if rows[|rows| - 1].invocationId !in ids then 1 else 0
  }

  function Ids(invocations: seq<Invocation>): set<Id> {
    set i | i in invocations :: i.id
  }

  /** The counting loop of get_run_trace. */
  method CountDeliveries(invocations: seq<Invocation>, rows: seq<OutboxRow>, run: Scope)
    returns (counts: map<Heading, nat>)
    ensures counts.Keys == HEADINGS
    ensures forall h :: h in HEADINGS ==> counts[h] == Count(invocations, rows, run, h)
  {
    counts := map[PendingCount := 0, ProcessingCount := 0, DeliveredCount := 0, DeadCount := 0, MissingCount := 0,
        InvalidCount := 0];
    for i := 0 to |invocations|
      invariant counts.Keys == HEADINGS
      invariant forall h :: h in HEADINGS ==> counts[h] == Count(invocations[..i], rows, run, h)
    {
      assert invocations[..i + 1][..i] == invocations[..i];
      var h := HeadingOf(invocations[i], rows, run);
      counts := counts[h := counts[h] + 1];
    }
    assert invocations[..|invocations|] == invocations;
  }

  method CountOrphans(invocations: seq<Invocation>, rows: seq<OutboxRow>) returns (n: nat)
    ensures n == Orphans(rows, Ids(invocations))
  {
    var ids := Ids(invocations);
    n := 0;
    for i := 0 to |rows|
      invariant n == Orphans(rows[..i], ids)
    {
      assert rows[..i + 1][..i] == rows[..i];
      if rows[i].invocationId !in ids { n := n + 1; }
    }
    assert rows[..|rows|] == rows;
  }

  /** The counts add up to the number of invocations. */
  lemma {:induction false} CountsAddUp(invocations: seq<Invocation>, rows: seq<OutboxRow>, run: Scope)
    ensures Count(invocations, rows, run, PendingCount) + Count(invocations, rows, run, ProcessingCount)
          + Count(invocations, rows, run, DeliveredCount) + Count(invocations, rows, run, DeadCount)
          + Count(invocations, rows, run, MissingCount) + Count(invocations, rows, run, InvalidCount) == |invocations|
  {
    if invocations != [] { CountsAddUp(invocations[..|invocations| - 1], rows, run); }
  }

  lemma {:induction false} CountsSome(invocations: seq<Invocation>, rows: seq<OutboxRow>, run: Scope, h: Heading)
    ensures Count(invocations, rows, run, h) > 0 <==> exists i :: i in invocations && HeadingOf(i, rows, run) == h
  {
    if invocations != [] {
      CountsSome(invocations[..|invocations| - 1], rows, run, h);
      assert invocations == invocations[..|invocations| - 1] + [invocations[|invocations| - 1]];
    }
  }

  lemma {:induction false} OrphansSome(rows: seq<OutboxRow>, ids: set<Id>)
    ensures Orphans(rows, ids) > 0 <==> exists row :: row in rows && row.invocationId !in ids
  {
    if rows != [] {
      OrphansSome(rows[..|rows| - 1], ids);
      assert rows == rows[..|rows| - 1] + [rows[|rows| - 1]];
    }
  }

  // ---------------------------------------------------------------- the summary

  datatype SummaryStatus = VALID | COMPLETE | PENDING | DEGRADED | EMPTY | LEGACY_UNAVAILABLE

  datatype Counts = Counts(pending: nat, processing: nat, delivered: nat, dead: nat, missing: nat, invalid: nat)
  {
    function Sum(): nat { pending + processing + delivered + dead + missing + invalid }
  }

  datatype Trace = Trace(
    events: nat, invocations: seq<View>, integrityStatus: SummaryStatus, integrityValid: Option<bool>,
    invalidCount: nat,
    contractKnown: bool, deliveryStatus: SummaryStatus, complete: Option<bool>, total: nat, counts: Counts)

  function CountsOf(invocations: seq<Invocation>, rows: seq<OutboxRow>, run: Scope): Counts {
    Counts(Count(invocations, rows, run, PendingCount), Count(invocations, rows, run, ProcessingCount),
           Count(invocations, rows, run, DeliveredCount), Count(invocations, rows, run, DeadCount),
           Count(invocations, rows, run, MissingCount), Count(invocations, rows, run, InvalidCount))
  }

  function DeliveryOf(any: bool, isV2: bool, invalidCount: nat, c: Counts): (SummaryStatus, Option<bool>) {
    if invalidCount > 0 then (DEGRADED, Some(false))
    else if !any && !isV2 then (LEGACY_UNAVAILABLE, None)
    else if !any then (EMPTY, Some(false))
    else if c.dead > 0 || c.missing > 0 then (DEGRADED, Some(false))
    else if c.pending > 0 || c.processing > 0 then (PENDING, Some(false))
    else (COMPLETE, Some(true))
  }

  function IntegrityOf(any: bool, anyRows: bool, isV2: bool, invalidCount: nat): (SummaryStatus, Option<bool>) {
    if !any && !anyRows && !isV2 then (LEGACY_UNAVAILABLE, None)
    else if invalidCount > 0 then (DEGRADED, Some(false))
    else if !any then (EMPTY, Some(false))
    else (VALID, Some(true))
  }

  /** The payload, from the views, the counts and the number of invalid entries. */
  function Payload(events: nat, views: seq<View>, counts: Counts, invalid: nat, anyRows: bool, isV2: bool): Trace {
    var (delivery, complete) := DeliveryOf(views != [], isV2, invalid, counts);
    var (integrity, valid) := IntegrityOf(views != [], anyRows, isV2, invalid);
    Trace(events, views, integrity, valid, invalid, isV2 || views != [] || anyRows, delivery, complete, |views|, counts)
  }

  /** Invalid invocations, and outbox rows of nobody. */
  function InvalidEntries(invocations: seq<Invocation>, rows: seq<OutboxRow>, run: Scope): nat {
    Count(invocations, rows, run, InvalidCount) + Orphans(rows, Ids(invocations))
  }

  /** get_run_trace: None where there is nothing to show. */
  function GetRunTrace(
      events: nat, invocations: seq<Invocation>, rows: seq<OutboxRow>, run: Scope, isV2: bool): Option<Trace> {
    if events == 0 && invocations == [] && rows == [] then None
    else
      Some(Payload(events, Views(invocations, rows, run), CountsOf(invocations, rows, run),
          InvalidEntries(invocations, rows, run), rows != [], isV2))
  }

  method BuildTrace(events: nat, invocations: seq<Invocation>, rows: seq<OutboxRow>, run: Scope, isV2: bool)
    returns (trace: Option<Trace>)
    ensures trace == GetRunTrace(events, invocations, rows, run, isV2)
  {
    if events == 0 && invocations == [] && rows == [] { return None; }
    var c := CountDeliveries(invocations, rows, run);
    var orphans := CountOrphans(invocations, rows);
    var counts := Counts(
      c[PendingCount], c[ProcessingCount], c[DeliveredCount], c[DeadCount], c[MissingCount], c[InvalidCount]);
    var invalid := counts.invalid + orphans;
    var (delivery, complete) := DeliveryOf(invocations != [], isV2, invalid, counts);
    var (integrity, valid) := IntegrityOf(invocations != [], rows != [], isV2, invalid);
    trace := Some(Trace(events, Views(invocations, rows, run), integrity, valid, invalid,
        isV2 || invocations != [] || rows != [],
                        delivery, complete, |invocations|, counts));
  }

  // ---------------------------------------------------------------- the consumers

  datatype Complaint =
    | TRACE_INTEGRITY_NOT_ACCEPTABLE | TRACE_INVALID_INVOCATIONS | TRACE_DELIVERY_NOT_ACCEPTABLE
    | TRACE_DELIVERY_COUNTS_INVALID
    | TRACE_EMPTY_STATE_INVALID | TRACE_COMPLETE_STATE_INVALID | TRACE_INVOCATION_INTEGRITY_INVALID
    | TRACE_INVOCATION_DELIVERY_INVALID
    | TRACE_DELIVERY_GAP | TRACE_EVENTS_EMPTY

  predicate EmptyState(t: Trace) {
    && t.integrityStatus == EMPTY && t.deliveryStatus == EMPTY && t.integrityValid == Some(false)
    && t.complete == Some(false)
    && t.invocations == [] && t.counts.Sum() == 0
  }

  predicate CompleteState(t: Trace) {
    && t.integrityStatus == VALID && t.deliveryStatus == COMPLETE && t.integrityValid == Some(true)
    && t.complete == Some(true)
    && t.invocations != [] && t.counts.delivered == |t.invocations|
    && t.counts.pending == t.counts.processing == t.counts.dead == t.counts.missing == t.counts.invalid == 0
  }

  /** The invocation loop of _validate_trace: the first one that is wrong. */
  function FirstBadView(views: seq<View>): Option<Complaint> {
    if views == [] then None
    else if !views[0].valid then Some(TRACE_INVOCATION_INTEGRITY_INVALID)
    else if views[0].delivery != DeliveredCount then Some(TRACE_INVOCATION_DELIVERY_INVALID)
    else FirstBadView(views[1..])
  }

  /** _validate_trace of the demo acceptance: the first failure, if any. */
  function ValidateTrace(t: Trace, allowEmpty: bool): Option<Complaint> {
    if t.integrityStatus != VALID && !(allowEmpty && t.integrityStatus == EMPTY)
    then Some(TRACE_INTEGRITY_NOT_ACCEPTABLE)
    else if t.invalidCount != 0 then Some(TRACE_INVALID_INVOCATIONS)
    else if t.deliveryStatus != COMPLETE && !(allowEmpty && t.deliveryStatus == EMPTY)
    then Some(TRACE_DELIVERY_NOT_ACCEPTABLE)
    else if t.total != |t.invocations| || t.counts.Sum() != t.total then Some(TRACE_DELIVERY_COUNTS_INVALID)
    else if t.integrityStatus == EMPTY || t.deliveryStatus == EMPTY then
      if !allowEmpty || !EmptyState(t) then Some(TRACE_EMPTY_STATE_INVALID)
      else AfterState(t)
    else if !CompleteState(t) then Some(TRACE_COMPLETE_STATE_INVALID)
    else AfterState(t)
  }

  function AfterState(t: Trace): Option<Complaint> {
    if FirstBadView(t.invocations).Some? then FirstBadView(t.invocations)
    else if t.counts.invalid > 0 || t.counts.missing > 0 then Some(TRACE_DELIVERY_GAP)
    else if t.events == 0 then Some(TRACE_EVENTS_EMPTY)
    else None
  }

  datatype Shown = ShownLegacy | ShownInvalid | ShownEmpty | ShownMissing | ShownDegraded | ShownPending | ShownComplete

  /** _derive_trace_state of the presenter. */
  function DeriveTraceState(t: Trace): Shown {
    if t.deliveryStatus == LEGACY_UNAVAILABLE || !t.contractKnown then ShownLegacy
    else if t.invalidCount > 0 || t.counts.invalid > 0 then ShownInvalid
    else if t.deliveryStatus == EMPTY then ShownEmpty
    else if t.counts.missing > 0 then ShownMissing
    else if t.deliveryStatus == DEGRADED || t.counts.dead > 0 then ShownDegraded
    else if t.deliveryStatus == PENDING || t.counts.pending > 0 || t.counts.processing > 0 then ShownPending
    else if t.deliveryStatus == COMPLETE then ShownComplete
    else ShownDegraded
  }

  // ---------------------------------------------------------------- agreement

  /** Everything was delivered: something was invoked, all of it is valid and delivered, nothing else is in the
      outbox. */
  predicate AllDelivered(invocations: seq<Invocation>, rows: seq<OutboxRow>, run: Scope) {
    && invocations != []
    && (forall i :: i in invocations ==>
          Valid(i, RowOf(rows, i.id), run) && RowOf(rows, i.id).Some? && RowOf(rows, i.id).value.status == Delivered)
    && (forall row :: row in rows ==> row.invocationId in Ids(invocations))
  }

  lemma {:induction false} DeliveredHeading(i: Invocation, rows: seq<OutboxRow>, run: Scope)
    ensures (HeadingOf(i, rows, run) == DeliveredCount)
       <==> (Valid(i, RowOf(rows, i.id), run) && RowOf(rows, i.id).Some? && RowOf(rows, i.id).value.status == Delivered)
    ensures Valid(i, RowOf(rows, i.id), run) <==> HeadingOf(i, rows, run) != InvalidCount
  {
  }

  predicate NothingBut(c: Counts, n: nat) {
    c.delivered == n && c.pending == c.processing == c.dead == c.missing == c.invalid == 0
  }

  lemma {:induction false} OnlyDelivered(invocations: seq<Invocation>, rows: seq<OutboxRow>, run: Scope)
    ensures NothingBut(CountsOf(invocations, rows, run), |invocations|)
       <==> forall i :: i in invocations ==> HeadingOf(i, rows, run) == DeliveredCount
  {
    CountsAddUp(invocations, rows, run);
    forall h | h in HEADINGS
      ensures Count(invocations, rows, run, h) > 0 <==> exists i :: i in invocations && HeadingOf(i, rows, run) == h
    {
      CountsSome(invocations, rows, run, h);
    }
    assert {PendingCount, ProcessingCount, DeadCount, MissingCount, InvalidCount} <= HEADINGS;
  }

  /** AllDelivered, by the counts. */
  lemma {:induction false} DeliveredByCounts(invocations: seq<Invocation>, rows: seq<OutboxRow>, run: Scope)
    ensures AllDelivered(invocations, rows, run) <==>
            invocations != [] && NothingBut(CountsOf(invocations, rows, run), |invocations|)
                && Orphans(rows, Ids(invocations)) == 0
  {
    OnlyDelivered(invocations, rows, run);
    OrphansSome(rows, Ids(invocations));
    forall i | i in invocations
      ensures (HeadingOf(i, rows, run) == DeliveredCount)
         <==> && Valid(i, RowOf(rows, i.id), run)
              && RowOf(rows, i.id).Some? && RowOf(rows, i.id).value.status == Delivered
    {
      DeliveredHeading(i, rows, run);
    }
  }

  lemma {:induction false} GoodViews(views: seq<View>)
    ensures FirstBadView(views).None? <==> forall v :: v in views ==> v.valid && v.delivery == DeliveredCount
  {
    if views != [] {
      GoodViews(views[1..]);
      assert views == [views[0]] + views[1..];
    }
  }

  lemma {:induction false} DeliveredViews(invocations: seq<Invocation>, rows: seq<OutboxRow>, run: Scope)
    requires AllDelivered(invocations, rows, run)
    ensures FirstBadView(Views(invocations, rows, run)).None?
  {
    var views := Views(invocations, rows, run);
    forall v | v in views ensures v.valid && v.delivery == DeliveredCount {
      var k :| 0 <= k < |views| && views[k] == v;
      assert invocations[k] in invocations;
      DeliveredHeading(invocations[k], rows, run);
    }
    GoodViews(views);
  }

  /** A produced trace adds up. */
  lemma {:induction false} TraceAddsUp(
      events: nat, invocations: seq<Invocation>, rows: seq<OutboxRow>, run: Scope, isV2: bool)
    requires GetRunTrace(events, invocations, rows, run, isV2).Some?
    ensures var t := GetRunTrace(events, invocations, rows, run, isV2).value;
            t.counts.Sum() == t.total == |t.invocations|
  {
    CountsAddUp(invocations, rows, run);
  }

  /** Delivery is COMPLETE exactly when everything was delivered. */
  lemma {:induction false} CompleteIsExact(
      events: nat, invocations: seq<Invocation>, rows: seq<OutboxRow>, run: Scope, isV2: bool)
    requires GetRunTrace(events, invocations, rows, run, isV2).Some?
    ensures var t := GetRunTrace(events, invocations, rows, run, isV2).value;
            && (t.deliveryStatus == COMPLETE <==> AllDelivered(invocations, rows, run))
            && (CompleteState(t) <==> AllDelivered(invocations, rows, run))
  {
    DeliveredByCounts(invocations, rows, run);
    CountsAddUp(invocations, rows, run);
  }

  /** What the acceptance looks at, without its order of complaints. */
  lemma {:induction false} AcceptedStates(t: Trace, allowEmpty: bool)
    requires t.counts.Sum() == t.total == |t.invocations|
    ensures ValidateTrace(t, allowEmpty).None? <==>
            (CompleteState(t) || (allowEmpty && EmptyState(t))) && t.invalidCount == 0
                && FirstBadView(t.invocations).None? && t.events > 0
               && t.counts.invalid == t.counts.missing == 0
  {
  }

  lemma {:induction false} EmptyPayload(
      t: Trace, events: nat, views: seq<View>, counts: Counts, invalid: nat, anyRows: bool, isV2: bool)
    requires t == Payload(events, views, counts, invalid, anyRows, isV2) && counts.Sum() == |views|
    ensures EmptyState(t) <==> isV2 && views == [] && invalid == 0
  {
  }

  lemma {:induction false} InvalidOfNothing(invocations: seq<Invocation>, rows: seq<OutboxRow>, run: Scope)
    ensures invocations == [] ==> (InvalidEntries(invocations, rows, run) == 0 <==> rows == [])
  {
    if invocations == [] { NoInvocations(rows, run); }
  }

  lemma {:induction false} SumIsLength(invocations: seq<Invocation>, rows: seq<OutboxRow>, run: Scope)
    ensures CountsOf(invocations, rows, run).Sum() == |invocations|
  {
    CountsAddUp(invocations, rows, run);
  }

  lemma {:induction false} ProducedIsPayload(
      events: nat, invocations: seq<Invocation>, rows: seq<OutboxRow>, run: Scope, isV2: bool)
    requires GetRunTrace(events, invocations, rows, run, isV2).Some?
    ensures GetRunTrace(events, invocations, rows, run, isV2).value
         == Payload(events, Views(invocations, rows, run), CountsOf(invocations, rows, run),
             InvalidEntries(invocations, rows, run),
                    rows != [], isV2)
  {
  }

  lemma {:induction false} EmptyIsExact(
      events: nat, invocations: seq<Invocation>, rows: seq<OutboxRow>, run: Scope, isV2: bool)
    requires GetRunTrace(events, invocations, rows, run, isV2).Some?
    ensures EmptyState(GetRunTrace(events, invocations, rows, run, isV2).value)
            <==> isV2 && invocations == [] && rows == []
  {
    var t := GetRunTrace(events, invocations, rows, run, isV2).value;
    var views, counts, invalid := Views(invocations, rows, run), CountsOf(invocations, rows, run),
        InvalidEntries(invocations, rows, run);
    assert EmptyState(t) <==> isV2 && views == [] && invalid == 0 by {
      ProducedIsPayload(events, invocations, rows, run, isV2);
      SumIsLength(invocations, rows, run);
      EmptyPayload(t, events, views, counts, invalid, rows != [], isV2);
    }
    InvalidOfNothing(invocations, rows, run);
  }

  lemma {:induction false} InvalidIsCounted(
      events: nat, invocations: seq<Invocation>, rows: seq<OutboxRow>, run: Scope, isV2: bool)
    requires GetRunTrace(events, invocations, rows, run, isV2).Some?
    ensures var t := GetRunTrace(events, invocations, rows, run, isV2).value;
            && t.events == events && t.invocations == Views(invocations, rows, run)
            && (CompleteState(t) || EmptyState(t) ==> t.invalidCount == 0 && t.counts.invalid == t.counts.missing == 0)
  {
  }

  /** The acceptance accepts exactly the traces of runs where everything was delivered and at least one event is
      recorded; where empty traces are allowed, also those of v2 runs that invoked nothing and queued nothing. */
  lemma {:induction false} AcceptanceIsExact(
      events: nat, invocations: seq<Invocation>, rows: seq<OutboxRow>, run: Scope, isV2: bool, allowEmpty: bool)
    requires GetRunTrace(events, invocations, rows, run, isV2).Some?
    ensures ValidateTrace(GetRunTrace(events, invocations, rows, run, isV2).value, allowEmpty).None?
       <==> && (AllDelivered(invocations, rows, run) || (allowEmpty && isV2 && invocations == [] && rows == []))
            && events > 0
  {
    var t := GetRunTrace(events, invocations, rows, run, isV2).value;
    TraceAddsUp(events, invocations, rows, run, isV2);
    AcceptedStates(t, allowEmpty);
    CompleteIsExact(events, invocations, rows, run, isV2);
    EmptyIsExact(events, invocations, rows, run, isV2);
    InvalidIsCounted(events, invocations, rows, run, isV2);
    if AllDelivered(invocations, rows, run) { DeliveredViews(invocations, rows, run); }
  }

  lemma {:induction false} NoInvocations(rows: seq<OutboxRow>, run: Scope)
    ensures Orphans(rows, Ids([])) == 0 <==> rows == []
    ensures CountsOf([], rows, run) == Counts(0, 0, 0, 0, 0, 0)
  {
    OrphansSome(rows, Ids([]));
    if rows != [] { assert rows[0] in rows; }
  }

  predicate Headed(invocations: seq<Invocation>, rows: seq<OutboxRow>, run: Scope, h: Heading) {
    exists i :: i in invocations && HeadingOf(i, rows, run) == h
  }

  predicate Broken(invocations: seq<Invocation>, rows: seq<OutboxRow>, run: Scope) {
    Headed(invocations, rows, run, InvalidCount) || exists row :: row in rows && row.invocationId !in Ids(invocations)
  }

  /** What the presenter ought to show, from the rows alone: the worst thing that is wrong. */
  function RootCause(invocations: seq<Invocation>, rows: seq<OutboxRow>, run: Scope, isV2: bool): Shown {
    if Broken(invocations, rows, run) then ShownInvalid
    else if invocations == [] then if isV2 then ShownEmpty else ShownLegacy
    else if Headed(invocations, rows, run, MissingCount) then ShownMissing
    else if Headed(invocations, rows, run, DeadCount) then ShownDegraded
    else if Headed(invocations, rows, run, PendingCount) || Headed(invocations, rows, run, ProcessingCount)
    then ShownPending
    else ShownComplete
  }

  /** On every produced trace the presenter shows the root cause, and COMPLETE exactly when everything was delivered. */
  lemma {:induction false} PresenterIsExact(
      events: nat, invocations: seq<Invocation>, rows: seq<OutboxRow>, run: Scope, isV2: bool)
    requires GetRunTrace(events, invocations, rows, run, isV2).Some?
    ensures var t := GetRunTrace(events, invocations, rows, run, isV2).value;
            && DeriveTraceState(t) == RootCause(invocations, rows, run, isV2)
            && (DeriveTraceState(t) == ShownComplete <==> AllDelivered(invocations, rows, run))
  {
    CompleteIsExact(events, invocations, rows, run, isV2);
    HeadingsByCounts(invocations, rows, run);
    NoInvocations(rows, run);
  }

  lemma {:induction false} HeadingsByCounts(invocations: seq<Invocation>, rows: seq<OutboxRow>, run: Scope)
    ensures var c := CountsOf(invocations, rows, run);
            && (Headed(invocations, rows, run, MissingCount) <==> c.missing > 0)
            && (Headed(invocations, rows, run, DeadCount) <==> c.dead > 0)
            && (Headed(invocations, rows, run, PendingCount) <==> c.pending > 0)
            && (Headed(invocations, rows, run, ProcessingCount) <==> c.processing > 0)
            && (Broken(invocations, rows, run) <==> c.invalid + Orphans(rows, Ids(invocations)) > 0)
  {
    CountsSome(invocations, rows, run, MissingCount);
    CountsSome(invocations, rows, run, DeadCount);
    CountsSome(invocations, rows, run, PendingCount);
    CountsSome(invocations, rows, run, ProcessingCount);
    CountsSome(invocations, rows, run, InvalidCount);
    OrphansSome(rows, Ids(invocations));
  }
}
