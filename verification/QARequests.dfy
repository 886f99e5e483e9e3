/** Many question requests at once: every interleaving of their database steps, with processes dying anywhere.
    The unique key of the run table and the row lock are the two things taken from the database. */
module QARequests {
  import opened Common
  import opened QARun
  import opened QASafety
  import opened QARecords
  import opened QAHash

  datatype Key = Key(tenantId: Id, text: string)

  /** One call of ask: `head` is what its run would be created with. */
  datatype Ask = Ask(key: Key, head: Head, hash: Hash, legacyHash: Hash, script: Script, startVersion: int)

  datatype Entry = Entry(head: Head, rows: Rows, startVersion: int)

  datatype Outcome = Answered | Raised(errorType: string) | Read(reservation: Reservation)

  /** Where a request is: it has not looked, has found no run, has created one, is executing it and has made k
      writes, has replied, or its process is gone. */
  datatype Client = Asking | Missed | Owner | Executing(k: nat) | Told(outcome: Outcome) | Gone

  datatype World = World(runs: map<Key, Entry>, clients: map<nat, Client>, started: multiset<Key>)

  const EMPTY := World(map[], map[], multiset{})

  datatype Move =
    | Look(c: nat) | Insert(c: nat) | Claim(c: nat) | Write(c: nat) | Finish(c: nat)
    | Throw(c: nat, exc: Exc) | Cancel(c: nat) | Die(c: nat)

  function ClientOf(w: World, c: nat): Client {
    if c in w.clients then w.clients[c] else Asking
  }

  function Now(w: World, c: nat, client: Client): World {
    w.(clients := w.clients[c := client])
  }

  function Stores(w: World, key: Key, rows: Rows): World
    requires key in w.runs
  {
    w.(runs := w.runs[key := w.runs[key].(rows := rows)])
  }

  function ReadBack(w: World, a: Ask): Outcome
    requires a.key in w.runs
  {
    Read(Existing(w.runs[a.key].head, w.runs[a.key].rows, a.hash, a.legacyHash))
  }

  function Looked(w: World, c: nat, a: Ask): World {
    Now(w, c, if a.key in w.runs then Told(ReadBack(w, a)) else Missed)
  }

  /** The unique key decides the race: the loser reads the winner's run. */
  function Inserted(w: World, c: nat, a: Ask): World {
    if a.key in w.runs then Now(w, c, Told(ReadBack(w, a)))
    else Now(w.(runs := w.runs[a.key := Entry(a.head, NewRun(a.startVersion), a.startVersion)]), c, Owner)
  }

  function Closed(w: World, c: nat, a: Ask, errorType: string): World {
    if a.key !in w.runs then Now(w, c, Told(Raised(errorType)))
    else Now(Stores(w, a.key, MarkFailed(w.runs[a.key].rows, errorType)), c, Told(Raised(errorType)))
  }

  /** Under the row lock: only a run still RECEIVED is executed. */
  function Claimed(w: World, c: nat, a: Ask): World {
    if a.key in w.runs && w.runs[a.key].rows.status == Received
    then Now(w.(started := w.started + multiset{a.key}), c, Executing(0))
    else Closed(w, c, a, UNHANDLED)
  }

  function Written(w: World, c: nat, a: Ask, k: nat): World {
    if k < |ExecutionPlan(a.script).acts| && a.key in w.runs
    then Now(Stores(w, a.key, Survives(a.script, a.startVersion, k + 1)), c, Executing(k + 1))
    else w
  }

  function Next(asks: nat -> Ask, w: World, move: Move): World {
    var c := move.c;
    var client, a := ClientOf(w, c), asks(c);
    match move
    case Look(_) => if client == Asking then Looked(w, c, a) else w
    case Insert(_) => if client == Missed then Inserted(w, c, a) else w
    case Claim(_) => if client == Owner then Claimed(w, c, a) else w
    case Write(_) => if client.Executing? then Written(w, c, a, client.k) else w
    case Finish(_) =>
      var plan := ExecutionPlan(a.script);
      if client == Executing(|plan.acts|) && plan.end.Answered? then Now(w, c, Told(Outcome.Answered)) else w
    case Throw(_, exc) => if client == Owner || client.Executing? then Closed(w, c, a, ErrorTypeOf(exc)) else w
    case Cancel(_) => if client == Owner || client.Executing? then Closed(w, c, a, QA_CALL_CANCELLED) else w
    case Die(_) => Now(w, c, if client.Told? then client else Gone)
  }

  function After(asks: nat -> Ask, moves: seq<Move>): World {
    if moves == [] then EMPTY else Next(asks, After(asks, moves[..|moves| - 1]), moves[|moves| - 1])
  }

  // ---------------------------------------------------------------- the invariant

  predicate Active(client: Client) {
    client == Owner || client.Executing?
  }

  /** What an active request knows about its run. */
  predicate Holds(w: World, a: Ask, client: Client) {
    match client
    case Owner =>
      && a.key in w.runs && w.runs[a.key] == Entry(a.head, NewRun(a.startVersion), a.startVersion)
      && a.key !in w.started
    case Executing(k) =>
      && a.key in w.runs && k <= |ExecutionPlan(a.script).acts|
      && w.runs[a.key] == Entry(a.head, Survives(a.script, a.startVersion, k), a.startVersion) && w.started[a.key] == 1
    case _ => true
  }

  predicate AllHold(asks: nat -> Ask, w: World) {
    forall c :: c in w.clients ==> Holds(w, asks(c), w.clients[c])
  }

  /** At most one active request per key. */
  predicate Alone(asks: nat -> Ask, w: World) {
    forall c, d :: c in w.clients && d in w.clients && c != d && Active(w.clients[c]) && Active(w.clients[d])
        ==> asks(c).key != asks(d).key
  }

  ghost predicate Kept(w: World) {
    && (forall key :: w.started[key] <= 1 && (key in w.started ==> key in w.runs))
    && (forall key :: key in w.runs ==> Good(w.runs[key].rows, w.runs[key].startVersion))
  }

  ghost predicate Sound(asks: nat -> Ask, w: World) {
    AllHold(asks, w) && Alone(asks, w) && Kept(w)
  }

  lemma {:induction false} Quieted(asks: nat -> Ask, w: World, c: nat, client: Client)
    requires Sound(asks, w) && !Active(client)
    ensures Sound(asks, Now(w, c, client))
  {
  }

  /** A step that touches only the run of client c, and leaves c as `client`. */
  predicate Local(asks: nat -> Ask, w: World, v: World, c: nat, client: Client) {
    && v.clients == w.clients[c := client]
    && (forall key :: key in w.runs && key != asks(c).key ==> key in v.runs && v.runs[key] == w.runs[key])
    && (forall key :: key in v.runs ==> key in w.runs || key == asks(c).key)
    && v.started - multiset{asks(c).key} <= w.started <= v.started
  }

  lemma {:induction false} OthersHold(asks: nat -> Ask, w: World, v: World, c: nat, client: Client, d: nat)
    requires Sound(asks, w) && Local(asks, w, v, c, client) && d in w.clients && d != c
    requires Active(w.clients[d]) ==> asks(d).key != asks(c).key
    ensures Holds(v, asks(d), w.clients[d])
  {
    var key := asks(d).key;
    if Active(w.clients[d]) { assert v.started[key] == w.started[key]; }
  }

  /** Such a step is sound if no other client is active on that run, and c and the run are all right after it. */
  lemma {:induction false} LocalIsSound(asks: nat -> Ask, w: World, v: World, c: nat, client: Client)
    requires Sound(asks, w) && Local(asks, w, v, c, client) && Holds(v, asks(c), client)
    requires forall d :: d in w.clients && d != c && Active(w.clients[d]) ==> asks(d).key != asks(c).key
    requires asks(c).key in v.runs && Good(v.runs[asks(c).key].rows, v.runs[asks(c).key].startVersion)
             && v.started[asks(c).key] <= 1
    ensures Sound(asks, v)
  {
    forall d | d in v.clients ensures Holds(v, asks(d), v.clients[d]) {
      if d != c { OthersHold(asks, w, v, c, client, d); }
    }
    KeptAfter(asks, w, v, c, client);
  }

  lemma {:induction false} KeptAfter(asks: nat -> Ask, w: World, v: World, c: nat, client: Client)
    requires Kept(w) && Local(asks, w, v, c, client)
    requires asks(c).key in v.runs && Good(v.runs[asks(c).key].rows, v.runs[asks(c).key].startVersion)
             && v.started[asks(c).key] <= 1
    ensures Kept(v)
  {
    forall key ensures v.started[key] <= 1 && (key in v.started ==> key in v.runs) {
      if key != asks(c).key { assert v.started[key] == w.started[key]; }
    }
  }

  lemma {:induction false} ActiveIsAlone(asks: nat -> Ask, w: World, c: nat)
    requires Sound(asks, w) && c in w.clients && Active(w.clients[c])
    ensures asks(c).key in w.runs
    ensures forall d :: d in w.clients && d != c && Active(w.clients[d]) ==> asks(d).key != asks(c).key
  {
  }

  lemma {:induction false} InsertedIsSound(asks: nat -> Ask, w: World, c: nat)
    requires Sound(asks, w) && ClientOf(w, c) == Missed
    ensures Sound(asks, Inserted(w, c, asks(c)))
  {
    var a := asks(c);
    if a.key in w.runs {
      Quieted(asks, w, c, Told(ReadBack(w, a)));
    } else {
      NewRunIsGood(a.startVersion);
      forall d | d in w.clients && d != c && Active(w.clients[d]) ensures asks(d).key != a.key {
        assert Holds(w, asks(d), w.clients[d]);
      }
      LocalIsSound(asks, w, Inserted(w, c, a), c, Owner);
    }
  }

  lemma {:induction false} ClosedIsSound(asks: nat -> Ask, w: World, c: nat, errorType: string)
    requires Sound(asks, w) && c in w.clients && Active(w.clients[c])
    ensures Sound(asks, Closed(w, c, asks(c), errorType))
  {
    var a := asks(c);
    ActiveIsAlone(asks, w, c);
    MarkFailedIsGood(w.runs[a.key].rows, errorType, w.runs[a.key].startVersion);
    LocalIsSound(asks, w, Closed(w, c, a, errorType), c, Told(Raised(errorType)));
  }

  lemma {:induction false} ClaimedIsSound(asks: nat -> Ask, w: World, c: nat)
    requires Sound(asks, w) && ClientOf(w, c) == Owner
    ensures Sound(asks, Claimed(w, c, asks(c)))
  {
    var a := asks(c);
    ActiveIsAlone(asks, w, c);
    assert Survives(a.script, a.startVersion, 0) == NewRun(a.startVersion);
    LocalIsSound(asks, w, Claimed(w, c, a), c, Executing(0));
  }

  lemma {:induction false} WrittenIsSound(asks: nat -> Ask, w: World, c: nat, k: nat)
    requires Sound(asks, w) && ClientOf(w, c) == Executing(k)
    ensures Sound(asks, Written(w, c, asks(c), k))
  {
    var a := asks(c);
    ActiveIsAlone(asks, w, c);
    if k < |ExecutionPlan(a.script).acts| {
      EveryStopIsGood(a.script, a.startVersion, k + 1);
      LocalIsSound(asks, w, Written(w, c, a, k), c, Executing(k + 1));
    }
  }

  lemma {:induction false} NextIsSound(asks: nat -> Ask, w: World, move: Move)
    requires Sound(asks, w)
    ensures Sound(asks, Next(asks, w, move))
  {
    var c := move.c;
    var client := ClientOf(w, c);
    match move
    case Insert(_) => if client == Missed { InsertedIsSound(asks, w, c); }
    case Claim(_) => if client == Owner { ClaimedIsSound(asks, w, c); }
    case Write(_) => if client.Executing? { WrittenIsSound(asks, w, c, client.k); }
    case Throw(_, exc) => if Active(client) { ClosedIsSound(asks, w, c, ErrorTypeOf(exc)); }
    case Cancel(_) => if Active(client) { ClosedIsSound(asks, w, c, QA_CALL_CANCELLED); }
    case Look(_) => if client == Asking { LookedIsSound(asks, w, c); }
    case Finish(_) => Quieted(asks, w, c, Told(Outcome.Answered));
    case Die(_) => if !client.Told? { Quieted(asks, w, c, Gone); } else { Quieted(asks, w, c, client); }
  }

  lemma {:induction false} LookedIsSound(asks: nat -> Ask, w: World, c: nat)
    requires Sound(asks, w)
    ensures Sound(asks, Looked(w, c, asks(c)))
  {
    var a := asks(c);
    if a.key in w.runs { Quieted(asks, w, c, Told(ReadBack(w, a))); } else { Quieted(asks, w, c, Missed); }
  }

  lemma {:induction false} AfterIsSound(asks: nat -> Ask, moves: seq<Move>)
    ensures Sound(asks, After(asks, moves))
  {
    if moves != [] {
      AfterIsSound(asks, moves[..|moves| - 1]);
      NextIsSound(asks, After(asks, moves[..|moves| - 1]), moves[|moves| - 1]);
    }
  }

  /** In every interleaving each key has its run executed at most once, by at most one request at a time, and every
      run's committed rows are good. */
  lemma {:induction false} ExecutedAtMostOnce(asks: nat -> Ask, moves: seq<Move>, key: Key)
    ensures var w := After(asks, moves);
            && w.started[key] <= 1
            && (key in w.runs ==> Good(w.runs[key].rows, w.runs[key].startVersion))
            && forall c, d ::
                 c in w.clients && d in w.clients && c != d && asks(c).key == asks(d).key && Active(w.clients[c])
                 ==> !Active(w.clients[d])
  {
    AfterIsSound(asks, moves);
  }

  // ---------------------------------------------------------------- replies are final

  predicate Settled(w: World, key: Key) {
    key in w.runs && (w.runs[key].rows.status == Completed || w.runs[key].rows.status == RunFailed)
  }

  lemma {:induction false} NextKeepsRuns(asks: nat -> Ask, w: World, move: Move, key: Key)
    requires Sound(asks, w) && key in w.runs
    ensures key in Next(asks, w, move).runs && Next(asks, w, move).runs[key].head == w.runs[key].head
    ensures Settled(w, key) ==> Next(asks, w, move).runs[key] == w.runs[key]
  {
    var c := move.c;
    var client, a := ClientOf(w, c), asks(c);
    match move
    case Write(_) => if client.Executing? && a.key == key { WritingKeeps(asks, w, c, client.k); }
    case Claim(_) => if client == Owner { ClaimingKeeps(asks, w, c, key); }
    case Throw(_, exc) => if Active(client) { ClosingKeeps(w, c, a, ErrorTypeOf(exc), key); }
    case Cancel(_) => if Active(client) { ClosingKeeps(w, c, a, QA_CALL_CANCELLED, key); }
    case _ =>
  }

  lemma {:induction false} ClosingKeeps(w: World, c: nat, a: Ask, errorType: string, key: Key)
    requires key in w.runs
    ensures key in Closed(w, c, a, errorType).runs && Closed(w, c, a, errorType).runs[key].head == w.runs[key].head
    ensures Settled(w, key) ==> Closed(w, c, a, errorType).runs[key] == w.runs[key]
  {
  }

  lemma {:induction false} ClaimingKeeps(asks: nat -> Ask, w: World, c: nat, key: Key)
    requires Sound(asks, w) && ClientOf(w, c) == Owner && key in w.runs
    ensures Claimed(w, c, asks(c)).runs == w.runs
  {
    assert Holds(w, asks(c), w.clients[c]);
  }

  lemma {:induction false} WritingKeeps(asks: nat -> Ask, w: World, c: nat, k: nat)
    requires Sound(asks, w) && ClientOf(w, c) == Executing(k)
    ensures asks(c).key in w.runs && asks(c).key in Written(w, c, asks(c), k).runs
    ensures Written(w, c, asks(c), k).runs[asks(c).key].head == w.runs[asks(c).key].head
    ensures Settled(w, asks(c).key) ==> Written(w, c, asks(c), k).runs[asks(c).key] == w.runs[asks(c).key]
  {
    var a := asks(c);
    assert Holds(w, a, w.clients[c]);
    if k < |ExecutionPlan(a.script).acts| {
      NoExecutionCloses(a.script, a.startVersion, k);
      if Settled(w, a.key) { CompletedStays(a.script, a.startVersion, k); }
    }
  }

  /** A run never disappears, its identity never changes, and once completed or failed its rows are final. */
  lemma {:induction false} SettledForever(asks: nat -> Ask, moves: seq<Move>, more: seq<Move>, key: Key)
    requires key in After(asks, moves).runs
    ensures key in After(asks, moves + more).runs
            && After(asks, moves + more).runs[key].head == After(asks, moves).runs[key].head
    ensures Settled(After(asks, moves), key) ==> After(asks, moves + more).runs[key] == After(asks, moves).runs[key]
  {
    if more == [] {
      assert moves + more == moves;
    } else {
      var front := more[..|more| - 1];
      assert (moves + more)[..|moves + more| - 1] == moves + front;
      SettledForever(asks, moves, front, key);
      AfterIsSound(asks, moves + front);
      NextKeepsRuns(asks, After(asks, moves + front), more[|more| - 1], key);
    }
  }

  /** What the request that executed a run was told when it failed is what every later request with the same key and
      content is told, whatever happens in between. */
  lemma {:induction false} FailureIsReadBackByAll(
      asks: nat -> Ask, moves: seq<Move>, c: nat, exc: Exc, more: seq<Move>, legacyHash: Hash)
    requires var w := After(asks, moves); Active(ClientOf(w, c)) && c in w.clients && !Settled(w, asks(c).key)
    requires Matches(asks(c).head, asks(c).hash)
    ensures var w := After(asks, moves + [Throw(c, exc)] + more);
            && asks(c).key in w.runs
            && Existing(w.runs[asks(c).key].head, w.runs[asks(c).key].rows, asks(c).hash, legacyHash)
                == FailedAs(ErrorTypeOf(exc))
  {
    var w, a := After(asks, moves), asks(c);
    var thrown := moves + [Throw(c, exc)];
    assert thrown[..|thrown| - 1] == moves;
    AfterIsSound(asks, moves);
    ThrowingSettles(asks, w, c, exc, legacyHash);
    SettledForever(asks, thrown, more, a.key);
  }

  lemma {:induction false} ThrowingSettles(asks: nat -> Ask, w: World, c: nat, exc: Exc, legacyHash: Hash)
    requires Sound(asks, w) && c in w.clients && Active(w.clients[c]) && !Settled(w, asks(c).key)
             && Matches(asks(c).head, asks(c).hash)
    ensures var v, a := Next(asks, w, Throw(c, exc)), asks(c);
            && Settled(v, a.key)
            && Existing(v.runs[a.key].head, v.runs[a.key].rows, a.hash, legacyHash) == FailedAs(ErrorTypeOf(exc))
  {
    var a := asks(c);
    assert Holds(w, a, w.clients[c]);
    var entry := w.runs[a.key];
    MarkFailedIsGood(entry.rows, ErrorTypeOf(exc), entry.startVersion);
    ClosedReadsBack(MarkFailed(entry.rows, ErrorTypeOf(exc)), entry.startVersion);
  }

  // ---------------------------------------------------------------- what each request is told

  /** A request asks: it looks and finds a run, or it loses the race to insert one. */
  predicate Asks(w: World, move: Move, key: Key) {
    key in w.runs
    && match move
       case Look(d) => ClientOf(w, d) == Asking
       case Insert(d) => ClientOf(w, d) == Missed
       case _ => false
  }

  /** A run made by the current service, its manifest untouched. */
  predicate Intact(head: Head) {
    head.simpleQa && head.mark == CurrentMark && head.snapshotId.Some?
  }

  /** What a request must be told about a run: a conflict if it is not the same request; else the answer of a completed
      run, the recorded error of a failed one, and to wait while neither is the case. */
  predicate MustBeTold(entry: Entry, hash: Hash, told: Reservation) {
    if hash != entry.head.requestHash then told == Conflict
    else if entry.rows.status == Completed then told == Replay
    else if entry.rows.status != RunFailed then told == Busy
    else
      match PhaseOf(entry.rows)
      case Closed(errorType) => told == if errorType in REPLAYABLE then FailedAs(errorType) else IntegrityFailure
      case _ => false
  }

  lemma {:induction false} ReadsWhatItMust(entry: Entry, hash: Hash, legacyHash: Hash)
    requires Good(entry.rows, entry.startVersion) && Intact(entry.head)
    ensures MustBeTold(entry, hash, Existing(entry.head, entry.rows, hash, legacyHash))
  {
    if entry.rows.status == RunFailed {
      FailedIsClosed(entry.rows, entry.startVersion);
      ClosedReadsBack(entry.rows, entry.startVersion);
    }
  }

  lemma {:induction false} FailedIsClosed(r: Rows, startVersion: int)
    requires Good(r, startVersion) && r.status == RunFailed
    ensures PhaseOf(r).Closed?
  {
    if PhaseOf(r).At? { OpenIsUnfinished(r.events); }
  }

  /** Any request that asks about an existing run is at once told what it must be told, and nothing else changes. */
  lemma {:induction false} AskingIsAnswered(asks: nat -> Ask, moves: seq<Move>, move: Move)
    requires Asks(After(asks, moves), move, asks(move.c).key) && Intact(After(asks, moves).runs[asks(move.c).key].head)
    ensures var w, v, d := After(asks, moves), After(asks, moves + [move]), move.c;
            && v.runs == w.runs
            && match ClientOf(v, d)
               case Told(Read(told)) => MustBeTold(w.runs[asks(d).key], asks(d).hash, told)
               case _ => false
  {
    var w, a := After(asks, moves), asks(move.c);
    assert (moves + [move])[..|moves|] == moves;
    AfterIsSound(asks, moves);
    ReadsWhatItMust(w.runs[a.key], a.hash, a.legacyHash);
  }

  /** What a request has been told it stays told. */
  lemma {:induction false} ToldForever(asks: nat -> Ask, moves: seq<Move>, more: seq<Move>, c: nat)
    requires ClientOf(After(asks, moves), c).Told?
    ensures ClientOf(After(asks, moves + more), c) == ClientOf(After(asks, moves), c)
  {
    if more == [] {
      assert moves + more == moves;
    } else {
      var front := more[..|more| - 1];
      assert (moves + more)[..|moves + more| - 1] == moves + front;
      ToldForever(asks, moves, front, c);
      NextKeepsTold(asks, After(asks, moves + front), more[|more| - 1], c);
    }
  }

  lemma {:induction false} NextKeepsTold(asks: nat -> Ask, w: World, move: Move, c: nat)
    requires ClientOf(w, c).Told?
    ensures ClientOf(Next(asks, w, move), c) == ClientOf(w, c)
  {
  }

  lemma {:induction false} Appended(asks: nat -> Ask, moves: seq<Move>, move: Move)
    ensures After(asks, moves + [move]) == Next(asks, After(asks, moves), move)
  {
    assert (moves + [move])[..|moves|] == moves;
  }

  /** The execution is stopped by an exception or by cancelling its request, and recorded with this type. */
  predicate StopsAs(stop: Move, errorType: string) {
    match stop
    case Throw(_, exc) => errorType == ErrorTypeOf(exc)
    case Cancel(_) => errorType == "QA_CALL_CANCELLED"
    case _ => false
  }

  /** When the execution of a run is stopped, its request is told the recorded type, and every later request with the
      same key is told that type too if it has the same hash, and a conflict if not, whatever happens in between. */
  lemma {:induction false} FailureIsTold(
      asks: nat -> Ask, moves: seq<Move>, stop: Move, errorType: string, more: seq<Move>, move: Move)
    requires StopsAs(stop, errorType)
    requires var w, c := After(asks, moves), stop.c; c in w.clients && Active(w.clients[c]) && !Settled(w, asks(c).key)
    requires Matches(asks(stop.c).head, asks(stop.c).hash) && asks(move.c).key == asks(stop.c).key
    requires Asks(After(asks, moves + [stop] + more), move, asks(stop.c).key)
    ensures ClientOf(After(asks, moves + [stop] + more), stop.c) == Told(Raised(errorType))
    ensures ClientOf(After(asks, moves + [stop] + more + [move]), move.c) ==
            Told(Read(if asks(move.c).hash == asks(stop.c).hash then FailedAs(errorType) else Conflict))
  {
    var stopped, c, key := moves + [stop], stop.c, asks(stop.c).key;
    AfterIsSound(asks, moves);
    Appended(asks, moves, stop);
    StoppingCloses(asks, After(asks, moves), stop, errorType);
    SettledForever(asks, stopped, more, key);
    ToldForever(asks, stopped, more, c);
    Appended(asks, stopped + more, move);
    ReadBackIs(After(asks, stopped + more), asks(move.c), asks(c).hash, errorType);
  }

  /** The run is closed with the recorded type, which its request is told. */
  lemma {:induction false} StoppingCloses(asks: nat -> Ask, w: World, stop: Move, errorType: string)
    requires StopsAs(stop, errorType)
    requires Sound(asks, w) && stop.c in w.clients && Active(w.clients[stop.c]) && !Settled(w, asks(stop.c).key)
    ensures errorType in REPLAYABLE
    ensures var v, c, key := Next(asks, w, stop), stop.c, asks(stop.c).key;
            && Settled(v, key) && v.runs[key].head == asks(c).head && ClosedAs(v.runs[key], errorType)
            && ClientOf(v, c) == Told(Raised(errorType))
  {
    var c := stop.c;
    assert Holds(w, asks(c), w.clients[c]);
    var entry := w.runs[asks(c).key];
    MarkFailedIsGood(entry.rows, errorType, entry.startVersion);
    assert Next(asks, w, stop) == Closed(w, c, asks(c), errorType);
  }

  predicate ClosedAs(entry: Entry, errorType: string) {
    Good(entry.rows, entry.startVersion) && PhaseOf(entry.rows) == Phase.Closed(errorType)
  }

  lemma {:induction false} ReadBackIs(w: World, a: Ask, hash: Hash, errorType: string)
    requires a.key in w.runs && Matches(w.runs[a.key].head, hash) && ClosedAs(w.runs[a.key], errorType)
    requires errorType in REPLAYABLE
    ensures ReadBack(w, a) == Read(if a.hash == hash then FailedAs(errorType) else Conflict)
  {
    ReadsWhatItMust(w.runs[a.key], a.hash, a.legacyHash);
  }

  /** Once a run is COMPLETED, every later request with its key is told to replay it if it has the same hash, and a
      conflict if not. */
  lemma {:induction false} AnswerIsTold(asks: nat -> Ask, moves: seq<Move>, more: seq<Move>, move: Move)
    requires var w, key := After(asks, moves), asks(move.c).key;
             key in w.runs && w.runs[key].rows.status == Completed && Intact(w.runs[key].head)
    requires Asks(After(asks, moves + more), move, asks(move.c).key)
    ensures var key := asks(move.c).key;
            ClientOf(After(asks, moves + more + [move]), move.c) ==
            Told(Read(if asks(move.c).hash == After(asks, moves).runs[key].head.requestHash then Replay else Conflict))
  {
    SettledForever(asks, moves, more, asks(move.c).key);
    AskingIsAnswered(asks, moves + more, move);
  }

  /** A request is told that its question was answered only when all writes of its execution are made. */
  lemma {:induction false} FinishingTells(asks: nat -> Ask, moves: seq<Move>, c: nat)
    requires ClientOf(After(asks, moves), c).Executing?
    ensures var w, plan := After(asks, moves), ExecutionPlan(asks(c).script);
            && (ClientOf(After(asks, moves + [Move.Finish(c)]), c) == Told(Outcome.Answered) <==>
                  ClientOf(w, c) == Executing(|plan.acts|) && plan.end.Answered?)
            && (ClientOf(w, c) == Executing(|plan.acts|) ==>
                  asks(c).key in w.runs
                  && w.runs[asks(c).key].rows == Survives(asks(c).script, asks(c).startVersion, |plan.acts|))
  {
    var w := After(asks, moves);
    Appended(asks, moves, Move.Finish(c));
    AfterIsSound(asks, moves);
    assert Holds(w, asks(c), w.clients[c]);
  }
}
