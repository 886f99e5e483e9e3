/** Histories of human decisions: idempotency, version locking, finality of verdicts, and progress. */
module DecisionHistory {
  import opened Common
  import opened FullReview
  import opened ReviewInvariants
  import opened HumanReview

  /** The request is admitted and not rolled back. */
  predicate Applies(db: Db, r: Request) {
    r.Decide? && Refuses(db, r.decision).None? && !(r.reportRaises && Finishes(db, r.decision))
  }

  /** How many of the requests that take effect carry a decision satisfying p. */
  function HowOften(db: Db, requests: seq<Request>, p: Decision -> bool): nat {
    if requests == [] then 0
    else
      var front, last := requests[..|requests| - 1], requests[|requests| - 1];
      HowOften(db, front, p) + (if Applies(ServeAll(db, front), last) && p(last.decision) then 1 else 0)
  }

  /** A request either has the effect of its decision, or closes the run, or changes nothing. */
  lemma {:induction false} ServeCases(db: Db, r: Request, startVersion: int)
    requires Good(db, startVersion)
    ensures Good(Serve(db, r), startVersion)
    ensures Applies(db, r) ==> Effect(db, r.decision, Serve(db, r))
    ensures !Applies(db, r) ==> Serve(db, r) == if r.CloseRun? then Close(db, r.cancelled) else db
  {
    ServeKeepsGood(db, r, startVersion);
    if Applies(db, r) { AdmittedTakesEffect(db, r.decision, r.reportRaises, startVersion); }
  }

  // ---------------------------------------------------------------- idempotency keys

  predicate HasKey(d: Decision, key: string) {
    d.idempotencyKey == Some(key)
  }

  /** Each key takes effect at most once; it is on record exactly if it was before or has taken effect. */
  lemma {:induction false} KeyTakesEffectOnce(db: Db, requests: seq<Request>, key: string, startVersion: int)
    requires Good(db, startVersion)
    ensures var n := HowOften(db, requests, d => HasKey(d, key));
            && n <= 1 && (key in db.decisions ==> n == 0)
            && (key in ServeAll(db, requests).decisions <==> key in db.decisions || n == 1)
            && (key in db.decisions ==> ServeAll(db, requests).decisions[key] == db.decisions[key])
  {
    if requests != [] {
      var front, last := requests[..|requests| - 1], requests[|requests| - 1];
      KeyTakesEffectOnce(db, front, key, startVersion);
      RequestsKeepGood(db, front, startVersion);
      ServeCases(ServeAll(db, front), last, startVersion);
      assert forall d :: (e => HasKey(e, key))(d) == HasKey(d, key);
    }
  }

  predicate WellFormed(d: Decision) {
    Truthy(d.idempotencyKey) && d.targetVersion.Some? && d.action != UnsupportedAction
  }

  /** Once a decision has taken effect, then after any further requests repeating it changes nothing and reports
      the current status, and another decision under its key is refused and changes nothing. */
  lemma {:induction false} RepeatsAreHarmless(
      db: Db, r: Request, later: seq<Request>, again: Decision, raises: bool, startVersion: int)
    requires Good(db, startVersion) && Applies(db, r)
    requires WellFormed(again) && again.idempotencyKey == r.decision.idempotencyKey
    ensures var now := ServeAll(Serve(db, r), later);
            Resume(now, again, raises)
                == (now, if SameDecision(r.decision, again) then Now(now.status) else Refused(IdempotencyConflict))
  {
    ServeCases(db, r, startVersion);
    KeyTakesEffectOnce(Serve(db, r), later, again.idempotencyKey.value, startVersion);
  }

  // ---------------------------------------------------------------- what counts as the same request

  function SpellingList(targets: seq<RawId>): seq<string> {
    seq(|targets|, i requires 0 <= i < |targets| => targets[i].spelling)
  }

  /** The claims a decision names, as they were spelled, in any order. */
  function Spelled(d: Decision): multiset<string> {
    multiset(SpellingList(d.targets))
  }

  lemma {:induction false} SpellingsAreListed(targets: seq<RawId>)
    ensures Spellings(targets) == multiset(SpellingList(targets))
  {
    if targets != [] {
      SpellingsAreListed(targets[1..]);
      assert SpellingList(targets) == [targets[0].spelling] + SpellingList(targets[1..]);
    } else {
      assert SpellingList(targets) == [];
    }
  }

  /** The same text, or none either time: absent and empty are alike. */
  predicate SameText(a: Option<string>, b: Option<string>) {
    a == b || (!Truthy(a) && !Truthy(b))
  }

  /** Two decisions ask for the same: they agree in tenant, case, run, action, expected version, reviewer, reasons, and
      the claims they name, in any order. */
  predicate SameRequest(a: Decision, b: Decision) {
    && a.tenantId == b.tenantId && a.caseId == b.caseId && a.runId == b.runId && a.action == b.action
    && a.targetVersion == b.targetVersion && a.reviewerId == b.reviewerId
    && SameText(a.reasonCode, b.reasonCode) && SameText(a.reason, b.reason) && Spelled(a) == Spelled(b)
  }

  /** Once a decision has taken effect, then after any further requests another one under its key is answered with the
      current status if it asks for the same, and with a conflict if it differs in any field; it never changes
      anything. */
  lemma {:induction false} RepeatsAreTold(
      db: Db, r: Request, later: seq<Request>, again: Decision, raises: bool, startVersion: int)
    requires Good(db, startVersion) && Applies(db, r)
    requires WellFormed(again) && again.idempotencyKey == r.decision.idempotencyKey
    ensures var now := ServeAll(Serve(db, r), later);
            Resume(now, again, raises) ==
              (now, if SameRequest(r.decision, again) then Now(now.status) else Refused(IdempotencyConflict))
  {
    RepeatsAreHarmless(db, r, later, again, raises, startVersion);
    SpellingsAreListed(r.decision.targets);
    SpellingsAreListed(again.targets);
  }

  /** Naming another claim under a key that has taken effect is a conflict. */
  lemma {:induction false} OtherClaimIsAConflict(
      db: Db, r: Request, later: seq<Request>, again: Decision, raises: bool, startVersion: int, mine: RawId,
      other: RawId)
    requires Good(db, startVersion) && Applies(db, r)
    requires WellFormed(again) && again == r.decision.(targets := [other])
    requires r.decision.targets == [mine] && mine.spelling != other.spelling
    ensures var now := ServeAll(Serve(db, r), later);
            Resume(now, again, raises) == (now, Refused(IdempotencyConflict))
  {
    assert SpellingList([mine]) == [mine.spelling] && SpellingList([other]) == [other.spelling];
    assert other.spelling in Spelled(again) && other.spelling !in Spelled(r.decision);
    RepeatsAreTold(db, r, later, again, raises, startVersion);
  }

  // ---------------------------------------------------------------- which decisions are admitted

  /** A target that names an undecided claim of the run. */
  predicate NamesOpenClaim(db: Db, t: RawId) {
    t.parsed.Some? && t.parsed.value in db.claims && db.claims[t.parsed.value] in {Pending, NeedsRework}
  }

  /** Why a decision is refused, first things first: it lacks a key, a version or a known action; its key is taken; the
      run is not under review; the version has moved on; a ruling names nothing, or something other than an undecided
      claim; and a submission is always too early. Whatever passes all of this is admitted. */
  lemma {:induction false} RefusalsExactly(db: Db, d: Decision, startVersion: int)
    requires Good(db, startVersion)
    ensures Refuses(db, d) ==
      if !Truthy(d.idempotencyKey) || d.targetVersion == None || d.action == UnsupportedAction
      then Some(Refused(InvalidRequest))
      else if d.idempotencyKey.value in db.decisions then
        Some(if SameDecision(db.decisions[d.idempotencyKey.value], d) then Now(db.status)
            else Refused(IdempotencyConflict))
      else if db.status !in {HumanReview, Rework} then Some(Refused(InvalidState))
      else if d.targetVersion != Some(db.version) then Some(Refused(VersionConflict))
      else if d.action in {SubmitReport, ApproveReportDraft} then Some(Refused(StillBlocked))
      else if d.action in {ApproveClaim, RejectClaim}
          && (d.targets == [] || exists t :: t in d.targets && !NamesOpenClaim(db, t))
      then Some(Refused(InvalidRequest))
      else None
  {
    assert TargetsOpen(db.claims, d.targets) <==> forall t :: t in d.targets ==> NamesOpenClaim(db, t);
  }

  // ---------------------------------------------------------------- expected versions

  lemma {:induction false} VersionsGrow(db: Db, r: Request, startVersion: int)
    requires Good(db, startVersion)
    ensures Serve(db, r).version >= db.version
    ensures Applies(db, r) ==> r.decision.targetVersion == Some(db.version) && Serve(db, r).version > db.version
  {
    ServeCases(db, r, startVersion);
    if Applies(db, r) { assert r.decision.idempotencyKey.value in Serve(db, r).decisions; }
  }

  predicate Expects(d: Decision, version: int) {
    d.targetVersion == Some(version)
  }

  /** At most one decision takes effect per expected version, and none for a version already left behind. */
  lemma {:induction false} OneDecisionPerVersion(db: Db, requests: seq<Request>, version: int, startVersion: int)
    requires Good(db, startVersion)
    ensures var n := HowOften(db, requests, d => Expects(d, version));
            n <= 1 && (n == 1 ==> db.version <= version < ServeAll(db, requests).version)
    ensures ServeAll(db, requests).version >= db.version
  {
    if requests != [] {
      var front, last := requests[..|requests| - 1], requests[|requests| - 1];
      OneDecisionPerVersion(db, front, version, startVersion);
      RequestsKeepGood(db, front, startVersion);
      VersionsGrow(ServeAll(db, front), last, startVersion);
      assert forall d :: (e => Expects(e, version))(d) == Expects(d, version);
    }
  }

  // ---------------------------------------------------------------- verdicts are final

  lemma {:induction false} TargetsAreOpen(claims: map<Id, ReviewStatus>, targets: seq<RawId>)
    requires TargetsOpen(claims, targets)
    ensures forall id :: id in TargetIds(targets) ==> id in Blocking(claims)
    ensures targets != [] ==> TargetIds(targets) != []
  {
    if targets != [] {
      assert targets[0] in targets;
      TargetsAreOpen(claims, targets[1..]);
    }
  }

  /** A ruling decides exactly the claims it names, all of them undecided before. */
  lemma {:induction false} RulingClosesItsTargets(db: Db, d: Decision)
    requires Refuses(db, d).None? && IsRuling(d.action)
    ensures Blocking(Judged(db, d)) == Blocking(db.claims) - set id | id in Ids(d)
    ensures Blocking(Judged(db, d)) < Blocking(db.claims)
    ensures Judged(db, d).Keys == db.claims.Keys
    ensures forall id :: id in db.claims && id !in Blocking(db.claims) ==> Judged(db, d)[id] == db.claims[id]
  {
    TargetsAreOpen(db.claims, d.targets);
    assert Ids(d)[0] in Blocking(db.claims) && Ids(d)[0] in Ids(d);
  }

  /** A claim once audited, approved or rejected by a human never changes again; no claim appears or vanishes. */
  lemma {:induction false} VerdictsAreFinal(db: Db, requests: seq<Request>, id: Id, startVersion: int)
    requires Good(db, startVersion)
    ensures ServeAll(db, requests).claims.Keys == db.claims.Keys
    ensures id in db.claims && !IsBlocking(db.claims[id]) ==> ServeAll(db, requests).claims[id] == db.claims[id]
  {
    if requests != [] {
      var front, last := requests[..|requests| - 1], requests[|requests| - 1];
      VerdictsAreFinal(db, front, id, startVersion);
      RequestsKeepGood(db, front, startVersion);
      ServeCases(ServeAll(db, front), last, startVersion);
      if Applies(ServeAll(db, front), last) && IsRuling(last.decision.action) {
        RulingClosesItsTargets(ServeAll(db, front), last.decision);
      }
    }
  }

  // ---------------------------------------------------------------- progress

  lemma {:induction false} SubsetIsSmaller<T>(a: set<T>, b: set<T>)
    requires a < b
    ensures |a| < |b|
  {
    var x :| x in b && x !in a;
    SubsetIsNoLarger(a, b - {x});
  }

  lemma {:induction false} SubsetIsNoLarger<T>(a: set<T>, b: set<T>)
    requires a <= b
    ensures |a| <= |b|
  {
    if x :| x in a { SubsetIsNoLarger(a - {x}, b - {x}); }
  }

  predicate Rules(d: Decision) {
    IsRuling(d.action)
  }

  predicate UnderReview(db: Db) {
    db.status == HumanReview || db.status == Rework
  }

  lemma {:induction false} Progress(db: Db, r: Request, startVersion: int)
    requires Good(db, startVersion)
    ensures Blocking(Serve(db, r).claims) <= Blocking(db.claims)
    ensures Applies(db, r) && IsRuling(r.decision.action) ==> |Blocking(Serve(db, r).claims)| < |Blocking(db.claims)|
    ensures !Applies(db, r) || !IsRuling(r.decision.action) ==> Serve(db, r).claims == db.claims
    ensures UnderReview(db)
            ==> UnderReview(Serve(db, r)) || (Serve(db, r).status == Completed && Blocking(Serve(db, r).claims) == {})
  {
    ServeCases(db, r, startVersion);
    if Applies(db, r) && IsRuling(r.decision.action) {
      RulingClosesItsTargets(db, r.decision);
      SubsetIsSmaller(Blocking(Serve(db, r).claims), Blocking(db.claims));
    }
  }

  /** A run that has stopped, other than for review, never changes again. */
  lemma {:induction false} StoppedRunsStay(db: Db, requests: seq<Request>)
    requires db.status in STOPPED && !UnderReview(db)
    ensures ServeAll(db, requests) == db
  {
    if requests != [] { StoppedRunsStay(db, requests[..|requests| - 1]); }
  }

  /** A run under review stays there or completes, and completes exactly when nothing is left undecided. Every
      ruling that takes effect uses up at least one undecided claim, and as many as there are finish the run. */
  lemma {:induction false} RulingsFinishTheRun(db: Db, requests: seq<Request>, startVersion: int)
    requires Good(db, startVersion) && UnderReview(db)
    ensures var after, n := ServeAll(db, requests), HowOften(db, requests, Rules);
            && (UnderReview(after) || after.status == Completed)
            && (after.status == Completed <==> Blocking(after.claims) == {})
            && n + |Blocking(after.claims)| <= |Blocking(db.claims)|
            && (n == |Blocking(db.claims)| ==> after.status == Completed)
  {
    RequestsKeepGood(db, requests, startVersion);
    if requests != [] {
      var front, last := requests[..|requests| - 1], requests[|requests| - 1];
      RulingsFinishTheRun(db, front, startVersion);
      RequestsKeepGood(db, front, startVersion);
      Progress(ServeAll(db, front), last, startVersion);
      if ServeAll(db, front).status == Completed { StoppedRunsStay(ServeAll(db, front), [last]); }
    }
  }

  /** In every reachable state: a report exists exactly if the run is completed, it is the only one, it shows exactly
      the audited and human-approved claims, and nothing is left undecided unless no human decided and a failed
      non-core artifact carries claims. No later request changes any of it. */
  lemma {:induction false} ReportExactlyWhenCompleted(
      script: Script, startVersion: int, freshWriter: bool, commitEachStage: bool, k: nat, requests: seq<Request>,
      later: seq<Request>)
    requires k <= |ReviewPlan(script).acts|
    ensures var db := Reached(script, startVersion, freshWriter, commitEachStage, k, requests);
            && (db.reports != [] <==> db.status == Completed)
            && (db.status == Completed ==>
                  && |db.reports| == 1 && db.reports[0].claims == Reportable(db.claims)
                  && (Blocking(db.claims) != {} <==> db.decisions == map[] && PassedOverIds(db.artifacts) != {})
                  && ServeAll(db, later) == db)
  {
    var db := Reached(script, startVersion, freshWriter, commitEachStage, k, requests);
    ReachableIsGood(script, startVersion, freshWriter, commitEachStage, k, requests);
    if db.status == Completed { StoppedRunsStay(db, later); }
  }

  /** What the report of a completed run says: it is the first version, shows exactly the claims that are audited or
      approved by a human, counts all others as excluded, and is an approved draft exactly if a human decided. */
  lemma {:induction false} ReportSaysExactly(
      script: Script, startVersion: int, freshWriter: bool, commitEachStage: bool, k: nat, requests: seq<Request>,
      id: Id)
    requires k <= |ReviewPlan(script).acts|
    ensures var db := Reached(script, startVersion, freshWriter, commitEachStage, k, requests);
            db.status == Completed ==>
              && |db.reports| == 1
              && (id in db.reports[0].claims <==> id in db.claims && db.claims[id] in {Audited, HumanApproved})
              && db.reports[0].excluded == |db.claims| - |db.reports[0].claims| && db.reports[0].versionNo == 1
              && db.reports[0].status == (if db.decisions == map[] then VerifiedDraft else ApprovedDraft)
  {
    ReachableIsGood(script, startVersion, freshWriter, commitEachStage, k, requests);
    var db := Reached(script, startVersion, freshWriter, commitEachStage, k, requests);
    if db.status == Completed { SaysExactly(db, startVersion, id); }
  }

  lemma {:induction false} SaysExactly(db: Db, startVersion: int, id: Id)
    requires Good(db, startVersion) && db.status == Completed
    ensures && |db.reports| == 1
            && (id in db.reports[0].claims <==> id in db.claims && db.claims[id] in {Audited, HumanApproved})
            && db.reports[0].excluded == |db.claims| - |db.reports[0].claims| && db.reports[0].versionNo == 1
            && db.reports[0].status == (if db.decisions == map[] then VerifiedDraft else ApprovedDraft)
  {
  }

  lemma {:induction false} ParsedTargetsAreOpen(claims: map<Id, ReviewStatus>, targets: seq<RawId>)
    requires forall t :: t in targets ==> t.parsed.Some?
    requires forall id :: id in TargetIds(targets) ==> id in Blocking(claims)
    ensures TargetsOpen(claims, targets)
  {
    if targets != [] {
      var first, rest := targets[0], targets[1..];
      assert first in targets && TargetIds(targets)[0] == first.parsed.value;
      assert first.parsed.value in Blocking(claims);
      assert forall id :: id in TargetIds(rest) ==> id in TargetIds(targets);
      ParsedTargetsAreOpen(claims, rest);
      assert forall t :: t in targets ==> t == first || t in rest;
    }
  }

  /** Review never gets stuck: one approval of everything undecided, under a new key and the current version,
      completes the run. */
  lemma {:induction false} ReviewCanAlwaysFinish(db: Db, d: Decision, startVersion: int)
    requires Good(db, startVersion) && UnderReview(db)
    requires d.action == ApproveClaim && Truthy(d.idempotencyKey) && d.idempotencyKey.value !in db.decisions
    requires Expects(d, db.version)
    requires (forall t :: t in d.targets ==> t.parsed.Some?) && (set id | id in Ids(d)) == Blocking(db.claims)
    ensures Resume(db, d, false).0.status == Completed
  {
    assert forall id :: id in Ids(d) ==> id in Blocking(db.claims);
    ParsedTargetsAreOpen(db.claims, d.targets);
    RulingClosesItsTargets(db, d);
    AdmittedTakesEffect(db, d, false, startVersion);
  }

  /** In a log that reads back, nothing follows COMPLETED or FAILED: later events leave the status alone. */
  lemma {:induction false} EndsAreFinalInTheLog(events: seq<Event>, i: nat)
    requires i <= |events| && ReplayLog(events).Some?
    ensures ReplayLog(events[..i]).Some?
    ensures ReplayLog(events[..i]).value in {Completed, RunFailed, Denied, NeedMoreInfo, DataQualityBlocked}
            ==> ReplayLog(events) == ReplayLog(events[..i])
  {
    if i < |events| {
      EndsAreFinalInTheLog(events[..|events| - 1], i);
      assert events[..|events| - 1][..i] == events[..i];
    } else {
      assert events[..i] == events;
    }
  }
}
