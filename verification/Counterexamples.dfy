/** Runs from an empty deployment in which the code does less than its
    documentation says: a retry that holds back a first attempt, a released
    probe that leaves its endpoint stuck, and a replay that is delivered after
    its secret retired. */
module Counterexamples {
  import opened Base
  import opened Types
  import opened TokenBucket
  import opened RetryPolicy
  import opened Scheduler
  import opened Selection
  import opened Platform
  import opened Admission
  import opened Machine
  import opened Rows
  import opened Claims
  import opened LeaseSafety
  import opened Integrity
  import opened Endpoints
  import opened CircuitBreaker
  import opened Invariant
  import Candidates
  import opened FirstAttempts
  import opened StuckProbes
  import opened LoneClaims
  import opened Scenarios

  // ---- failing attempts of the first delivery at time zero ------------------------------

  /** The first delivery is queued after some failed attempts, nothing else is
      there, and the endpoint row is `e`. */
  ghost predicate Failing(s: State, attempts: nat, e: Runtime) {
    && s.now == 0.0 && s.projects == map[1 := 0] && s.endpoints == map[2 := HOOK] && s.runtime == map[2 := e]
    && s.events == map[3 := NewEvent(Post("a"), 0.0)] && s.deliveries.Keys == {4}
    && s.nextId == 5 && s.nextToken == attempts
    && QueuedRow(s.deliveries[4], attempts)
    && 0 in s.tenants && FullPurse(s.tenants[0])
  }

  predicate QueuedRow(d: Delivery, attempts: nat) {
    && d.org == 0 && d.event == 3 && d.endpoint == 2 && d.snapshot == SnapshotOf(HOOK)
    && Queued(d.status) && d.attemptCount == attempts && d.nextAttemptAt == 0.0 && d.createdAt == 0.0
    && d.leaseToken.None?
  }

  predicate FullPurse(t: Tenant) {
    && t.eventTokens == 3.0 && t.eventRefilledAt == 0.0
    && t.deliveryTokens == 3.0 && t.deliveryRefilledAt == 0.0
    && t.replayTokens == 4.0 && t.replayRefilledAt == 0.0
  }

  /** Tokens of an endpoint row last refilled at time zero. */
  predicate RowAtZero(e: Runtime) {
    && 1.0 <= e.deliveryTokens <= 4.0 && e.refilledAt == 0.0
    && 0.0 <= e.retryTokens <= 1.0 && e.retryRefilledAt == 0.0
    && e.circuit.Closed? && e.pausedAt.None? && e.probe.None?
  }

  const FAILED := AttemptResult(false, true, Some(503), Some("retryable_http_status"), None)

  function AfterFailure(c: Settings, e: Runtime, attempts: nat): Runtime {
    FinalizedRuntime(c, Charge(e, Candidate(4, 0, 2, attempts > 0)), 4, FAILED, 0.0)
  }

  lemma RefilledAtZero(n: nat, e: Runtime)
    requires n >= 1 && ValidSettings(Small(n)) && RowAtZero(e)
    ensures Refilled(Small(n), e, 0.0) == e
  {
  }

  lemma FailedReply(n: nat, k: Claim)
    requires n >= 1 && k.createdAt == 0.0 && k.snapshot == SnapshotOf(HOOK)
    ensures PerformAttempt(Small(n), k, 0.0, Reply(503)) == FAILED
  {
  }

  lemma FailedRow(n: nat, d: Delivery, attempts: nat, k: Claim, token: nat)
    requires n >= 1 && QueuedRow(d, attempts) && attempts < 4 && k.attemptNumber == attempts + 1
    ensures QueuedRow(FinalizedRow(Small(n), ClaimedRow(Small(n), d, 0.0, token), k, FAILED, 0.0, 0.0, 0.0), attempts + 1)
  {
  }

  lemma FailingAgain(s: State, t: State, attempts: nat, e: Runtime, row: Delivery, f: Runtime)
    requires Failing(s, attempts, e) && QueuedRow(row, attempts + 1)
    requires t == s.(deliveries := s.deliveries[4 := row], runtime := s.runtime[2 := f], tenants := t.tenants,
                     cursor := t.cursor, issued := t.issued, nextToken := s.nextToken + 1)
    requires t.tenants == s.tenants[0 := s.tenants[0].(endpointCursor := Some(2))]
    ensures Failing(t, attempts + 1, f)
  {
    assert t.runtime == map[2 := f];
  }

  lemma FailedOnce(n: nat, s: State, attempts: nat, e: Runtime)
    requires n >= 1 && ValidSettings(Small(n)) && Failing(s, attempts, e) && attempts < 4 && RowAtZero(e)
    ensures CanSend(s, 4) && Failing(Attempted(Small(n), s, 4, 503), attempts + 1, AfterFailure(Small(n), e, attempts))
  {
    var c, k, d := Small(n), ClaimOf(s, 4, s.nextToken), s.deliveries[4];
    RefilledAtZero(n, e);
    AttemptedIs(c, s, 4, 503);
    FailedReply(n, k);
    FailedRow(n, d, attempts, k, s.nextToken);
    FailingAgain(s, Attempted(c, s, 4, 503), attempts, e,
                 FinalizedRow(c, ClaimedRow(c, d, 0.0, s.nextToken), k, FAILED, 0.0, 0.0, 0.0),
                 AfterFailure(c, e, attempts));
  }

  lemma FailHappens(n: nat, steps: seq<Step>, s: State, attempts: nat, e: Runtime)
    requires n >= 1 && ValidSettings(Small(n)) && Failing(s, attempts, e) && RowAtZero(e)
    requires attempts > 0 ==> e.retryTokens >= 1.0
    requires Reaches(Small(n), steps, s)
    ensures CanSend(s, 4)
    ensures Reaches(Small(n), steps + AttemptSteps(s, [4], 503), Attempted(Small(n), s, 4, 503))
  {
    RefilledAtZero(n, e);
    assert LiveIds(s) == {};
    AttemptHappens(Small(n), steps, s, [4], 503);
  }

  lemma StartFailing(n: nat)
    requires n >= 1 && ValidSettings(Small(n))
    ensures Failing(OnePosted(Small(n)), 0, FreshRuntime(Small(n), 0.0))
  {
  }

  /** A second event for the same endpoint. */
  function SecondPosted(s: State): State
    requires 0 in s.tenants
  {
    Posted(s, "b", Paid(s.tenants[0]))
  }

  lemma SecondPost(n: nat, steps: seq<Step>, s: State, attempts: nat, e: Runtime)
    requires n >= 1 && ValidSettings(Small(n)) && Failing(s, attempts, e) && Reaches(Small(n), steps, s)
    ensures Reaches(Small(n), steps + [PostStep("b")], SecondPosted(s))
  {
    PostStored(Small(n), n, s, "b", s.tenants[0]);
    Then(Small(n), steps, s, PostStep("b"));
  }

  // ---- a retry holds back a first attempt -----------------------------------------------

  const HELD_CONFIG := Small(3)

  function Failed1(): State { Attempted(HELD_CONFIG, OnePosted(HELD_CONFIG), 4, 503) }

  function HeldRun(): seq<Step> {
    SetupRun() + [PostStep("a")] + AttemptSteps(OnePosted(HELD_CONFIG), [4], 503) + AttemptSteps(Failed1(), [4], 503)
    + [PostStep("b")]
  }

  const FAILED_ONCE := Runtime(3.0, 0.0, 1.0, 0.0, Closed, 1, None, None, None)

  const FAILED_TWICE := Runtime(2.0, 0.0, 0.0, 0.0, Closed, 2, None, None, None)

  lemma FailureRows()
    ensures AfterFailure(HELD_CONFIG, FreshRuntime(HELD_CONFIG, 0.0), 0) == FAILED_ONCE
    ensures AfterFailure(HELD_CONFIG, FAILED_ONCE, 1) == FAILED_TWICE
  {
  }

  lemma FirstFailure()
    ensures ValidSettings(HELD_CONFIG) && CanSend(OnePosted(HELD_CONFIG), 4) && Failing(Failed1(), 1, FAILED_ONCE)
    ensures Reaches(HELD_CONFIG, SetupRun() + [PostStep("a")] + AttemptSteps(OnePosted(HELD_CONFIG), [4], 503), Failed1())
  {
    var c, e := HELD_CONFIG, FreshRuntime(HELD_CONFIG, 0.0);
    SmallIsValid(3);
    FirstPost(3);
    StartFailing(3);
    FailHappens(3, SetupRun() + [PostStep("a")], OnePosted(c), 0, e);
    FailedOnce(3, OnePosted(c), 0, e);
    FailureRows();
  }

  lemma HeldRunReaches() returns (s: State)
    ensures ValidSettings(HELD_CONFIG) && Failing(s, 2, FAILED_TWICE)
    ensures Reaches(HELD_CONFIG, HeldRun(), SecondPosted(s))
  {
    FirstFailure();
    var steps := SetupRun() + [PostStep("a")] + AttemptSteps(OnePosted(HELD_CONFIG), [4], 503);
    FailHappens(3, steps, Failed1(), 1, FAILED_ONCE);
    FailedOnce(3, Failed1(), 1, FAILED_ONCE);
    FailureRows();
    s := Attempted(HELD_CONFIG, Failed1(), 4, 503);
    SecondPost(3, steps + AttemptSteps(Failed1(), [4], 503), s, 2, FAILED_TWICE);
  }

  lemma {:induction false} RetryInFront(s: State, ids: seq<nat>, i: nat, key: Key)
    requires AllRows(s, ids) && i < |ids| && ids[i] in s.deliveries
    requires KeyOf(s, ids[i]) == key && s.deliveries[ids[i]].attemptCount > 0
    ensures RetriesListed(s, ids, key) >= 1
    decreases |ids|
  {
    if i < |ids| - 1 { RetryInFront(s, ids[..|ids| - 1], i, key); }
  }

  /** Behind a retry, without a retry token, nothing is taken. */
  lemma NoTokenNoTurn(c: Settings, s: State, limit: nat, ids: seq<nat>, i: nat, j: nat)
    requires ValidSettings(c) && CanWork(c, s, ClaimWork(limit, ids)) && FreeSlots(c, s, limit) > 0
    requires i < j < |ids| && ids[i] in s.deliveries && ids[j] in s.deliveries && KeyOf(s, ids[i]) == KeyOf(s, ids[j])
    requires s.deliveries[ids[i]].attemptCount > 0 && TokensAtStart(c, s, s.deliveries[ids[j]].endpoint) < 1.0
    ensures CandidateOf(s, ids[j]) !in Chosen(c, s, limit, ids).selected
  {
    if CandidateOf(s, ids[j]) in Chosen(c, s, limit, ids).selected {
      var upTo := ids[..j + 1];
      assert forall id :: id in upTo ==> id in ids;
      assert upTo[i] == ids[i];
      TakenIsCovered(c, s, limit, ids, j);
      RetryInFront(s, upTo, i, KeyOf(s, ids[j]));
    }
  }

  /** The untried delivery `id` is due on an idle endpoint that is open for
      business, and no claim that lists `w` before it takes it. */
  ghost predicate HeldBack(c: Settings, s: State, w: nat, id: nat)
    requires ValidSettings(c)
  {
    && w in s.deliveries && id in s.deliveries && Due(s.deliveries[id], s.now) && s.deliveries[id].attemptCount == 0
    && s.deliveries[id].endpoint in s.runtime && RowAtZero(s.runtime[s.deliveries[id].endpoint]) && LiveIds(s) == {}
    && forall limit: nat, ids: seq<nat> :: CanWork(c, s, ClaimWork(limit, ids)) && ListedBehind(ids, w, id) ==>
         forall d :: d in Leased(c, s, OnWork(ClaimWork(limit, ids))) ==> d.id != id
  }

  lemma NeverChosen(c: Settings, s: State, w: nat, id: nat, limit: nat, ids: seq<nat>)
    requires ValidSettings(c) && CanWork(c, s, ClaimWork(limit, ids)) && ListedBehind(ids, w, id)
    requires FreeSlots(c, s, limit) > 0
    requires w in s.deliveries && id in s.deliveries && KeyOf(s, w) == KeyOf(s, id)
    requires s.deliveries[w].attemptCount > 0 && TokensAtStart(c, s, s.deliveries[id].endpoint) < 1.0
    ensures forall d :: d in Chosen(c, s, limit, ids).selected ==> d.id != id
  {
    ChosenRows(c, s, limit, ids);
    if id in ids {
      var i, j :| 0 <= i < j < |ids| && ids[i] == w && ids[j] == id;
      NoTokenNoTurn(c, s, limit, ids, i, j);
    }
  }

  lemma NeverTaken(c: Settings, s: State, w: nat, id: nat, limit: nat, ids: seq<nat>)
    requires ValidSettings(c) && CanWork(c, s, ClaimWork(limit, ids)) && ListedBehind(ids, w, id)
    requires w in s.deliveries && id in s.deliveries && KeyOf(s, w) == KeyOf(s, id)
    requires s.deliveries[w].attemptCount > 0 && TokensAtStart(c, s, s.deliveries[id].endpoint) < 1.0
    ensures forall d :: d in Leased(c, s, OnWork(ClaimWork(limit, ids))) ==> d.id != id
  {
    if ClaimCommits(c, s, limit, ids) { NeverChosen(c, s, w, id, limit, ids); }
  }

  lemma HeldBackAtLast(n: nat, s: State, e: Runtime)
    requires n >= 1 && ValidSettings(Small(n)) && Failing(s, 2, e) && RowAtZero(e) && e.retryTokens < 1.0
    ensures HeldBack(Small(n), SecondPosted(s), 4, 6)
  {
    var c, t := Small(n), SecondPosted(s);
    assert LiveIds(t) == {};
    RefilledAtZero(n, e);
    forall limit: nat, ids: seq<nat> | CanWork(c, t, ClaimWork(limit, ids)) && ListedBehind(ids, 4, 6)
      ensures forall d :: d in Leased(c, t, OnWork(ClaimWork(limit, ids))) ==> d.id != 6
    {
      NeverTaken(c, t, 4, 6, limit, ids);
    }
  }

  /** A run that ends with an untried delivery held back by the retry in front of
      it, in any list the candidate query can give. */
  lemma FirstAttemptIsHeldBack()
    ensures ValidSettings(HELD_CONFIG) && IsRun(HELD_CONFIG, EMPTY, HeldRun())
    ensures var t := After(HELD_CONFIG, EMPTY, HeldRun());
            && HeldBack(HELD_CONFIG, t, 4, 6)
            && forall scan: nat, perTenant: nat ::
                 ListedBehind(Candidates.FairCandidateIds(t, scan, perTenant), 4, 6)
  {
    var s := HeldRunReaches();
    HeldBackAtLast(3, s, FAILED_TWICE);
    var t := SecondPosted(s);
    forall scan: nat, perTenant: nat ensures ListedBehind(Candidates.FairCandidateIds(t, scan, perTenant), 4, 6) {
      QueryListsBehind(t, scan, perTenant, 4, 6);
    }
  }

  // ---- a released probe leaves its endpoint stuck ------------------------------------------

  const STUCK_CONFIG := Small(1)

  function StuckRun(): seq<Step> {
    SetupRun() + [PostStep("a")] + AttemptSteps(OnePosted(STUCK_CONFIG), [4], 503)
    + [PostStep("b")] + [Clock(10.0)] + [OnWork(ClaimWork(1, [4, 6]))] + [OnWork(ReleaseClaim(1))]
  }

  const OPENED := Runtime(3.0, 0.0, 1.0, 0.0, Open, 1, Some(10.0), None, None)

  const PROBING := Runtime(3.0, 10.0, 0.0, 10.0, HalfOpen, 1, None, Some(4), None)

  ghost predicate Reopening(s: State) {
    && s.now == 10.0 && s.runtime == map[2 := OPENED] && s.deliveries.Keys == {4, 6}
    && QueuedRow(s.deliveries[4], 1)
    && s.deliveries[6] == NewDelivery(0, 5, 2, None, SnapshotOf(HOOK), 0.0)
    && 3 in s.events && s.events[3].envelope.Some? && s.nextToken == 1
  }

  lemma ReopeningReached() returns (s: State)
    ensures ValidSettings(STUCK_CONFIG) && Reopening(s)
    ensures Reaches(STUCK_CONFIG, SetupRun() + [PostStep("a")] + AttemptSteps(OnePosted(STUCK_CONFIG), [4], 503)
                                  + [PostStep("b")] + [Clock(10.0)], s)
  {
    var c, e0 := STUCK_CONFIG, FreshRuntime(STUCK_CONFIG, 0.0);
    SmallIsValid(1);
    FirstPost(1);
    StartFailing(1);
    FailHappens(1, SetupRun() + [PostStep("a")], OnePosted(c), 0, e0);
    FailedOnce(1, OnePosted(c), 0, e0);
    CircuitOpens();
    var failed := Attempted(c, OnePosted(c), 4, 503);
    s := SecondPosted(failed).(now := 10.0);
    TimePasses(SetupRun() + [PostStep("a")] + AttemptSteps(OnePosted(c), [4], 503), failed);
  }

  lemma CircuitOpens()
    ensures AfterFailure(STUCK_CONFIG, FreshRuntime(STUCK_CONFIG, 0.0), 0) == OPENED
  {
  }

  lemma TimePasses(steps: seq<Step>, s: State)
    requires ValidSettings(STUCK_CONFIG) && Failing(s, 1, OPENED) && Reaches(STUCK_CONFIG, steps, s)
    ensures Reaches(STUCK_CONFIG, steps + [PostStep("b")] + [Clock(10.0)], SecondPosted(s).(now := 10.0))
    ensures Reopening(SecondPosted(s).(now := 10.0))
  {
    SecondPost(1, steps, s, 1, OPENED);
    Then(STUCK_CONFIG, steps + [PostStep("b")], SecondPosted(s), Clock(10.0));
  }

  lemma ProbeStarts(s: State)
    requires ValidSettings(STUCK_CONFIG) && Reopening(s)
    ensures Refilled(STUCK_CONFIG, OPENED, 10.0) == OPENED.(deliveryTokens := 4.0, refilledAt := 10.0, retryRefilledAt := 10.0)
    ensures CanSend(s, 4) && OneLeased(STUCK_CONFIG, s, 4).runtime == map[2 := PROBING]
  {
    assert Refilled(STUCK_CONFIG, OPENED, 10.0)
        == OPENED.(deliveryTokens := 4.0, refilledAt := 10.0, retryRefilledAt := 10.0);
  }

  lemma ProbeClaimed(steps: seq<Step>, s: State)
    requires ValidSettings(STUCK_CONFIG) && Reopening(s) && Reaches(STUCK_CONFIG, steps, s)
    ensures CanSend(s, 4) && Reaches(STUCK_CONFIG, steps + [OnWork(ClaimWork(1, [4, 6]))], OneLeased(STUCK_CONFIG, s, 4))
  {
    ProbeStarts(s);
    assert LiveIds(s) == {};
    ClaimHappens(STUCK_CONFIG, steps, s, [4, 6]);
  }

  lemma ProbeReleased(s: State)
    requires ValidSettings(STUCK_CONFIG) && Reopening(s) && CanSend(s, 4)
    ensures Stuck(Release(OneLeased(STUCK_CONFIG, s, 4), ClaimOf(s, 4, 1)), 2, 4, 6)
  {
    var t := OneLeased(STUCK_CONFIG, s, 4);
    ProbeStarts(s);
    assert LiveOfEndpoint(t, 2) <= {4};
    ReleaseSticks(t, ClaimOf(s, 4, 1), 6);
  }

  /** A run that ends with a release and a stuck endpoint. */
  lemma ReleaseLeavesStuck()
    ensures ValidSettings(STUCK_CONFIG) && IsRun(STUCK_CONFIG, EMPTY, StuckRun())
    ensures Stuck(After(STUCK_CONFIG, EMPTY, StuckRun()), 2, 4, 6)
  {
    var s := ReopeningReached();
    var steps := SetupRun() + [PostStep("a")] + AttemptSteps(OnePosted(STUCK_CONFIG), [4], 503)
                 + [PostStep("b")] + [Clock(10.0)];
    ProbeClaimed(steps, s);
    ProbeReleased(s);
    Then(STUCK_CONFIG, steps + [OnWork(ClaimWork(1, [4, 6]))], OneLeased(STUCK_CONFIG, s, 4), OnWork(ReleaseClaim(1)));
  }

  // ---- a replay is delivered after its secret retired --------------------------------------

  const REPLAY_CONFIG := Small(3)

  /** The first delivery succeeded at time zero. */
  ghost predicate Delivered(s: State) {
    && s.now == 0.0 && s.projects == map[1 := 0] && s.endpoints == map[2 := HOOK] && s.runtime == map[2 := FINISHED]
    && s.versions == map[(2, 1) := SecretVersion(0.0, None)]
    && s.events == map[3 := NewEvent(Post("a"), 0.0)] && s.deliveries.Keys == {4}
    && s.nextId == 5 && s.nextToken == 1
    && DoneRow(s.deliveries[4]) && 0 in s.tenants && FullPurse(s.tenants[0])
  }

  const FINISHED := Runtime(3.0, 0.0, 1.0, 0.0, Closed, 0, None, None, None)

  predicate DoneRow(d: Delivery) {
    d.org == 0 && d.event == 3 && d.endpoint == 2 && d.snapshot == SnapshotOf(HOOK) && d.status.Succeeded?
  }

  const SUCCEEDED := AttemptResult(true, false, Some(200), None, None)

  lemma SucceededReply(k: Claim, now: real)
    requires k.snapshot == SnapshotOf(HOOK) && now - k.createdAt < 100.0
    ensures PerformAttempt(REPLAY_CONFIG, k, now, Reply(200)) == SUCCEEDED
  {
  }

  lemma SuccessReached()
    ensures ValidSettings(REPLAY_CONFIG) && CanSend(OnePosted(REPLAY_CONFIG), 4)
    ensures Reaches(REPLAY_CONFIG, SuccessRun(REPLAY_CONFIG), Attempted(REPLAY_CONFIG, OnePosted(REPLAY_CONFIG), 4, 200))
    ensures Delivered(Attempted(REPLAY_CONFIG, OnePosted(REPLAY_CONFIG), 4, 200))
  {
    SmallIsValid(3);
    FirstAttempt(3, 200);
    StartFailing(3);
    RefilledAtZero(3, FreshRuntime(REPLAY_CONFIG, 0.0));
    AttemptedIs(REPLAY_CONFIG, OnePosted(REPLAY_CONFIG), 4, 200);
    SucceededReply(ClaimOf(OnePosted(REPLAY_CONFIG), 4, 0), 0.0);
  }

  function RotatedThenLater(s: State): State { RotateSecret(REPLAY_CONFIG, s, 2).(now := 100.0) }

  function Replaying(s: State): State
    requires 4 in s.deliveries && 0 in s.tenants
  {
    CopySources(s, [4], 0, Replayed1(s.tenants[0])).(now := 150.0)
  }

  function Replayed1(t: Tenant): Tenant {
    t.(replayTokens := 3.0, replayRefilledAt := 100.0, deliveryTokens := 3.0, deliveryRefilledAt := 100.0)
  }

  lemma ReplayAdmitted(s: State)
    requires ValidSettings(REPLAY_CONFIG) && Delivered(s)
    ensures var t := RotatedThenLater(s);
            AdmitReplays(REPLAY_CONFIG, t, 0, 1) == Admitted(Replayed1(t.tenants[0]))
  {
    var t := RotatedThenLater(s);
    assert Backlog(t) == {};
    ReplayAdmittedIff(REPLAY_CONFIG, t, 0, 1);
  }

  lemma SourceReady(s: State)
    requires Delivered(s)
    ensures AllSources(RotatedThenLater(s), 1, false, [4])
  {
    var t := RotatedThenLater(s);
    assert t.versions[(2, 1)].retireAt == Some(110.0);
    assert IsSource(t, 1, false, 4);
  }

  lemma ReplayHappens(s: State)
    requires ValidSettings(REPLAY_CONFIG) && Delivered(s)
    ensures var t := RotatedThenLater(s);
            && t.projects == map[1 := 0]
            && Replay(REPLAY_CONFIG, t, 1, [4], false) == CopySources(t, [4], 0, Replayed1(t.tenants[0]))
  {
    ReplayAdmitted(s);
    SourceReady(s);
  }

  /** The replay of the first delivery is queued, and the version it signs with
      is already retired. */
  ghost predicate ReplayQueued(s: State) {
    && s.now == 150.0 && s.runtime == map[2 := FINISHED] && s.deliveries.Keys == {4, 5}
    && DoneRow(s.deliveries[4])
    && s.deliveries[5] == NewDelivery(0, 3, 2, Some(4), SnapshotOf(HOOK), 100.0)
    && 3 in s.events && s.events[3].envelope.Some?
    && (2, 1) in s.versions && s.versions[(2, 1)].retireAt == Some(110.0)
  }

  lemma RotatedFacts(s: State)
    requires Delivered(s)
    ensures var t := RotatedThenLater(s);
            && t == s.(now := 100.0, versions := t.versions, endpoints := t.endpoints)
            && (2, 1) in t.versions && t.versions[(2, 1)].retireAt == Some(110.0)
  {
  }

  lemma OneCopy(s: State)
    requires 4 in s.deliveries
    ensures Replayed(s, [4], 1) == s.deliveries[s.nextId := ReplayCopy(4, s.deliveries[4], s.now)]
  {
    assert Replayed(s, [4], 0) == s.deliveries;
  }

  lemma ReplayIsQueued(s: State)
    requires Delivered(s)
    ensures ReplayQueued(Replaying(RotatedThenLater(s)))
  {
    RotatedFacts(s);
    OneCopy(RotatedThenLater(s));
  }

  function ReplaySteps(): seq<Step> {
    [OnSetup(RotateEndpointSecret(2))] + [Clock(100.0)] + [OnIntake(ReplayDeliveries(1, [4], false))] + [Clock(150.0)]
  }

  lemma ReplayReached(steps: seq<Step>, s: State)
    requires ValidSettings(REPLAY_CONFIG) && Delivered(s) && Reaches(REPLAY_CONFIG, steps, s)
    ensures Reaches(REPLAY_CONFIG, steps + ReplaySteps(), Replaying(RotatedThenLater(s)))
  {
    var c := REPLAY_CONFIG;
    var rotate, replay := OnSetup(RotateEndpointSecret(2)), OnIntake(ReplayDeliveries(1, [4], false));
    var s1, s2 := RotateSecret(c, s, 2), RotatedThenLater(s);
    Then(c, steps, s, rotate);
    Then(c, steps + [rotate], s1, Clock(100.0));
    ReplayHappens(s);
    Then(c, steps + [rotate] + [Clock(100.0)], s2, replay);
    Then(c, steps + [rotate] + [Clock(100.0)] + [replay], Replay(c, s2, 1, [4], false), Clock(150.0));
    assert steps + [rotate] + [Clock(100.0)] + [replay] + [Clock(150.0)] == steps + ReplaySteps();
  }

  lemma RefilledLater(e: Runtime)
    requires ValidSettings(REPLAY_CONFIG) && e == FINISHED
    ensures Refilled(REPLAY_CONFIG, e, 150.0)
         == FINISHED.(deliveryTokens := 4.0, refilledAt := 150.0, retryRefilledAt := 150.0)
  {
  }

  lemma LateAttempt(steps: seq<Step>, s: State)
    requires ValidSettings(REPLAY_CONFIG) && ReplayQueued(s) && Reaches(REPLAY_CONFIG, steps, s)
    ensures CanSend(s, 5)
    ensures Reaches(REPLAY_CONFIG, steps + AttemptSteps(s, [5], 200), Attempted(REPLAY_CONFIG, s, 5, 200))
  {
    RefilledLater(FINISHED);
    assert LiveIds(s) == {};
    AttemptHappens(REPLAY_CONFIG, steps, s, [5], 200);
  }

  /** An attempt that succeeded although it started after its version retired. */
  predicate AttemptedLate(s: State, id: nat) {
    && id in s.deliveries && s.deliveries[id].status.Succeeded? && s.deliveries[id].attempts != []
    && var v := (s.deliveries[id].endpoint, s.deliveries[id].snapshot.secretVersion);
       && v in s.versions && s.versions[v].retireAt.Some?
       && s.deliveries[id].attempts[0].startedAt > s.versions[v].retireAt.value
  }

  lemma LateAttemptSucceeds(s: State)
    requires ValidSettings(REPLAY_CONFIG) && ReplayQueued(s) && CanSend(s, 5)
    ensures AttemptedLate(Attempted(REPLAY_CONFIG, s, 5, 200), 5)
  {
    AttemptedIs(REPLAY_CONFIG, s, 5, 200);
    SucceededReply(ClaimOf(s, 5, s.nextToken), 150.0);
  }

  function LateRun(): seq<Step> {
    SuccessRun(REPLAY_CONFIG) + ReplaySteps() + AttemptSteps(LateState(), [5], 200)
  }

  function LateState(): State {
    var s := Attempted(REPLAY_CONFIG, OnePosted(REPLAY_CONFIG), 4, 200);
    if 4 in s.deliveries && 0 in s.tenants then Replaying(RotatedThenLater(s)) else s
  }

  /** A run that ends with a replay delivered after its secret retired. */
  lemma ReplayAfterRetirement()
    ensures ValidSettings(REPLAY_CONFIG) && IsRun(REPLAY_CONFIG, EMPTY, LateRun())
    ensures AttemptedLate(After(REPLAY_CONFIG, EMPTY, LateRun()), 5)
  {
    SuccessReached();
    var s := Attempted(REPLAY_CONFIG, OnePosted(REPLAY_CONFIG), 4, 200);
    ReplayReached(SuccessRun(REPLAY_CONFIG), s);
    ReplayIsQueued(s);
    LateAttempt(SuccessRun(REPLAY_CONFIG) + ReplaySteps(), LateState());
    LateAttemptSucceeds(LateState());
  }
}
