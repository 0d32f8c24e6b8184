/** A run of the platform from an empty deployment, step by step, to a delivery
    that succeeds, so that the statements about all runs have an instance. */
module Scenarios {
  import opened Base
  import opened Types
  import opened TokenBucket
  import opened RetryPolicy
  import opened Scheduler
  import opened Platform
  import opened Admission
  import opened Machine
  import opened Rows
  import opened Claims
  import opened Endpoints
  import opened LoneClaims

  // ---- a small deployment ---------------------------------------------------------

  function Small(threshold: nat): Settings {
    Settings(4, 4, 4, 60.0,
             1.0, 4, 1.0, 1, 1,
             threshold, 10.0,
             5, 1.0, 10.0, 10, 100.0, 10.0,
             110.0,
             1.0, 4, 1.0, 4, 1.0, 4, 4,
             4, 2048, 10, 1000.0, 60,
             86400.0, 3600.0, 10)
  }

  lemma SmallIsValid(threshold: nat)
    requires threshold >= 1
    ensures ValidSettings(Small(threshold))
  {
  }

  const HOOK := Endpoint(1, "ep_1", "https://example.com/hook", true, Everything, 1, Legacy)

  const BODY: Bytes := [123, 125]

  function Post(key: string): Request { Request(1, key, "order.created", Native, BODY, BODY, BODY) }

  function Reply(status: int): Response { Response(Some(status), None, None, NoFailure) }

  // ---- runs grow by steps ------------------------------------------------------------

  ghost predicate Reaches(c: Settings, steps: seq<Step>, t: State)
    requires ValidSettings(c)
  {
    IsRun(c, EMPTY, steps) && After(c, EMPTY, steps) == t
  }

  lemma {:induction false} OneStepMore(c: Settings, s: State, steps: seq<Step>, step: Step)
    requires ValidSettings(c) && IsRun(c, s, steps) && Enabled(c, After(c, s, steps), step)
    ensures IsRun(c, s, steps + [step])
    ensures After(c, s, steps + [step]) == Apply(c, After(c, s, steps), step)
    decreases |steps|
  {
    var all := steps + [step];
    if steps == [] {
      assert all[1..] == [];
    } else {
      assert all[0] == steps[0] && all[1..] == steps[1..] + [step];
      OneStepMore(c, Apply(c, s, steps[0]), steps[1..], step);
    }
  }

  lemma Then(c: Settings, steps: seq<Step>, s: State, step: Step)
    requires ValidSettings(c) && Reaches(c, steps, s) && Enabled(c, s, step)
    ensures Reaches(c, steps + [step], Apply(c, s, step))
  {
    OneStepMore(c, EMPTY, steps, step);
  }

  // ---- one organization, one project, one endpoint --------------------------------------

  function SetupRun(): seq<Step> {
    [OnSetup(CreateOrganization(86400.0)), OnSetup(CreateProject(0))] +
    [OnSetup(CreateEndpoint(1, HOOK.publicId, HOOK.url, HOOK.eventTypes, HOOK.scheme))]
  }

  function Start(c: Settings): State {
    EMPTY.(orgs := map[0 := Organization(Active, 86400.0)], projects := map[1 := 0], endpoints := map[2 := HOOK],
           runtime := map[2 := FreshRuntime(c, 0.0)], versions := map[(2, 1) := SecretVersion(0.0, None)], nextId := 3)
  }

  lemma SetUp(c: Settings)
    requires ValidSettings(c)
    ensures Reaches(c, SetupRun(), Start(c))
  {
    var s1 := AddOrganization(EMPTY, 86400.0);
    var s2 := AddProject(s1, 0);
    var steps := SetupRun();
    assert steps[1..][1..] == [steps[2]] && [steps[2]][1..] == [];
    assert Apply(c, EMPTY, steps[0]) == s1 && Apply(c, s1, steps[1]) == s2;
    assert Apply(c, s2, steps[2]) == Start(c);
    assert IsRun(c, Start(c), []) && After(c, Start(c), []) == Start(c);
    assert IsRun(c, s2, [steps[2]]) && After(c, s2, [steps[2]]) == Start(c);
    assert IsRun(c, s1, steps[1..]) && After(c, s1, steps[1..]) == Start(c);
  }

  // ---- posting an event --------------------------------------------------------------------

  function Paid(t: Tenant): Tenant {
    t.(eventTokens := t.eventTokens - 1.0, deliveryTokens := t.deliveryTokens - 1.0)
  }

  /** The state after one more event with its one delivery. */
  function Posted(s: State, key: string, tenant: Tenant): State {
    s.(tenants := s.tenants[0 := tenant],
       events := s.events[s.nextId := NewEvent(Post(key), s.now)],
       deliveries := s.deliveries[s.nextId + 1 := NewDelivery(0, s.nextId, 2, None, SnapshotOf(HOOK), s.now)],
       nextId := s.nextId + 2)
  }

  lemma {:induction false} FewBytes(s: State, org: nat, n: nat)
    requires forall id :: id in s.events ==> EnvelopeBytes(s.events[id]) <= 2
    ensures RetainedBelow(s, org, n) <= 2 * n
  {
    if n > 0 { FewBytes(s, org, n - 1); }
  }

  /** The directory of `Start`, a quota row with tokens refilled now, and few
      small events and deliveries. */
  ghost predicate CanPost(s: State, t: Tenant) {
    && s.projects == map[1 := 0] && s.endpoints == map[2 := HOOK] && s.nextId <= 100
    && (forall id :: id in s.events ==> EnvelopeBytes(s.events[id]) <= 2)
    && |s.deliveries.Keys| <= 4
    && (forall id :: id in s.deliveries ==> DueAt(s.deliveries[id]) > s.now - 1000.0)
    && 1.0 <= t.eventTokens <= 4.0 && t.eventRefilledAt == s.now
    && 1.0 <= t.deliveryTokens <= 4.0 && t.deliveryRefilledAt == s.now
  }

  lemma PostAdmitted(c: Settings, n: nat, s: State, t: Tenant)
    requires n >= 1 && c == Small(n) && ValidSettings(c) && TenantRow(c, s, 0) == t && CanPost(s, t)
    ensures AdmitEvent(c, s, 0, 1, 2) == Admitted(Paid(t))
  {
    SubsetCardinality(Backlog(s), s.deliveries.Keys);
    FewBytes(s, 0, s.nextId);
    EventAdmittedIff(c, s, 0, 1, 2);
  }

  lemma OneTarget(s: State)
    requires s.endpoints == map[2 := HOOK]
    ensures Targets(s, 1, "order.created") == {2} && TargetList(s, 1, "order.created") == [2]
  {
    assert Targets(s, 1, "order.created") == {2};
    SortedSingle(2);
  }

  lemma StoredOnce(s: State, key: string, tenant: Tenant)
    requires s.projects == map[1 := 0] && s.endpoints == map[2 := HOOK]
    ensures StoreAccepted(s, Post(key), tenant, [2]) == Posted(s, key, tenant)
  {
    assert FannedOut(s, 0, s.nextId, [2], s.nextId + 1, 0) == s.deliveries;
  }

  lemma NewKey(s: State, key: string)
    requires forall id :: id in s.events ==> s.events[id].key != key
    ensures Lookup(s, Post(key)).None?
  {
    assert EventIdsWith(s, 1, key) == {};
  }

  lemma PostStored(c: Settings, n: nat, s: State, key: string, t: Tenant)
    requires n >= 1 && c == Small(n) && ValidSettings(c) && TenantRow(c, s, 0) == t && CanPost(s, t)
    requires forall id :: id in s.events ==> s.events[id].key != key
    ensures Ingest(c, s, Post(key)).0 == Posted(s, key, Paid(t))
  {
    PostAdmitted(c, n, s, t);
    OneTarget(s);
    NewKey(s, key);
    StoredOnce(s, key, Paid(t));
  }

  // ---- claiming and finishing while nothing else is in flight -----------------------------------

  lemma NoneOfThese(s: State, org: nat, ep: nat)
    requires LiveIds(s) == {}
    ensures |LiveOfOrg(s, org)| == 0 && |LiveOfEndpoint(s, ep)| == 0
  {
    assert LiveOfOrg(s, org) <= LiveIds(s) && LiveOfEndpoint(s, ep) <= LiveIds(s);
  }

  lemma ClaimAlone(c: Settings, s: State, ids: seq<nat>)
    requires ValidSettings(c) && CanWork(c, s, ClaimWork(1, ids)) && OneQueue(s, ids, 0, 2) && CanSend(s, ids[0])
    requires LiveIds(s) == {}
    requires !Blocked(c, s.now, Refilled(c, RuntimeRow(c, s, 2), s.now), 0, CandidateOf(s, ids[0]))
    ensures ClaimDue(c, s, 1, ids) == OneLeased(c, s, ids[0])
  {
    NoneOfThese(s, 0, 2);
    HeadClaimed(c, s, ids, 0, 2);
  }

  /** The state after `id` was claimed and one attempt got the given status. */
  function Attempted(c: Settings, s: State, id: nat, status: int): State
    requires ValidSettings(c) && CanSend(s, id)
  {
    Finalize(c, OneLeased(c, s, id), ClaimOf(s, id, s.nextToken), s.now, Reply(status), 0.0)
  }

  function FinishStep(s: State, status: int): Step {
    OnWork(FinishAttempt(s.nextToken, s.now, Reply(status), 0.0))
  }

  function AttemptSteps(s: State, ids: seq<nat>, status: int): seq<Step> {
    [OnWork(ClaimWork(1, ids)), FinishStep(s, status)]
  }

  lemma AttemptHappens(c: Settings, steps: seq<Step>, s: State, ids: seq<nat>, status: int)
    requires ValidSettings(c) && Reaches(c, steps, s)
    requires CanWork(c, s, ClaimWork(1, ids)) && OneQueue(s, ids, 0, 2) && CanSend(s, ids[0]) && LiveIds(s) == {}
    requires !Blocked(c, s.now, Refilled(c, RuntimeRow(c, s, 2), s.now), 0, CandidateOf(s, ids[0]))
    ensures Reaches(c, steps + AttemptSteps(s, ids, status), Attempted(c, s, ids[0], status))
  {
    ClaimHappens(c, steps, s, ids);
    FinishHappens(c, steps + [OnWork(ClaimWork(1, ids))], s, ids[0], status);
    SameSteps(steps, OnWork(ClaimWork(1, ids)), FinishStep(s, status));
  }

  lemma SameSteps(steps: seq<Step>, a: Step, b: Step)
    ensures steps + [a] + [b] == steps + [a, b]
  {
  }

  lemma ClaimHappens(c: Settings, steps: seq<Step>, s: State, ids: seq<nat>)
    requires ValidSettings(c) && Reaches(c, steps, s)
    requires CanWork(c, s, ClaimWork(1, ids)) && OneQueue(s, ids, 0, 2) && CanSend(s, ids[0]) && LiveIds(s) == {}
    requires !Blocked(c, s.now, Refilled(c, RuntimeRow(c, s, 2), s.now), 0, CandidateOf(s, ids[0]))
    ensures Reaches(c, steps + [OnWork(ClaimWork(1, ids))], OneLeased(c, s, ids[0]))
  {
    ClaimAlone(c, s, ids);
    Then(c, steps, s, OnWork(ClaimWork(1, ids)));
  }

  lemma FinishHappens(c: Settings, steps: seq<Step>, s: State, id: nat, status: int)
    requires ValidSettings(c) && CanSend(s, id) && Reaches(c, steps, OneLeased(c, s, id))
    ensures Reaches(c, steps + [FinishStep(s, status)], Attempted(c, s, id, status))
  {
    Then(c, steps, OneLeased(c, s, id), FinishStep(s, status));
  }

  /** What the attempt did, if the row was not in flight. */
  lemma AttemptedIs(c: Settings, s: State, id: nat, status: int)
    requires ValidSettings(c) && CanSend(s, id)
    ensures var d := s.deliveries[id];
            var k := ClaimOf(s, id, s.nextToken);
            var e := Charge(Elapse(Refilled(c, RuntimeRow(c, s, d.endpoint), s.now)), CandidateOf(s, id));
            var r := PerformAttempt(c, k, s.now, Reply(status));
            Attempted(c, s, id, status) == OneLeased(c, s, id).(
              deliveries := s.deliveries[id :=
                FinalizedRow(c, ClaimedRow(c, d, s.now, s.nextToken), k, r, s.now, s.now, 0.0)],
              runtime := s.runtime[d.endpoint := FinalizedRuntime(c, e, id, r, s.now)])
  {
    var t := OneLeased(c, s, id);
    var k := ClaimOf(s, id, s.nextToken);
    assert HoldsLive(t, k);
    assert t.deliveries[id] == ClaimedRow(c, s.deliveries[id], s.now, s.nextToken);
  }

  // ---- a delivery that succeeds -----------------------------------------------------------------

  function PostStep(key: string): Step { OnIntake(IngestEvent(Post(key))) }

  function OnePosted(c: Settings): State { Posted(Start(c), "a", Paid(FreshTenant(c, 0.0))) }

  lemma FirstPost(n: nat)
    requires n >= 1 && ValidSettings(Small(n))
    ensures Reaches(Small(n), SetupRun() + [PostStep("a")], OnePosted(Small(n)))
  {
    var c := Small(n);
    SetUp(c);
    PostStored(c, n, Start(c), "a", FreshTenant(c, 0.0));
    Then(c, SetupRun(), Start(c), PostStep("a"));
  }

  function SuccessRun(c: Settings): seq<Step> {
    SetupRun() + [PostStep("a")] + AttemptSteps(OnePosted(c), [4], 200)
  }

  lemma FirstAttempt(n: nat, status: int)
    requires n >= 1 && ValidSettings(Small(n))
    ensures var c := Small(n);
            && CanSend(OnePosted(c), 4)
            && Reaches(c, SetupRun() + [PostStep("a")] + AttemptSteps(OnePosted(c), [4], status),
                       Attempted(c, OnePosted(c), 4, status))
  {
    var c := Small(n);
    var s := OnePosted(c);
    FirstPost(n);
    assert LiveIds(s) == {};
    assert Refilled(c, RuntimeRow(c, s, 2), s.now) == FreshRuntime(c, 0.0);
    AttemptHappens(c, SetupRun() + [PostStep("a")], s, [4], status);
  }

  /** There is a run from an empty deployment at whose end a delivery has
      succeeded at its first attempt. */
  lemma DeliverySucceeds()
    ensures ValidSettings(Small(3)) && IsRun(Small(3), EMPTY, SuccessRun(Small(3)))
    ensures var t := After(Small(3), EMPTY, SuccessRun(Small(3)));
            4 in t.deliveries && t.deliveries[4].status.Succeeded? && |t.deliveries[4].attempts| == 1
  {
    SmallIsValid(3);
    FirstAttempt(3, 200);
    AttemptedIs(Small(3), OnePosted(Small(3)), 4, 200);
  }
}
