/** A claim of one delivery from one endpoint's queue, worked out. */
module LoneClaims {
  import opened Base
  import opened Types
  import opened Scheduler
  import opened Selection
  import opened Platform
  import opened Machine
  import opened Claims
  import opened Capacity
  import opened QueueHeads
  import opened FirstAttempts
  import opened StuckProbes

  /** The state after the row `id` alone is leased. */
  function OneLeased(c: Settings, s: State, id: nat): State
    requires ValidSettings(c) && CanSend(s, id)
  {
    var d := s.deliveries[id];
    var e := Refilled(c, RuntimeRow(c, s, d.endpoint), s.now);
    s.(deliveries := s.deliveries[id := ClaimedRow(c, d, s.now, s.nextToken)],
       runtime := s.runtime[d.endpoint := Charge(Elapse(e), CandidateOf(s, id))],
       tenants := s.tenants[d.org := TenantRow(c, s, d.org).(endpointCursor := Some(d.endpoint))],
       cursor := Some(d.org),
       issued := s.issued[s.nextToken := ClaimOf(s, id, s.nextToken)],
       nextToken := s.nextToken + 1)
  }

  lemma LoneRounds(c: Settings, now: real, s0: Sched, org: nat, ep: nat)
    requires org in s0.rotation && s0.rotation[org] == [ep] && org in s0.tenants && ep in s0.runtime
    requires (org, ep) in s0.queues && s0.queues[(org, ep)] != [] && s0.selected == [] && !AtCap(c, s0, org)
    requires !Blocked(c, now, s0.runtime[ep], Get(s0.endpointCount, ep), s0.queues[(org, ep)][0])
    ensures AllReady(s0, [org])
    ensures var t := Rounds(c, now, s0, [org], 1);
            && t.selected == [s0.queues[(org, ep)][0]] && t.cursor == Some(org)
            && t.runtime == s0.runtime[ep := Charge(Elapse(s0.runtime[ep]), s0.queues[(org, ep)][0])]
            && t.tenants == s0.tenants[org := s0.tenants[org].(endpointCursor := Some(ep))]
  {
    var (v, took) := Visit(c, now, s0, org);
    assert took && v.selected == [s0.queues[(org, ep)][0]];
    assert Scan(c, now, s0, org, 1) == (v, true);
    assert Turn(c, now, s0, org) == (v, true);
    assert Pass(c, now, v, [org][1..], 1, true) == (v, true);
    assert Pass(c, now, s0, [org], 1, false) == (v, true);
  }

  ghost predicate OneQueue(s: State, ids: seq<nat>, org: nat, ep: nat) {
    && ids != [] && forall id :: id in ids ==> id in s.deliveries && KeyOf(s, id) == (org, ep)
  }

  lemma SortedSingle(x: nat)
    ensures Sorted({x}) == [x]
  {
    var r := Sorted({x});
    assert r[0] in r;
  }

  lemma RotatedSingle(x: nat, cursor: Option<nat>)
    ensures Rotated([x], cursor) == [x]
  {
  }

  lemma LoneStart(c: Settings, s: State, ids: seq<nat>, org: nat, ep: nat)
    requires ValidSettings(c) && AllRows(s, ids) && OneQueue(s, ids, org, ep)
    ensures Rotated(Sorted(OrgIds(s, ids)), s.cursor) == [org]
    ensures var start := StartOf(c, s, ids);
            && org in start.rotation && start.rotation[org] == [ep]
            && (org, ep) in start.queues && start.queues[(org, ep)] != []
            && start.queues[(org, ep)][0] == CandidateOf(s, ids[0])
  {
    assert ids[0] in ids;
    assert OrgIds(s, ids) == {org};
    assert EndpointIdsOf(s, ids, org) == {ep};
    SortedSingle(org);
    SortedSingle(ep);
    RotatedSingle(org, s.cursor);
    RotatedSingle(ep, TenantRow(c, s, org).endpointCursor);
    GroupedKeys(s, ids, ids[0]);
    FirstInQueue(s, ids, 0);
  }

  lemma LoneRuntime(c: Settings, s: State, ids: seq<nat>, org: nat, ep: nat)
    requires ValidSettings(c) && AllRows(s, ids) && OneQueue(s, ids, org, ep)
    ensures ep in StartOf(c, s, ids).runtime
    ensures StartOf(c, s, ids).runtime == s.runtime[ep := StartOf(c, s, ids).runtime[ep]]
  {
    assert ids[0] in ids;
    assert EndpointIds(s, ids) == {ep};
  }

  lemma LoneTenants(c: Settings, s: State, ids: seq<nat>, org: nat, ep: nat)
    requires ValidSettings(c) && AllRows(s, ids) && OneQueue(s, ids, org, ep)
    ensures StartOf(c, s, ids).tenants == s.tenants[org := TenantRow(c, s, org)]
  {
    assert ids[0] in ids;
    assert OrgIds(s, ids) == {org};
  }

  /** With slots, the organization below its cap and the head not blocked, a
      claim of one takes the head of the only queue. */
  lemma HeadClaimed(c: Settings, s: State, ids: seq<nat>, org: nat, ep: nat)
    requires ValidSettings(c) && CanWork(c, s, ClaimWork(1, ids)) && OneQueue(s, ids, org, ep)
    requires CanSend(s, ids[0])
    requires |LiveIds(s)| < c.globalConcurrency && |LiveOfOrg(s, org)| < c.tenantInFlight
    requires !Blocked(c, s.now, Refilled(c, RuntimeRow(c, s, ep), s.now), |LiveOfEndpoint(s, ep)|, CandidateOf(s, ids[0]))
    ensures ClaimDue(c, s, 1, ids) == OneLeased(c, s, ids[0])
  {
    var start := StartOf(c, s, ids);
    assert ids[0] in ids;
    LoneStart(c, s, ids, org, ep);
    LoneRuntime(c, s, ids, org, ep);
    LoneTenants(c, s, ids, org, ep);
    StartRow(c, s, ids, ids[0]);
    StartCounts(c, s, ids, org, ep);
    LoneRounds(c, s.now, start, org, ep);
    assert FreeSlots(c, s, 1) == 1;
    OneLeaseIs(c, s, Chosen(c, s, 1, ids), ids[0]);
  }

  lemma OneLeaseIs(c: Settings, s: State, t: Sched, id: nat)
    requires ValidSettings(c) && CanSend(s, id) && t.selected == [CandidateOf(s, id)]
    requires var d := s.deliveries[id];
             var e := Refilled(c, RuntimeRow(c, s, d.endpoint), s.now);
             && t.cursor == Some(d.org)
             && t.runtime == s.runtime[d.endpoint := e][d.endpoint := Charge(Elapse(e), CandidateOf(s, id))]
             && t.tenants ==
                  s.tenants[d.org := TenantRow(c, s, d.org)]
                           [d.org := TenantRow(c, s, d.org).(endpointCursor := Some(d.endpoint))]
    ensures AllCanSend(s, t.selected) && Lease(c, s, t) == OneLeased(c, s, id)
  {
    assert ClaimedRows(c, s, t.selected, 0) == s.deliveries && IssuedAfter(s, t.selected, 0) == s.issued;
    var u := OneLeased(c, s, id);
    assert t.runtime == u.runtime && t.tenants == u.tenants;
  }
}
