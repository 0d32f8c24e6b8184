/** Whether a claim takes the first listed delivery of an endpoint, decided by the
    state before the claim. */
module HeadsTaken {
  import opened Base
  import opened Types
  import opened TokenBucket
  import opened Scheduler
  import opened Selection
  import opened Fairness
  import opened Platform
  import opened Machine
  import opened Claims
  import opened Integrity
  import opened Capacity
  import opened Endpoints
  import opened QueueHeads
  import opened FirstAttempts

  // ---- a free head stays free while nothing of its endpoint is taken -----------------

  lemma VisitKeepsFree(c: Settings, now: real, s: Sched, org: nat, key: Key)
    requires Keyed(s) && Ready(s, org) && s.rotation[org] != [] && HeadFree(c, now, s, key)
    requires forall d :: d in Visit(c, now, s, org).0.selected ==> d.endpoint != key.1
    ensures HeadFree(c, now, Visit(c, now, s, org).0, key)
  {
    var (t, took) := Visit(c, now, s, org);
    var k: Key := (org, s.rotation[org][0]);
    if took {
      assert s.queues[k][0] in s.queues[k];
      assert s.queues[k][0] in t.selected;
    } else {
      VisitBack(c, now, s, org, key);
    }
  }

  lemma VisitGrows(c: Settings, now: real, s: Sched, org: nat)
    requires Ready(s, org) && s.rotation[org] != []
    ensures s.selected <= Visit(c, now, s, org).0.selected
  {
  }

  lemma {:induction false} RunGrows(c: Settings, now: real, s: Sched, v: seq<nat>)
    requires Allowed(c, now, s, v)
    ensures s.selected <= Run(c, now, s, v).selected
    decreases |v|
  {
    if v != [] {
      VisitGrows(c, now, s, v[0]);
      RunGrows(c, now, Visit(c, now, s, v[0]).0, v[1..]);
    }
  }

  lemma {:induction false} RunKeepsFree(c: Settings, now: real, s: Sched, v: seq<nat>, key: Key)
    requires Keyed(s) && Allowed(c, now, s, v) && HeadFree(c, now, s, key)
    requires forall d :: d in Run(c, now, s, v).selected ==> d.endpoint != key.1
    ensures HeadFree(c, now, Run(c, now, s, v), key)
    decreases |v|
  {
    if v != [] {
      var t := Visit(c, now, s, v[0]).0;
      RunGrows(c, now, t, v[1..]);
      forall d | d in t.selected ensures d.endpoint != key.1 { assert d in Run(c, now, s, v).selected; }
      VisitKeepsFree(c, now, s, v[0], key);
      VisitKeyed(c, now, s, v[0]);
      RunKeepsFree(c, now, t, v[1..], key);
    }
  }

  // ---- one call --------------------------------------------------------------------------

  lemma {:induction false} RetryCounted(sel: seq<Candidate>, d: Candidate)
    requires d in sel && d.retry
    ensures RetryPicks(sel, d.endpoint) > 0
  {
    if sel[|sel| - 1] != d { RetryCounted(sel[..|sel| - 1], d); }
  }

  /** What is taken was free when the call began. */
  lemma TakenWasFree(
    c: Settings, now: real, e0: Runtime, e: Runtime, before: nat, leases: nat, sel: seq<Candidate>, d: Candidate)
    requires d in sel && EndpointWithin(c, now, e0, e, leases, sel, d.endpoint)
    requires leases == before + EndpointPicks(sel, d.endpoint)
    ensures !NoRoom(c, e0, before, d) && e0.pausedAt.None? && !OpenUnelapsed(e0, now)
    ensures e0.circuit.HalfOpen? && e0.probe.Some? ==> e0.probe == Some(d.id)
  {
    PickCounted(sel, d);
    RetriesArePicks(sel, d.endpoint);
    if d.retry { RetryCounted(sel, d); }
    assert CircuitMoved(now, e0, e);
  }

  /** A head is taken exactly when it is free at the start, if the call neither
      runs out of slots nor of room for the organization. */
  lemma CallTakesHeadIff(c: Settings, now: real, s0: Sched, orgs: seq<nat>, available: nat, key: Key)
    requires Fresh(s0) && AllReady(s0, orgs) && key.0 in orgs && key.1 in s0.rotation[key.0]
    requires key in s0.queues && s0.queues[key] != [] && key.1 in s0.runtime
    requires var t := Rounds(c, now, s0, orgs, available);
             && OneOwner(t.selected, key)
             && (s0.queues[key][0] !in t.selected ==> |t.selected| < available && !AtCap(c, t, key.0))
    ensures s0.queues[key][0] in Rounds(c, now, s0, orgs, available).selected <==> HeadFree(c, now, s0, key)
  {
    var t, h := Rounds(c, now, s0, orgs, available), s0.queues[key][0];
    CallAccounted(c, now, s0, orgs, available);
    PrefixTaken(s0.queues, t.queues, t.selected, key, 0);
    if h in t.selected {
      assert h in s0.queues[key];
      assert EndpointWithin(c, now, s0.runtime[key.1], t.runtime[key.1], Get(t.endpointCount, key.1), t.selected, key.1);
      TakenWasFree(c, now, s0.runtime[key.1], t.runtime[key.1], Get(s0.endpointCount, key.1),
                   Get(t.endpointCount, key.1), t.selected, h);
    } else if HeadFree(c, now, s0, key) {
      NothingTaken(s0.queues, t.queues, t.selected, key);
      LeftFree(c, now, s0, orgs, available, key);
      LeftoverHeadBlocked(c, now, s0, orgs, available, key);
    }
  }

  /** If the head is left, nothing of its endpoint was taken. */
  lemma NothingTaken(q0: Queues, q: Queues, sel: seq<Candidate>, key: Key)
    requires QueuesSplit(q0, q, sel) && key in q0 && q0[key] != [] && q0[key][0] !in sel && OneOwner(sel, key)
    ensures forall d :: d in sel ==> d.endpoint != key.1
  {
    var taken := Picks(sel, key);
    if taken != [] {
      assert q0[key][0] == taken[0] && taken[0] in taken;
      PicksAreTaken(sel, key, taken[0]);
    }
    forall d | d in sel ensures d.endpoint != key.1 {
      if d.endpoint == key.1 { PickCounted(sel, d); }
    }
  }

  lemma LeftFree(c: Settings, now: real, s0: Sched, orgs: seq<nat>, available: nat, key: Key)
    requires Fresh(s0) && AllReady(s0, orgs) && HeadFree(c, now, s0, key)
    requires forall d :: d in Rounds(c, now, s0, orgs, available).selected ==> d.endpoint != key.1
    ensures HeadFree(c, now, Rounds(c, now, s0, orgs, available), key)
  {
    var v := RoundsVisits(c, now, s0, orgs, available);
    RunKeepsFree(c, now, s0, v, key);
  }

  // ---- one claim ---------------------------------------------------------------------------

  /** Neither the free slots nor the organization's cap stops any candidate. */
  predicate SlotsForAll(c: Settings, s: State, limit: nat, ids: seq<nat>, org: nat) {
    && |ids| <= limit && |LiveIds(s)| + |ids| <= c.globalConcurrency
    && |LiveOfOrg(s, org)| + |ids| <= c.tenantInFlight
  }

  lemma SlotsAreFree(c: Settings, s: State, limit: nat, ids: seq<nat>, org: nat)
    requires SlotsForAll(c, s, limit, ids, org)
    ensures |ids| <= FreeSlots(c, s, limit)
  {
  }

  lemma RoomIfLeft(c: Settings, s: State, limit: nat, ids: seq<nat>, id: nat)
    requires ValidSettings(c) && CanWork(c, s, ClaimWork(limit, ids)) && FreeSlots(c, s, limit) > 0 && id in ids
    requires SlotsForAll(c, s, limit, ids, s.deliveries[id].org)
    requires var t := Chosen(c, s, limit, ids); KeyOf(s, id) in t.queues && t.queues[KeyOf(s, id)] != []
    ensures var t := Chosen(c, s, limit, ids);
            |t.selected| < FreeSlots(c, s, limit) && !AtCap(c, t, s.deliveries[id].org)
  {
    var key := KeyOf(s, id);
    SlotsAreFree(c, s, limit, ids, key.0);
    ChosenWithin(c, s, limit, ids);
    StartCounts(c, s, ids, key.0, key.1);
    LeftOverRow(c, s, limit, ids, key);
    PicksAtMost(Chosen(c, s, limit, ids).selected, key.0, key.1);
  }

  lemma HeadLeft(c: Settings, s: State, limit: nat, ids: seq<nat>, key: Key)
    requires ValidSettings(c) && CanWork(c, s, ClaimWork(limit, ids)) && FreeSlots(c, s, limit) > 0
    requires key in Grouped(s, ids) && Grouped(s, ids)[key] != []
    requires Grouped(s, ids)[key][0] !in Chosen(c, s, limit, ids).selected
    ensures var t := Chosen(c, s, limit, ids); key in t.queues && t.queues[key] != []
  {
    var t := Chosen(c, s, limit, ids);
    ChosenSplit(c, s, limit, ids);
    StartFresh(c, s, ids);
    PrefixTaken(Grouped(s, ids), t.queues, t.selected, key, 0);
  }

  /** The endpoint lets the delivery pass: it is not paused, its circuit is closed,
      its open time is over or the delivery is the one that may probe it, and it
      has concurrency and tokens left, a retry token included for a retry. */
  predicate Passable(c: Settings, s: State, id: nat)
    requires ValidSettings(c) && id in s.deliveries
  {
    var d := s.deliveries[id];
    var e := Refilled(c, RuntimeRow(c, s, d.endpoint), s.now);
    && e.pausedAt.None?
    && (e.circuit.Open? ==> e.openUntil.Some? && e.openUntil.value <= s.now)
    && (e.circuit.HalfOpen? && e.probe.Some? ==> e.probe.value == id)
    && |LiveOfEndpoint(s, d.endpoint)| < c.endpointConcurrency
    && e.deliveryTokens >= 1.0 && (d.attemptCount > 0 ==> e.retryTokens >= 1.0)
  }

  /** Both buckets of the endpoint hold what they held, plus what time brought,
      up to their bursts; nothing else changes. */
  lemma RefillMeans(c: Settings, e: Runtime, now: real)
    requires ValidSettings(c) && e.refilledAt <= now && e.retryRefilledAt <= now
    requires 0.0 <= e.deliveryTokens <= c.endpointBurst as real && 0.0 <= e.retryTokens <= c.retryBurst as real
    ensures var delivery := e.deliveryTokens + (now - e.refilledAt) * c.endpointRate;
            var retry := e.retryTokens + (now - e.retryRefilledAt) * c.retryRate;
            Refilled(c, e, now) == e.(
              deliveryTokens := if delivery <= c.endpointBurst as real then delivery else c.endpointBurst as real,
              retryTokens := if retry <= c.retryBurst as real then retry else c.retryBurst as real,
              refilledAt := now, retryRefilledAt := now)
  {
    RefillOne(e.deliveryTokens, e.refilledAt, c.endpointRate, c.endpointBurst, now, c.quotaRetryAfterMax);
    RefillOne(e.retryTokens, e.retryRefilledAt, c.retryRate, c.retryBurst, now, c.quotaRetryAfterMax);
  }

  lemma RefillOne(tokens: real, at: real, rate: real, burst: nat, now: real, cap: int)
    requires rate > 0.0 && at <= now && 0.0 <= tokens <= burst as real
    ensures var held := tokens + (now - at) * rate;
            var b := ConsumeTokens(tokens, at, rate, burst, 0, now, cap);
            b.tokens == (if held <= burst as real then held else burst as real) && b.refilledAt == now
  {
    AvailableInRange(tokens, at, rate, burst, now);
  }

  lemma PassableIff(c: Settings, s: State, id: nat)
    requires ValidSettings(c) && id in s.deliveries
    ensures var ep := s.deliveries[id].endpoint;
            Passable(c, s, id) <==>
              !Blocked(c, s.now, Refilled(c, RuntimeRow(c, s, ep), s.now), |LiveOfEndpoint(s, ep)|, CandidateOf(s, id))
  {
    var ep := s.deliveries[id].endpoint;
    PassIff(c, s.now, Refilled(c, RuntimeRow(c, s, ep), s.now), |LiveOfEndpoint(s, ep)|, CandidateOf(s, id));
  }

  lemma PassIff(c: Settings, now: real, e: Runtime, leases: nat, d: Candidate)
    ensures !Blocked(c, now, e, leases, d) <==>
              && e.pausedAt.None?
              && (e.circuit.Open? ==> e.openUntil.Some? && e.openUntil.value <= now)
              && (e.circuit.HalfOpen? && e.probe.Some? ==> e.probe.value == d.id)
              && leases < c.endpointConcurrency
              && e.deliveryTokens >= 1.0 && (d.retry ==> e.retryTokens >= 1.0)
  {
  }

  lemma FirstFreeIff(c: Settings, s: State, limit: nat, ids: seq<nat>, j: nat)
    requires ValidSettings(c) && CanWork(c, s, ClaimWork(limit, ids)) && Refs(s) && FreeSlots(c, s, limit) > 0
    requires j < |ids| && ids[j] in s.deliveries && FirstListed(s, ids, j)
    requires CandidateOf(s, ids[j]) !in Chosen(c, s, limit, ids).selected ==>
               var t := Chosen(c, s, limit, ids);
               |t.selected| < FreeSlots(c, s, limit) && !AtCap(c, t, s.deliveries[ids[j]].org)
    ensures var ep := s.deliveries[ids[j]].endpoint;
            CandidateOf(s, ids[j]) in Chosen(c, s, limit, ids).selected <==>
              !Blocked(c, s.now, Refilled(c, RuntimeRow(c, s, ep), s.now), |LiveOfEndpoint(s, ep)|, CandidateOf(s, ids[j]))
  {
    var start, key := StartOf(c, s, ids), KeyOf(s, ids[j]);
    assert ids[j] in ids;
    StartReady(c, s, ids);
    StartFresh(c, s, ids);
    StartPlace(c, s, ids, ids[j]);
    StartRow(c, s, ids, ids[j]);
    StartCounts(c, s, ids, key.0, key.1);
    FirstInQueue(s, ids, j);
    ChosenRows(c, s, limit, ids);
    QueueOwner(s, ids, Chosen(c, s, limit, ids).selected, ids[j]);
    CallTakesHeadIff(c, s.now, start, Rotated(Sorted(OrgIds(s, ids)), s.cursor), FreeSlots(c, s, limit), key);
  }

  lemma FirstListedFreeIff(c: Settings, s: State, limit: nat, ids: seq<nat>, j: nat)
    requires ValidSettings(c) && CanWork(c, s, ClaimWork(limit, ids)) && Refs(s)
    requires j < |ids| && ids[j] in s.deliveries && FirstListed(s, ids, j)
    requires SlotsForAll(c, s, limit, ids, s.deliveries[ids[j]].org)
    ensures var ep := s.deliveries[ids[j]].endpoint;
            && FreeSlots(c, s, limit) > 0
            && (CandidateOf(s, ids[j]) in Chosen(c, s, limit, ids).selected <==>
                  !Blocked(c, s.now, Refilled(c, RuntimeRow(c, s, ep), s.now), |LiveOfEndpoint(s, ep)|,
                           CandidateOf(s, ids[j])))
  {
    var key := KeyOf(s, ids[j]);
    assert ids[j] in ids;
    SlotsAreFree(c, s, limit, ids, key.0);
    FirstInQueue(s, ids, j);
    if CandidateOf(s, ids[j]) !in Chosen(c, s, limit, ids).selected {
      HeadLeft(c, s, limit, ids, key);
      RoomIfLeft(c, s, limit, ids, ids[j]);
    }
    FirstFreeIff(c, s, limit, ids, j);
  }

  /** With slots and organization room for all candidates, the first listed row of
      an endpoint is taken exactly when the endpoint lets it pass in the state
      before the claim. */
  lemma FirstListedTakenIff(c: Settings, s: State, limit: nat, ids: seq<nat>, j: nat)
    requires ValidSettings(c) && CanWork(c, s, ClaimWork(limit, ids)) && Refs(s)
    requires j < |ids| && ids[j] in s.deliveries && FirstListed(s, ids, j)
    requires SlotsForAll(c, s, limit, ids, s.deliveries[ids[j]].org)
    ensures FreeSlots(c, s, limit) > 0
    ensures CandidateOf(s, ids[j]) in Chosen(c, s, limit, ids).selected <==> Passable(c, s, ids[j])
  {
    FirstListedFreeIff(c, s, limit, ids, j);
    PassableIff(c, s, ids[j]);
  }
}
