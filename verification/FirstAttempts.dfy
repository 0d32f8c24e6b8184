/** When the retry budget of an endpoint holds back a first attempt. First
    attempts cost no retry token, but the selection loop looks at the head of a
    queue only, so a retry without a token holds back what stands behind it. */
module FirstAttempts {
  import opened Base
  import opened Types
  import opened TokenBucket
  import opened Scheduler
  import opened Selection
  import opened Platform
  import opened Machine
  import opened Claims
  import opened Capacity
  import opened Integrity
  import opened CircuitBreaker
  import opened QueueHeads

  function RetryCount(q: seq<Candidate>): nat {
    if q == [] then 0 else RetryCount(q[..|q| - 1]) + if q[|q| - 1].retry then 1 else 0
  }

  lemma {:induction false} RetriesMonotone(q: seq<Candidate>, n: nat, m: nat)
    requires n <= m <= |q|
    ensures RetryCount(q[..n]) <= RetryCount(q[..m])
    decreases m
  {
    if n < m {
      assert q[..m][..m - 1] == q[..m - 1];
      RetriesMonotone(q, n, m - 1);
    }
  }

  ghost predicate OneOwner(sel: seq<Candidate>, key: Key) {
    forall d :: d in sel && d.endpoint == key.1 ==> d.org == key.0
  }

  lemma RetriesOfMore(q: seq<Candidate>, d: Candidate)
    ensures RetryCount(q + [d]) == RetryCount(q) + if d.retry then 1 else 0
  {
    assert (q + [d])[..|q|] == q;
  }

  lemma {:induction false} RetriesPicked(sel: seq<Candidate>, key: Key)
    ensures RetryCount(Picks(sel, key)) <= RetryPicks(sel, key.1)
  {
    if sel != [] {
      var d, rest := sel[|sel| - 1], sel[..|sel| - 1];
      RetriesPicked(rest, key);
      RetriesOfMore(Picks(rest, key), d);
      assert Picks(rest, key) + [] == Picks(rest, key);
    }
  }

  lemma {:induction false} OwnerRetriesPicked(sel: seq<Candidate>, key: Key)
    requires OneOwner(sel, key)
    ensures RetryCount(Picks(sel, key)) == RetryPicks(sel, key.1)
  {
    if sel != [] {
      var d, rest := sel[|sel| - 1], sel[..|sel| - 1];
      assert d in sel && forall x :: x in rest ==> x in sel;
      OwnerRetriesPicked(rest, key);
      RetriesOfMore(Picks(rest, key), d);
      assert Picks(rest, key) + [] == Picks(rest, key);
    }
  }

  // ---- one call -------------------------------------------------------------------

  lemma TakenWithinTokens(
    c: Settings, now: real, e0: Runtime, e: Runtime, leases: nat, sel: seq<Candidate>, key: Key,
    queue: seq<Candidate>, left: seq<Candidate>, i: nat)
    requires queue == Picks(sel, key) + left && i < |queue| - |left|
    requires EndpointWithin(c, now, e0, e, leases, sel, key.1)
    ensures var n := RetryCount(queue[..i + 1]); n == 0 || n as real <= e0.retryTokens
  {
    var taken := Picks(sel, key);
    assert queue[..i + 1] == taken[..i + 1] && taken[..|taken|] == taken;
    RetriesMonotone(taken, i + 1, |taken|);
    RetriesPicked(sel, key);
  }

  /** The budget covers every retry up to a delivery that is taken. */
  lemma BudgetCoversTaken(c: Settings, now: real, s0: Sched, orgs: seq<nat>, available: nat, key: Key, i: nat)
    requires Fresh(s0) && AllReady(s0, orgs) && key in s0.queues && i < |s0.queues[key]| && key.1 in s0.runtime
    requires s0.queues[key][i] in Rounds(c, now, s0, orgs, available).selected
    ensures var n := RetryCount(s0.queues[key][..i + 1]); n == 0 || n as real <= s0.runtime[key.1].retryTokens
  {
    var t := Rounds(c, now, s0, orgs, available);
    CallAccounted(c, now, s0, orgs, available);
    PrefixTaken(s0.queues, t.queues, t.selected, key, i);
    assert EndpointWithin(c, now, s0.runtime[key.1], t.runtime[key.1], Get(t.endpointCount, key.1), t.selected, key.1);
    TakenWithinTokens(c, now, s0.runtime[key.1], t.runtime[key.1], Get(t.endpointCount, key.1), t.selected, key,
                      s0.queues[key], t.queues[key], i);
  }

  /** Nothing but the retry budget keeps the head of the queue from being taken. */
  predicate HeldByBudget(c: Settings, now: real, t: Sched, key: Key) {
    && key in t.queues && t.queues[key] != [] && key.1 in t.runtime
    && Blocked(c, now, t.runtime[key.1], Get(t.endpointCount, key.1), t.queues[key][0])
    && FreeWithToken(c, now, t, key)
  }

  /** That is so exactly when the head is a retry, there is less than one token,
      and a token would help. */
  lemma HeldByBudgetIff(c: Settings, now: real, t: Sched, key: Key)
    requires key in t.queues && t.queues[key] != [] && key.1 in t.runtime && FreeWithToken(c, now, t, key)
    ensures HeldByBudget(c, now, t, key) <==> t.queues[key][0].retry && t.runtime[key.1].retryTokens < 1.0
  {
  }

  /** With one retry token the head of the queue would be free. */
  predicate FreeWithToken(c: Settings, now: real, t: Sched, key: Key)
    requires key in t.queues && t.queues[key] != [] && key.1 in t.runtime
  {
    !Blocked(c, now, t.runtime[key.1].(retryTokens := 1.0), Get(t.endpointCount, key.1), t.queues[key][0])
  }

  /** Behind a retry that found less than one token there are more retries than
      there were tokens. */
  lemma MoreRetriesThanTokens(
    c: Settings, now: real, e0: Runtime, e: Runtime, leases: nat, sel: seq<Candidate>, key: Key,
    queue: seq<Candidate>, left: seq<Candidate>, i: nat)
    requires queue == Picks(sel, key) + left && |queue| - |left| <= i < |queue| && !queue[i].retry
    requires left != [] && left[0].retry && e.retryTokens < 1.0 && OneOwner(sel, key)
    requires EndpointWithin(c, now, e0, e, leases, sel, key.1)
    ensures RetryCount(queue[..i]) as real > e0.retryTokens
  {
    var n := |Picks(sel, key)|;
    assert queue[n] == left[0];
    assert queue[..n + 1][..n] == Picks(sel, key);
    RetriesMonotone(queue, n + 1, i);
    OwnerRetriesPicked(sel, key);
  }

  /** When the call ends, only the retry budget may stop what is left of the
      queue: slots are left, the organization is below its cap, and with one
      retry token the head would be free. */
  predicate OnlyBudget(c: Settings, now: real, t: Sched, available: int, key: Key) {
    key in t.queues && t.queues[key] != [] ==>
      |t.selected| < available && !AtCap(c, t, key.0) && key.1 in t.runtime && FreeWithToken(c, now, t, key)
  }

  lemma LeftBehindRetry(c: Settings, now: real, s0: Sched, orgs: seq<nat>, available: nat, key: Key, i: nat)
    requires Fresh(s0) && AllReady(s0, orgs) && key.0 in orgs && key.1 in s0.rotation[key.0] && key.1 in s0.runtime
    requires key in s0.queues && i < |s0.queues[key]| && !s0.queues[key][i].retry
    requires var t := Rounds(c, now, s0, orgs, available);
             s0.queues[key][i] !in t.selected && OneOwner(t.selected, key) && OnlyBudget(c, now, t, available, key)
    ensures HeldByBudget(c, now, Rounds(c, now, s0, orgs, available), key)
    ensures RetryCount(s0.queues[key][..i]) as real > s0.runtime[key.1].retryTokens
  {
    var t := Rounds(c, now, s0, orgs, available);
    CallAccounted(c, now, s0, orgs, available);
    PrefixTaken(s0.queues, t.queues, t.selected, key, i);
    LeftoverHeadBlocked(c, now, s0, orgs, available, key);
    assert EndpointWithin(c, now, s0.runtime[key.1], t.runtime[key.1], Get(t.endpointCount, key.1), t.selected, key.1);
    MoreRetriesThanTokens(c, now, s0.runtime[key.1], t.runtime[key.1], Get(t.endpointCount, key.1), t.selected, key,
                          s0.queues[key], t.queues[key], i);
  }

  /** A call leaves an untried delivery behind exactly when more retries stand
      before it than there are tokens. */
  lemma CallHoldsIff(c: Settings, now: real, s0: Sched, orgs: seq<nat>, available: nat, key: Key, i: nat)
    requires Fresh(s0) && AllReady(s0, orgs) && key.0 in orgs && key.1 in s0.rotation[key.0] && key.1 in s0.runtime
    requires key in s0.queues && i < |s0.queues[key]| && !s0.queues[key][i].retry
    requires s0.runtime[key.1].retryTokens >= 0.0
    requires var t := Rounds(c, now, s0, orgs, available);
             OneOwner(t.selected, key) && OnlyBudget(c, now, t, available, key)
    ensures var t := Rounds(c, now, s0, orgs, available);
            && (s0.queues[key][i] !in t.selected <==>
                  RetryCount(s0.queues[key][..i]) as real > s0.runtime[key.1].retryTokens)
            && (s0.queues[key][i] !in t.selected ==> HeldByBudget(c, now, t, key))
  {
    if s0.queues[key][i] in Rounds(c, now, s0, orgs, available).selected {
      BudgetCoversTaken(c, now, s0, orgs, available, key, i);
      OneMoreUntried(s0.queues[key], i);
    } else {
      LeftBehindRetry(c, now, s0, orgs, available, key, i);
    }
  }

  // ---- one claim ---------------------------------------------------------------------

  /** RetryCount of a queue among the listed rows. */
  function RetriesListed(s: State, ids: seq<nat>, key: Key): nat
    requires AllRows(s, ids)
  {
    if ids == [] then 0
    else
      var last := ids[|ids| - 1];
      RetriesListed(s, ids[..|ids| - 1], key) +
      if KeyOf(s, last) == key && s.deliveries[last].attemptCount > 0 then 1 else 0
  }

  lemma {:induction false} RetriesQueued(s: State, ids: seq<nat>, key: Key)
    requires AllRows(s, ids)
    ensures RetryCount(QueueOf(s, ids, key)) == RetriesListed(s, ids, key)
  {
    if ids != [] {
      var last, rest := ids[|ids| - 1], ids[..|ids| - 1];
      RetriesQueued(s, rest, key);
      if KeyOf(s, last) == key {
        var q := QueueOf(s, ids, key);
        assert q[..|q| - 1] == QueueOf(s, rest, key);
      }
    }
  }

  /** Retry tokens the endpoint has when the claim starts. */
  function TokensAtStart(c: Settings, s: State, ep: nat): real
    requires ValidSettings(c)
  {
    Refilled(c, RuntimeRow(c, s, ep), s.now).retryTokens
  }

  lemma QueueOwner(s: State, ids: seq<nat>, sel: seq<Candidate>, id: nat)
    requires AllRows(s, ids) && Refs(s) && SelectedRows(s, ids, sel) && id in s.deliveries
    ensures OneOwner(sel, KeyOf(s, id))
  {
    forall d | d in sel && d.endpoint == s.deliveries[id].endpoint ensures d.org == s.deliveries[id].org {
      assert RowRefs(s.projects, s.endpoints, s.events, s.deliveries[d.id]);
      assert RowRefs(s.projects, s.endpoints, s.events, s.deliveries[id]);
    }
  }

  lemma StartPlace(c: Settings, s: State, ids: seq<nat>, id: nat)
    requires ValidSettings(c) && AllRows(s, ids) && id in ids
    ensures var start, key := StartOf(c, s, ids), KeyOf(s, id);
            && key.0 in Rotated(Sorted(OrgIds(s, ids)), s.cursor)
            && key.0 in start.rotation && key.1 in start.rotation[key.0]
  {
    var key := KeyOf(s, id);
    RotatedAll(Sorted(OrgIds(s, ids)), s.cursor, key.0);
    RotatedAll(Sorted(EndpointIdsOf(s, ids, key.0)), TenantRow(c, s, key.0).endpointCursor, key.1);
  }

  lemma BalanceNotNegative(c: Settings, s: State, ep: nat)
    requires ValidSettings(c) && CircuitsOk(c, s)
    ensures TokensAtStart(c, s, ep) >= 0.0
  {
    var e := RuntimeRow(c, s, ep);
    assert CircuitOk(c, e) && BucketsOk(c, s.now, e);
    RefilledOk(c, e, s.now);
  }

  lemma StartBalance(c: Settings, s: State, ids: seq<nat>, id: nat)
    requires ValidSettings(c) && AllRows(s, ids) && id in ids
    ensures var start, ep := StartOf(c, s, ids), s.deliveries[id].endpoint;
            ep in start.runtime && start.runtime[ep].retryTokens == TokensAtStart(c, s, ep)
  {
    assert s.deliveries[id].endpoint in EndpointIds(s, ids);
  }

  lemma RotatedAll(values: seq<nat>, cursor: Option<nat>, x: nat)
    requires x in values
    ensures x in Rotated(values, cursor)
  {
    if cursor.Some? {
      var k := FirstAbove(values, cursor.value, 0);
      assert values == values[..k] + values[k..];
    }
  }

  /** If nothing else is in the way, a claim leaves an untried delivery behind
      exactly when more retries of its endpoint are listed before it than there
      are retry tokens; then its queue is left with a retry at its head and less
      than one token. */
  lemma FirstAttemptHeldIff(c: Settings, s: State, limit: nat, ids: seq<nat>, i: nat)
    requires ValidSettings(c) && CanWork(c, s, ClaimWork(limit, ids)) && Refs(s) && CircuitsOk(c, s)
    requires FreeSlots(c, s, limit) > 0 && i < |ids| && ids[i] in s.deliveries && s.deliveries[ids[i]].attemptCount == 0
    requires OnlyBudget(c, s.now, Chosen(c, s, limit, ids), FreeSlots(c, s, limit), KeyOf(s, ids[i]))
    ensures var t, key := Chosen(c, s, limit, ids), KeyOf(s, ids[i]);
            && (CandidateOf(s, ids[i]) !in t.selected <==>
                  RetriesListed(s, ids[..i], key) as real > TokensAtStart(c, s, key.1))
            && (CandidateOf(s, ids[i]) !in t.selected ==> HeldByBudget(c, s.now, t, key))
  {
    var start, key := StartOf(c, s, ids), KeyOf(s, ids[i]);
    assert ids[i] in ids;
    StartReady(c, s, ids);
    StartFresh(c, s, ids);
    StartPlace(c, s, ids, ids[i]);
    StartBalance(c, s, ids, ids[i]);
    BalanceNotNegative(c, s, key.1);
    GroupedKeys(s, ids, ids[i]);
    var a := PlaceInQueue(s, ids, i);
    ChosenRows(c, s, limit, ids);
    QueueOwner(s, ids, Chosen(c, s, limit, ids).selected, ids[i]);
    CallHoldsIff(c, s.now, start, Rotated(Sorted(OrgIds(s, ids)), s.cursor), FreeSlots(c, s, limit), key, a);
  }

  lemma OneMoreUntried(q: seq<Candidate>, a: nat)
    requires a < |q| && !q[a].retry
    ensures RetryCount(q[..a + 1]) == RetryCount(q[..a])
  {
    assert q[..a + 1][..a] == q[..a];
  }

  /** The place of a listed row in its queue, behind the retries listed before. */
  lemma PlaceInQueue(s: State, ids: seq<nat>, i: nat) returns (a: nat)
    requires AllRows(s, ids) && i < |ids| && ids[i] in s.deliveries && KeyOf(s, ids[i]) in Grouped(s, ids)
    ensures var key := KeyOf(s, ids[i]);
            var q := Grouped(s, ids)[key];
            && a < |q| && q[a] == CandidateOf(s, ids[i])
            && AllRows(s, ids[..i]) && RetryCount(q[..a]) == RetriesListed(s, ids[..i], key)
  {
    var key := KeyOf(s, ids[i]);
    assert forall id :: id in ids[..i] ==> id in ids;
    QueuePlace(s, ids, i);
    RetriesQueued(s, ids[..i], key);
    a := |QueueOf(s, ids[..i], key)|;
    assert Grouped(s, ids)[key][..a] == QueueOf(s, ids[..i], key);
  }

  /** In any claim, the tokens cover every retry listed up to a delivery that is
      taken. */
  lemma TakenIsCovered(c: Settings, s: State, limit: nat, ids: seq<nat>, i: nat)
    requires ValidSettings(c) && CanWork(c, s, ClaimWork(limit, ids)) && FreeSlots(c, s, limit) > 0
    requires i < |ids| && ids[i] in s.deliveries && AllRows(s, ids[..i + 1])
    requires CandidateOf(s, ids[i]) in Chosen(c, s, limit, ids).selected
    ensures var key := KeyOf(s, ids[i]);
            var n := RetriesListed(s, ids[..i + 1], key); n == 0 || n as real <= TokensAtStart(c, s, key.1)
  {
    var start, key := StartOf(c, s, ids), KeyOf(s, ids[i]);
    assert ids[i] in ids;
    StartReady(c, s, ids);
    StartFresh(c, s, ids);
    StartBalance(c, s, ids, ids[i]);
    GroupedKeys(s, ids, ids[i]);
    var a := PlaceInQueue(s, ids, i);
    BudgetCoversTaken(c, s.now, start, Rotated(Sorted(OrgIds(s, ids)), s.cursor), FreeSlots(c, s, limit), key, a);
    OneMoreRetry(s, ids, i, start.queues[key], a);
  }

  lemma OneMoreRetry(s: State, ids: seq<nat>, i: nat, q: seq<Candidate>, a: nat)
    requires i < |ids| && AllRows(s, ids[..i]) && AllRows(s, ids[..i + 1]) && ids[i] in s.deliveries
    requires a < |q| && q[a] == CandidateOf(s, ids[i])
    requires RetryCount(q[..a]) == RetriesListed(s, ids[..i], KeyOf(s, ids[i]))
    ensures RetryCount(q[..a + 1]) == RetriesListed(s, ids[..i + 1], KeyOf(s, ids[i]))
  {
    assert q[..a + 1][..a] == q[..a] && ids[..i + 1][..i] == ids[..i];
  }

  // ---- a condition on the state before the claim ----------------------------------------

  /** Every cap, the delivery bucket, the pause and the circuit of the endpoint
      would let all candidates through. */
  predicate RoomForAll(c: Settings, s: State, limit: nat, ids: seq<nat>, key: Key)
    requires ValidSettings(c)
  {
    var e := Refilled(c, RuntimeRow(c, s, key.1), s.now);
    && |ids| <= FreeSlots(c, s, limit)
    && |LiveOfOrg(s, key.0)| + |ids| <= c.tenantInFlight
    && |LiveOfEndpoint(s, key.1)| + |ids| <= c.endpointConcurrency
    && e.deliveryTokens >= |ids| as real && e.pausedAt.None? && e.circuit.Closed?
  }

  lemma {:induction false} PicksAtMost(sel: seq<Candidate>, org: nat, ep: nat)
    ensures OrgPicks(sel, org) <= |sel| && EndpointPicks(sel, ep) <= |sel|
  {
    if sel != [] { PicksAtMost(sel[..|sel| - 1], org, ep); }
  }

  lemma FewerThanListed(s: State, ids: seq<nat>, sel: seq<Candidate>, id: nat)
    requires SelectedRows(s, ids, sel) && id in ids && forall d :: d in sel ==> d.id != id
    ensures |sel| < |ids|
  {
    var taken := seq(|sel|, k requires 0 <= k < |sel| => sel[k].id);
    forall x | x in taken ensures x in Members(ids) - {id} {
      var k :| 0 <= k < |taken| && taken[k] == x;
      assert sel[k] in sel;
    }
    DistinctBound(taken, Members(ids) - {id});
    ListedAtMost(ids);
  }

  function Members(ids: seq<nat>): set<nat> { set x | x in ids }

  lemma {:induction false} ListedAtMost(ids: seq<nat>)
    ensures |Members(ids)| <= |ids|
  {
    if ids != [] {
      var last, rest := ids[|ids| - 1], ids[..|ids| - 1];
      ListedAtMost(rest);
      assert Members(ids) == Members(rest) + {last} by { assert ids == rest + [last]; }
      UnionCardinality(Members(rest), {last});
    }
  }

  /** After fewer picks than there was room for, only a retry token can lack. */
  lemma RoomRemains(c: Settings, now: real, s0: Sched, t: Sched, key: Key, n: nat)
    requires OrgsWithin(c, s0.orgCount, t.orgCount, t.selected)
    requires EndpointsWithin(c, now, s0.runtime, s0.endpointCount, t.runtime, t.endpointCount, t.selected)
    requires |t.selected| < n && key in t.queues && t.queues[key] != [] && key.1 in s0.runtime
    requires Get(s0.orgCount, key.0) + n <= c.tenantInFlight && Get(s0.endpointCount, key.1) + n <= c.endpointConcurrency
    requires var e0 := s0.runtime[key.1]; e0.deliveryTokens >= n as real && e0.pausedAt.None? && e0.circuit.Closed?
    ensures !AtCap(c, t, key.0) && key.1 in t.runtime && FreeWithToken(c, now, t, key)
  {
    PicksAtMost(t.selected, key.0, key.1);
    assert EndpointWithin(c, now, s0.runtime[key.1], t.runtime[key.1], Get(t.endpointCount, key.1), t.selected, key.1);
    assert CircuitMoved(now, s0.runtime[key.1], t.runtime[key.1]);
  }

  lemma StartRow(c: Settings, s: State, ids: seq<nat>, id: nat)
    requires ValidSettings(c) && AllRows(s, ids) && id in ids
    ensures var start, ep := StartOf(c, s, ids), s.deliveries[id].endpoint;
            ep in start.runtime && start.runtime[ep] == Refilled(c, RuntimeRow(c, s, ep), s.now)
  {
    assert s.deliveries[id].endpoint in EndpointIds(s, ids);
  }

  lemma RoomLeavesOnlyBudget(c: Settings, s: State, limit: nat, ids: seq<nat>, id: nat)
    requires ValidSettings(c) && CanWork(c, s, ClaimWork(limit, ids)) && FreeSlots(c, s, limit) > 0
    requires id in ids && RoomForAll(c, s, limit, ids, KeyOf(s, id))
    ensures OnlyBudget(c, s.now, Chosen(c, s, limit, ids), FreeSlots(c, s, limit), KeyOf(s, id))
  {
    var start, t, key := StartOf(c, s, ids), Chosen(c, s, limit, ids), KeyOf(s, id);
    if key in t.queues && t.queues[key] != [] {
      ChosenWithin(c, s, limit, ids);
      StartRow(c, s, ids, id);
      StartCounts(c, s, ids, key.0, key.1);
      LeftOverRow(c, s, limit, ids, key);
      RoomRemains(c, s.now, start, t, key, |ids|);
    }
  }

  lemma LeftOverRow(c: Settings, s: State, limit: nat, ids: seq<nat>, key: Key)
    requires ValidSettings(c) && CanWork(c, s, ClaimWork(limit, ids)) && FreeSlots(c, s, limit) > 0
    requires var t := Chosen(c, s, limit, ids); key in t.queues && t.queues[key] != []
    ensures |Chosen(c, s, limit, ids).selected| < |ids|
  {
    var t := Chosen(c, s, limit, ids);
    ChosenSplit(c, s, limit, ids);
    ChosenRows(c, s, limit, ids);
    StartFresh(c, s, ids);
    var q := Grouped(s, ids)[key];
    var n := |q| - |t.queues[key]|;
    PrefixTaken(Grouped(s, ids), t.queues, t.selected, key, n);
    GroupedMember(s, ids, key, q[n]);
    FewerThanListed(s, ids, t.selected, q[n].id);
  }

  /** With room for all candidates: the first attempt is held back exactly when
      more retries of its endpoint are listed before it than there are tokens. */
  lemma FirstAttemptHeldBackIff(c: Settings, s: State, limit: nat, ids: seq<nat>, i: nat)
    requires ValidSettings(c) && CanWork(c, s, ClaimWork(limit, ids)) && Refs(s) && CircuitsOk(c, s)
    requires FreeSlots(c, s, limit) > 0 && i < |ids| && ids[i] in s.deliveries && s.deliveries[ids[i]].attemptCount == 0
    requires RoomForAll(c, s, limit, ids, KeyOf(s, ids[i])) && AllRows(s, ids[..i])
    ensures var key := KeyOf(s, ids[i]);
            CandidateOf(s, ids[i]) !in Chosen(c, s, limit, ids).selected <==>
              RetriesListed(s, ids[..i], key) as real > TokensAtStart(c, s, key.1)
  {
    assert ids[i] in ids;
    RoomLeavesOnlyBudget(c, s, limit, ids, ids[i]);
    FirstAttemptHeldIff(c, s, limit, ids, i);
  }
}
