/** What holds in every state and every window of a deployment that started
    empty, spelled out. */
module Guarantees {
  import opened Base
  import opened Types
  import opened Platform
  import opened Admission
  import opened Machine
  import opened Rows
  import opened LeaseSafety
  import opened Integrity
  import opened Capacity
  import opened Quotas
  import opened CircuitBreaker
  import opened Tenants
  import opened Events
  import opened Secrets
  import opened Invariant
  import opened RateLaws

  function Reached(c: Settings, steps: seq<Step>): State
    requires ValidSettings(c) && IsRun(c, EMPTY, steps)
  {
    After(c, EMPTY, steps)
  }

  /** A row holds a lease token exactly while it is processing; its attempt
      records have distinct numbers within its attempt count, and there are at
      most as many as the maximum. */
  lemma RowsAreSound(c: Settings, steps: seq<Step>, id: nat)
    requires ValidSettings(c) && IsRun(c, EMPTY, steps) && id in Reached(c, steps).deliveries
    ensures var d := Reached(c, steps).deliveries[id];
            && (d.leaseToken.Some? <==> d.status.Processing?)
            && (forall i, j :: 0 <= i < j < |d.attempts| ==> d.attempts[i].number != d.attempts[j].number)
            && (forall i :: 0 <= i < |d.attempts| ==> 1 <= d.attempts[i].number <= d.attemptCount)
            && |d.attempts| <= c.maxAttempts
  {
    ReachableInv(c, steps);
    var s := Reached(c, steps);
    assert RowOk(c, s.issued, id, s.deliveries[id]);
    AttemptsBounded(c, s, id);
  }

  /** Of the claims ever handed out for a delivery, only the newest can still
      renew or finalize it, and only while its lease is live. */
  lemma OnlyNewestActs(c: Settings, steps: seq<Step>, token: nat, started: real, resp: Response, jitter: real)
    requires ValidSettings(c) && IsRun(c, EMPTY, steps) && token in Reached(c, steps).issued
    ensures var s := Reached(c, steps);
            var k := s.issued[token];
            Renew(c, s, k) != s || Finalize(c, s, k, started, resp, jitter) != s ==>
              && HoldsLive(s, k) && k.attemptNumber == s.deliveries[k.id].attemptCount
              && forall u :: u in s.issued && s.issued[u].id == k.id ==> u <= token
  {
    ReachableInv(c, steps);
    var s := Reached(c, steps);
    if HoldsLive(s, s.issued[token]) { OnlyNewestHolds(c, s, token); }
  }

  /** A processing row with a lease that is not over. */
  predicate InFlight(d: Delivery, now: real) {
    d.status == Processing && d.leaseExpiresAt.Some? && now < d.leaseExpiresAt.value
  }

  /** Any deliveries in flight are at most as many as the global cap, those of one
      organization as its cap, those of one endpoint as its cap. */
  lemma CapsHold(c: Settings, steps: seq<Step>, ids: set<nat>, org: nat, ep: nat)
    requires ValidSettings(c) && IsRun(c, EMPTY, steps)
    requires var s := Reached(c, steps); forall id :: id in ids ==> id in s.deliveries && InFlight(s.deliveries[id], s.now)
    ensures var s := Reached(c, steps);
            && |ids| <= c.globalConcurrency
            && ((forall id :: id in ids ==> s.deliveries[id].org == org) ==> |ids| <= c.tenantInFlight)
            && ((forall id :: id in ids ==> s.deliveries[id].endpoint == ep) ==> |ids| <= c.endpointConcurrency)
  {
    ReachableInv(c, steps);
    SetWithinCaps(c, Reached(c, steps), ids, org, ep);
  }

  lemma SetWithinCaps(c: Settings, s: State, ids: set<nat>, org: nat, ep: nat)
    requires WithinCaps(c, s) && forall id :: id in ids ==> id in s.deliveries && InFlight(s.deliveries[id], s.now)
    ensures |ids| <= c.globalConcurrency
    ensures (forall id :: id in ids ==> s.deliveries[id].org == org) ==> |ids| <= c.tenantInFlight
    ensures (forall id :: id in ids ==> s.deliveries[id].endpoint == ep) ==> |ids| <= c.endpointConcurrency
  {
    SubsetCardinality(ids, LiveIds(s));
    if forall id :: id in ids ==> s.deliveries[id].org == org { SubsetCardinality(ids, LiveOfOrg(s, org)); }
    if forall id :: id in ids ==> s.deliveries[id].endpoint == ep { SubsetCardinality(ids, LiveOfEndpoint(s, ep)); }
  }

  /** Open deliveries stay within the backlog bound and an organization's
      envelopes within its retained bytes. */
  lemma QuotasHold(c: Settings, steps: seq<Step>, org: nat)
    requires ValidSettings(c) && IsRun(c, EMPTY, steps)
    ensures var s := Reached(c, steps); |OpenIds(s)| <= c.maxBacklog && Retained(s, org) <= c.retainedBytes
  {
    ReachableInv(c, steps);
    assert WithinBytes(c, Reached(c, steps));
    OpenIsBacklog(Reached(c, steps));
  }

  predicate DueAsStated(d: Delivery, later: real) {
    && (d.status == Pending || d.status == RetryScheduled ==> (Due(d, later) <==> d.nextAttemptAt <= later))
    && (d.status == Processing ==> d.leaseExpiresAt.Some? && (Due(d, later) <==> d.leaseExpiresAt.value <= later))
    && (d.status == Succeeded || d.status == Dead || d.status == Canceled ==> !Due(d, later))
  }

  /** No open delivery is forgotten: a queued one is due from its next attempt
      time on, and a leased one from the end of its lease on. */
  lemma OpenWorkComesDue(c: Settings, steps: seq<Step>, id: nat, later: real)
    requires ValidSettings(c) && IsRun(c, EMPTY, steps) && id in Reached(c, steps).deliveries
    ensures DueAsStated(Reached(c, steps).deliveries[id], later)
  {
    ReachableInv(c, steps);
    var s := Reached(c, steps);
    assert RowOk(c, s.issued, id, s.deliveries[id]);
    RowComesDue(s.deliveries[id], later);
  }

  /** When a row with a consistent lease is due. */
  lemma RowComesDue(d: Delivery, later: real)
    requires d.leaseExpiresAt.Some? <==> d.status.Processing?
    ensures DueAsStated(d, later)
  {
  }

  /** Every open delivery's event still holds its envelope. */
  lemma EnvelopesAreKept(c: Settings, steps: seq<Step>, id: nat)
    requires ValidSettings(c) && IsRun(c, EMPTY, steps) && id in Reached(c, steps).deliveries
    ensures var s := Reached(c, steps); !Terminal(s.deliveries[id].status) ==> CanSend(s, id)
  {
    ReachableInv(c, steps);
    var s := Reached(c, steps);
    assert RowRefs(s.projects, s.endpoints, s.events, s.deliveries[id]);
  }

  /** Open exactly with an end time, a probe only while half-open, closed only
      below the threshold, and both balances between zero and the burst. */
  lemma CircuitsAreConsistent(c: Settings, steps: seq<Step>, ep: nat)
    requires ValidSettings(c) && IsRun(c, EMPTY, steps) && ep in Reached(c, steps).runtime
    ensures var e := Reached(c, steps).runtime[ep];
            && (e.circuit.Open? <==> e.openUntil.Some?)
            && (e.probe.Some? ==> e.circuit.HalfOpen?)
            && (e.circuit.Closed? ==> e.failures < c.circuitThreshold)
            && 0.0 <= e.deliveryTokens <= c.endpointBurst as real
            && 0.0 <= e.retryTokens <= c.retryBurst as real
  {
    ReachableInv(c, steps);
    assert CircuitOk(c, Reached(c, steps).runtime[ep]);
  }

  /** At most one event per project and key. */
  lemma KeysAreUnique(c: Settings, steps: seq<Step>, a: nat, b: nat, project: nat, key: string)
    requires ValidSettings(c) && IsRun(c, EMPTY, steps)
    requires HasKey(Reached(c, steps), a, project, key) && HasKey(Reached(c, steps), b, project, key)
    ensures a == b
  {
    ReachableInv(c, steps);
    assert SameKey(Reached(c, steps).events[a], Reached(c, steps).events[b]);
  }

  /** Exactly the current version of an endpoint's secret is not retired. */
  lemma CurrentSecretIsUnretired(c: Settings, steps: seq<Step>, ep: nat, version: nat)
    requires ValidSettings(c) && IsRun(c, EMPTY, steps) && ep in Reached(c, steps).endpoints
    ensures var s := Reached(c, steps);
            (ep, version) in s.versions && s.versions[(ep, version)].retireAt.None?
            <==> version == s.endpoints[ep].secretVersion
  {
    ReachableInv(c, steps);
    var s := Reached(c, steps);
    assert EndpointVersions(s.versions, ep, s.endpoints[ep].secretVersion);
  }

  /** In any window of any run, claims on an endpoint, retries on it, and the
      cost admitted to each bucket of an organization obey their rate laws. */
  lemma WindowLaws(c: Settings, before: seq<Step>, window: seq<Step>, ep: nat, org: nat, b: Bucket)
    requires ValidSettings(c) && IsRun(c, EMPTY, before) && IsRun(c, Reached(c, before), window)
    ensures var s := Reached(c, before);
            var elapsed := After(c, s, window).now - s.now;
            && Count(c, s, window, ClaimsOn(c, ep)) as real <= c.endpointBurst as real + Scale(c.endpointRate, elapsed)
            && Count(c, s, window, Retries(c, ep)) as real <=
                 c.retryBurst as real + Scale(c.retryRate, elapsed)
                 + Times(c.retrySuccessRefill, Count(c, s, window, Successes(c, ep)))
                 + Times(c.retryBurst, Count(c, s, window, Recoveries(ep)))
            && Count(c, s, window, Costs(c, org, b)) as real <= BurstOf(c, b) as real + Scale(RateOf(c, b), elapsed)
  {
    ReachableInv(c, before);
    EndpointRateLaw(c, Reached(c, before), window, ep);
    RetryBudgetLaw(c, Reached(c, before), window, ep);
    TenantRateLaw(c, Reached(c, before), window, org, b);
  }
}
