/** The delivery database as one state, and every transaction on it as a
    function of the state: `app/services/delivery_service.py`,
    `app/services/webhook_service.py`, `app/admission.py`, `app/scheduling.py`
    and `app/lifecycle.py`. Each transaction is one atomic step. */
module Platform {
  import opened Base
  import opened Types
  import opened TokenBucket
  import opened RetryPolicy
  import opened Scheduler

  datatype State = State(
    now: real,
    orgs: map<nat, Organization>, projects: map<nat, nat>,
    endpoints: map<nat, Endpoint>, runtime: map<nat, Runtime>,
    versions: map<(nat, nat), SecretVersion>,
    tenants: map<nat, Tenant>, cursor: Option<nat>,
    events: map<nat, Event>, deliveries: map<nat, Delivery>,
    operations: map<nat, Operation>,
    issued: map<nat, Claim>, nextId: nat, nextToken: nat)

  const EMPTY := State(0.0, map[], map[], map[], map[], map[], map[], None, map[], map[], map[], map[], 0, 0)

  // ---- counts the transactions query ------------------------------------------

  function LiveIds(s: State): set<nat> {
    set id | id in s.deliveries && Live(s.deliveries[id], s.now)
  }

  function LiveOfOrg(s: State, org: nat): set<nat> {
    set id | id in s.deliveries && Live(s.deliveries[id], s.now) && s.deliveries[id].org == org
  }

  function LiveOfEndpoint(s: State, ep: nat): set<nat> {
    set id | id in s.deliveries && Live(s.deliveries[id], s.now) && s.deliveries[id].endpoint == ep
  }

  function Backlog(s: State): set<nat> {
    set id | id in s.deliveries && !Terminal(s.deliveries[id].status)
  }

  predicate InOrg(s: State, ev: Event, org: nat) {
    ev.project in s.projects && s.projects[ev.project] == org
  }

  function EnvelopeBytes(ev: Event): nat { if ev.envelope.Some? then |ev.envelope.value| else 0 }

  /** Envelope bytes held for an organization by events below id `n`. */
  function RetainedBelow(s: State, org: nat, n: nat): nat {
    if n == 0 then 0
    else
      RetainedBelow(s, org, n - 1) +
      if n - 1 in s.events && InOrg(s, s.events[n - 1], org) then EnvelopeBytes(s.events[n - 1]) else 0
  }

  function Retained(s: State, org: nat): nat { RetainedBelow(s, org, s.nextId) }

  // ---- claim, renew, release ----------------------------------------------------

  predicate Holds(s: State, k: Claim) {
    && k.id in s.deliveries
    && s.deliveries[k.id].status.Processing?
    && s.deliveries[k.id].leaseToken == Some(k.token)
  }

  predicate HoldsLive(s: State, k: Claim) { Holds(s, k) && Live(s.deliveries[k.id], s.now) }

  function Renew(c: Settings, s: State, k: Claim): State {
    if !HoldsLive(s, k) then s
    else
      s.(deliveries := s.deliveries[k.id := s.deliveries[k.id].(
        leaseExpiresAt := Some(s.now + c.leaseSeconds), updatedAt := s.now)])
  }

  function Release(s: State, k: Claim): State {
    if !Holds(s, k) then s
    else
      s.(deliveries := s.deliveries[k.id := s.deliveries[k.id].(
        status := RetryScheduled, nextAttemptAt := s.now,
        leaseToken := None, leaseExpiresAt := None, updatedAt := s.now)])
  }

  function CandidateOf(s: State, id: nat): Candidate
    requires id in s.deliveries
  {
    var d := s.deliveries[id];
    Candidate(id, d.org, d.endpoint, d.attemptCount > 0)
  }

  predicate AllRows(s: State, ids: seq<nat>) { forall id :: id in ids ==> id in s.deliveries }

  /** Candidates grouped by organization and endpoint, in candidate order. */
  function Grouped(s: State, ids: seq<nat>): (q: map<Key, seq<Candidate>>)
    requires AllRows(s, ids)
  {
    if ids == [] then map[]
    else
      var rest := Grouped(s, ids[..|ids| - 1]);
      var d := CandidateOf(s, ids[|ids| - 1]);
      var key := (d.org, d.endpoint);
      rest[key := (if key in rest then rest[key] else []) + [d]]
  }

  function OrgIds(s: State, ids: seq<nat>): set<nat>
    requires AllRows(s, ids)
  {
    set id | id in ids :: s.deliveries[id].org
  }

  function EndpointIds(s: State, ids: seq<nat>): set<nat>
    requires AllRows(s, ids)
  {
    set id | id in ids :: s.deliveries[id].endpoint
  }

  function EndpointIdsOf(s: State, ids: seq<nat>, org: nat): set<nat>
    requires AllRows(s, ids)
  {
    set id | id in ids && s.deliveries[id].org == org :: s.deliveries[id].endpoint
  }

  /** Both endpoint buckets brought up to now. */
  function Refilled(c: Settings, e: Runtime, now: real): Runtime
    requires ValidSettings(c)
  {
    var b := ConsumeTokens(e.deliveryTokens, e.refilledAt, c.endpointRate, c.endpointBurst, 0, now, c.quotaRetryAfterMax);
    var r := ConsumeTokens(e.retryTokens, e.retryRefilledAt, c.retryRate, c.retryBurst, 0, now, c.quotaRetryAfterMax);
    e.(deliveryTokens := b.tokens, refilledAt := b.refilledAt,
       retryTokens := r.tokens, retryRefilledAt := r.refilledAt)
  }

  function RuntimeRow(c: Settings, s: State, ep: nat): Runtime {
    if ep in s.runtime then s.runtime[ep] else FreshRuntime(c, s.now)
  }

  function TenantRow(c: Settings, s: State, org: nat): Tenant {
    if org in s.tenants then s.tenants[org] else FreshTenant(c, s.now)
  }

  /** What the selection loop starts from. */
  function StartOf(c: Settings, s: State, ids: seq<nat>): Sched
    requires ValidSettings(c) && AllRows(s, ids)
  {
    var orgIds := OrgIds(s, ids);
    var endpointIds := EndpointIds(s, ids);
    var tenants := map o | o in s.tenants.Keys + orgIds :: TenantRow(c, s, o);
    Sched(
      Grouped(s, ids),
      map o | o in orgIds :: Rotated(Sorted(EndpointIdsOf(s, ids, o)), TenantRow(c, s, o).endpointCursor),
      map o | o in (set id | id in s.deliveries :: s.deliveries[id].org) :: |LiveOfOrg(s, o)|,
      map e | e in (set id | id in s.deliveries :: s.deliveries[id].endpoint) :: |LiveOfEndpoint(s, e)|,
      map e | e in s.runtime.Keys + endpointIds ::
        if e in endpointIds then Refilled(c, RuntimeRow(c, s, e), s.now) else s.runtime[e],
      tenants, s.cursor, [])
  }

  function KeyOf(s: State, id: nat): Key
    requires id in s.deliveries
  {
    (s.deliveries[id].org, s.deliveries[id].endpoint)
  }

  lemma {:induction false} GroupedKeys(s: State, ids: seq<nat>, id: nat)
    requires AllRows(s, ids) && id in ids
    ensures KeyOf(s, id) in Grouped(s, ids)
  {
    if ids[|ids| - 1] != id { GroupedKeys(s, ids[..|ids| - 1], id); }
  }

  lemma {:induction false} GroupedMember(s: State, ids: seq<nat>, k: Key, d: Candidate)
    requires AllRows(s, ids) && k in Grouped(s, ids) && d in Grouped(s, ids)[k]
    ensures d.id in ids && d == CandidateOf(s, d.id) && KeyOf(s, d.id) == k
  {
    var rest := ids[..|ids| - 1];
    if k in Grouped(s, rest) && d in Grouped(s, rest)[k] { GroupedMember(s, rest, k, d); }
  }

  lemma StartReady(c: Settings, s: State, ids: seq<nat>)
    requires ValidSettings(c) && AllRows(s, ids)
    ensures AllReady(StartOf(c, s, ids), Rotated(Sorted(OrgIds(s, ids)), s.cursor))
  {
    var start := StartOf(c, s, ids);
    var orgs := Sorted(OrgIds(s, ids));
    forall o | o in Rotated(orgs, s.cursor) ensures Ready(start, o) {
      RotatedMember(orgs, s.cursor, o);
      OrgReady(c, s, ids, o);
    }
  }

  lemma OrgReady(c: Settings, s: State, ids: seq<nat>, o: nat)
    requires ValidSettings(c) && AllRows(s, ids) && o in OrgIds(s, ids)
    ensures Ready(StartOf(c, s, ids), o)
  {
    var start := StartOf(c, s, ids);
    forall ep | ep in start.rotation[o] ensures (o, ep) in start.queues && ep in start.runtime {
      assert ep in Sorted(EndpointIdsOf(s, ids, o));
      var id :| id in ids && s.deliveries[id].org == o && s.deliveries[id].endpoint == ep;
      GroupedKeys(s, ids, id);
      assert ep in EndpointIds(s, ids);
    }
  }

  function FreeSlots(c: Settings, s: State, limit: nat): int {
    MinInt(limit, c.globalConcurrency - |LiveIds(s)|)
  }

  /** The tables after the selection loop over the given candidates. */
  function Chosen(c: Settings, s: State, limit: nat, ids: seq<nat>): Sched
    requires ValidSettings(c) && AllRows(s, ids) && FreeSlots(c, s, limit) > 0
  {
    StartReady(c, s, ids);
    Rounds(c, s.now, StartOf(c, s, ids), Rotated(Sorted(OrgIds(s, ids)), s.cursor), FreeSlots(c, s, limit))
  }

  function ClaimedRow(c: Settings, d: Delivery, now: real, token: nat): Delivery {
    d.(status := Processing, attemptCount := d.attemptCount + 1,
       leaseToken := Some(token), leaseExpiresAt := Some(now + c.leaseSeconds), updatedAt := now)
  }

  /** The delivery table after the first `n` selected rows are leased. */
  function ClaimedRows(c: Settings, s: State, sel: seq<Candidate>, n: nat): (ds: map<nat, Delivery>)
    requires n <= |sel| && forall d :: d in sel ==> d.id in s.deliveries
    ensures ds.Keys == s.deliveries.Keys
  {
    if n == 0 then s.deliveries
    else
      var ds := ClaimedRows(c, s, sel, n - 1);
      var id := sel[n - 1].id;
      assert sel[n - 1] in sel;
      ds[id := ClaimedRow(c, ds[id], s.now, s.nextToken + n - 1)]
  }

  predicate CanSend(s: State, id: nat) {
    && id in s.deliveries
    && s.deliveries[id].event in s.events
    && s.events[s.deliveries[id].event].envelope.Some?
  }

  function ClaimOf(s: State, id: nat, token: nat): Claim
    requires CanSend(s, id)
  {
    var d := s.deliveries[id];
    Claim(id, token, d.attemptCount + 1, s.now, d.createdAt, d.snapshot, s.events[d.event].envelope.value)
  }

  predicate AllCanSend(s: State, sel: seq<Candidate>) { forall d :: d in sel ==> CanSend(s, d.id) }

  /** The claims handed out after the first `n` selected rows. */
  function IssuedAfter(s: State, sel: seq<Candidate>, n: nat): map<nat, Claim>
    requires AllCanSend(s, sel) && n <= |sel|
  {
    if n == 0 then s.issued
    else
      assert sel[n - 1] in sel;
      IssuedAfter(s, sel, n - 1)[s.nextToken + n - 1 := ClaimOf(s, sel[n - 1].id, s.nextToken + n - 1)]
  }

  /** Lease every selected row and hand out the claims. */
  function Lease(c: Settings, s: State, t: Sched): State
    requires AllCanSend(s, t.selected)
  {
    s.(runtime := t.runtime, tenants := t.tenants, cursor := t.cursor,
       deliveries := ClaimedRows(c, s, t.selected, |t.selected|),
       issued := IssuedAfter(s, t.selected, |t.selected|),
       nextToken := s.nextToken + |t.selected|)
  }

  /** A claim commits unless nothing is asked, free or due, or a selected row's
      event holds no envelope: that aborts the transaction. */
  predicate ClaimCommits(c: Settings, s: State, limit: nat, ids: seq<nat>)
    requires ValidSettings(c) && AllRows(s, ids)
  {
    && limit > 0 && FreeSlots(c, s, limit) > 0 && ids != []
    && AllCanSend(s, Chosen(c, s, limit, ids).selected)
  }

  /** Claim due work. */
  function ClaimDue(c: Settings, s: State, limit: nat, ids: seq<nat>): State
    requires ValidSettings(c) && AllRows(s, ids)
  {
    if ClaimCommits(c, s, limit, ids) then Lease(c, s, Chosen(c, s, limit, ids)) else s
  }

  // ---- attempts and finalization ------------------------------------------------

  datatype Failure =
    | NoFailure | TimedOut | ProxyDenied | Network(name: string) | Unsafe(reason: string) | BadValue(name: string)

  /** What came back from the endpoint: a status and Retry-After header, if any
      arrived, and the exception that ended the attempt, if any. */
  datatype Response = Response(
    status: Option<int>, retryAfter: Option<string>, date: Option<real>, failure: Failure)

  datatype AttemptResult = AttemptResult(
    succeeded: bool, retryable: bool, status: Option<int>, error: Option<string>, retryAfter: Option<real>)

  predicate IsSuccess(status: Option<int>) { status.Some? && 200 <= status.value < 300 }

  function AttemptError(r: Response): Option<string> {
    match r.failure
    case NoFailure =>
      if r.status.None? || IsSuccess(r.status) then None
      else Some(if IsRetryableStatus(r.status) then "retryable_http_status" else "http_status")
    case TimedOut => Some("attempt_timeout")
    case ProxyDenied => Some("egress_proxy_denied")
    case Network(name) => Some(name)
    case Unsafe(reason) => Some("unsafe_webhook_url:" + reason)
    case BadValue(name) => Some(name)
  }

  predicate TooOld(c: Settings, k: Claim, started: real) { started - k.createdAt >= c.maxAge }

  /** One attempt that starts at `started`: refused for age or inactivity, else
      judged by the response. */
  function PerformAttempt(c: Settings, k: Claim, started: real, r: Response): AttemptResult {
    if TooOld(c, k, started) then AttemptResult(false, false, None, Some("max_delivery_age"), None)
    else if !k.snapshot.active then
      AttemptResult(false, false, None, Some("endpoint_inactive_at_acceptance"), None)
    else
      var retryable :=
        (r.failure.NoFailure? && IsRetryableStatus(r.status)) || r.failure.TimedOut? || r.failure.Network?;
      AttemptResult(
        IsSuccess(r.status), retryable, r.status, AttemptError(r),
        if r.status.Some? then ParseRetryAfter(r.retryAfter, r.date, c.retryAfterMax) else None)
  }

  function Opened(e: Runtime, until: real): Runtime {
    e.(circuit := Open, openUntil := Some(until), probe := None)
  }

  function ClosedFresh(e: Runtime): Runtime {
    e.(circuit := Closed, failures := 0, openUntil := None, probe := None)
  }

  /** The endpoint row after delivery `id` finished with result `r`. */
  function FinalizedRuntime(c: Settings, e: Runtime, id: nat, r: AttemptResult, now: real): Runtime {
    var isProbe := e.probe == Some(id);
    if r.succeeded then
      ClosedFresh(e).(
        retryTokens := MinReal(c.retryBurst as real, e.retryTokens + c.retrySuccessRefill as real),
        retryRefilledAt := now)
    else if r.retryable then
      var e1 := e.(failures := e.failures + 1);
      if isProbe || (e.circuit.Closed? && e1.failures >= c.circuitThreshold)
      then Opened(e1, now + c.circuitOpenSeconds) else e1
    else if isProbe && r.error == Some("max_delivery_age") then Opened(e, now)
    else if isProbe || r.error != Some("max_delivery_age") then ClosedFresh(e)
    else e
  }

  function Deadline(c: Settings, d: Delivery): real { d.createdAt + c.maxAge }

  function RetryDelay(r: AttemptResult, jitter: real): real {
    MaxReal(jitter, if r.retryAfter.Some? then r.retryAfter.value else 0.0)
  }

  /** Retryable, attempts left, and both now and the retry time before the age
      deadline. */
  predicate RetriesAgain(c: Settings, d: Delivery, k: Claim, r: AttemptResult, now: real, jitter: real) {
    && r.retryable && k.attemptNumber < c.maxAttempts
    && now < Deadline(c, d)
    && now + RetryDelay(r, jitter) < Deadline(c, d)
  }

  function DeadReason(c: Settings, d: Delivery, k: Claim, r: AttemptResult, now: real): string {
    if r.retryable && k.attemptNumber < c.maxAttempts && now < Deadline(c, d) then "max_delivery_age"
    else if now >= Deadline(c, d) || r.error == Some("max_delivery_age") then "max_delivery_age"
    else if r.retryable && k.attemptNumber >= c.maxAttempts then "max_attempts"
    else if r.status.Some? && 400 <= r.status.value < 500 then "non_retryable_http"
    else if r.error.Some? && r.error.value != "" then r.error.value[..MinInt(64, |r.error.value|)]
    else "non_retryable_failure"
  }

  /** The delivery row after a finished attempt, with its new attempt record. */
  function FinalizedRow(
    c: Settings, d: Delivery, k: Claim, r: AttemptResult, now: real, started: real, jitter: real
  ): Delivery {
    var outcome :=
      if r.succeeded then Succeeded
      else if RetriesAgain(c, d, k, r, now, jitter) then RetryScheduled
      else Dead;
    d.(status := outcome,
       nextAttemptAt := if outcome.RetryScheduled? then now + RetryDelay(r, jitter) else now,
       deadReason := if outcome.Dead? then Some(DeadReason(c, d, k, r, now)) else None,
       leaseToken := None, leaseExpiresAt := None, updatedAt := now,
       attempts := d.attempts + [Attempt(k.attemptNumber, started, now, outcome)])
  }

  function Finalize(c: Settings, s: State, k: Claim, started: real, resp: Response, jitter: real): State {
    if !HoldsLive(s, k) || s.deliveries[k.id].endpoint !in s.runtime then s
    else
      var d := s.deliveries[k.id];
      var r := PerformAttempt(c, k, started, resp);
      s.(runtime := s.runtime[d.endpoint := FinalizedRuntime(c, s.runtime[d.endpoint], k.id, r, s.now)],
         deliveries := s.deliveries[k.id := FinalizedRow(c, d, k, r, s.now, started, jitter)])
  }

  // ---- operator actions ---------------------------------------------------------

  function CanceledRow(d: Delivery, now: real): Delivery {
    d.(status := Canceled, nextAttemptAt := now, updatedAt := now)
  }

  /** Cancel a queued delivery; losing the probe reopens its circuit. */
  function Cancel(s: State, id: nat): State {
    if id !in s.deliveries || !Queued(s.deliveries[id].status) then s
    else
      var ep := s.deliveries[id].endpoint;
      s.(deliveries := s.deliveries[id := CanceledRow(s.deliveries[id], s.now)],
         runtime := if ep in s.runtime && s.runtime[ep].probe == Some(id)
                    then s.runtime[ep := Opened(s.runtime[ep], s.now)] else s.runtime)
  }

  function Pause(s: State, ep: nat): State {
    if ep !in s.runtime then s
    else
      var e := s.runtime[ep];
      s.(runtime := s.runtime[ep := e.(pausedAt := if e.pausedAt.Some? then e.pausedAt else Some(s.now))])
  }

  function Resume(s: State, ep: nat): State {
    if ep !in s.runtime then s else s.(runtime := s.runtime[ep := s.runtime[ep].(pausedAt := None)])
  }

  /** A closed circuit with a full retry budget. */
  function Recovered(c: Settings, e: Runtime, now: real): Runtime {
    ClosedFresh(e).(retryTokens := c.retryBurst as real, retryRefilledAt := now)
  }

  function Recover(c: Settings, s: State, ep: nat): State {
    if ep !in s.runtime then s else s.(runtime := s.runtime[ep := Recovered(c, s.runtime[ep], s.now)])
  }

  function RotateSecret(c: Settings, s: State, ep: nat): State {
    if ep !in s.endpoints || (ep, s.endpoints[ep].secretVersion) !in s.versions then s
    else
      var v := s.endpoints[ep].secretVersion;
      s.(versions := s.versions[(ep, v) := s.versions[(ep, v)].(retireAt := Some(s.now + c.secretOverlap))]
                                [(ep, v + 1) := SecretVersion(s.now, None)],
         endpoints := s.endpoints[ep := s.endpoints[ep].(secretVersion := v + 1)])
  }
}
