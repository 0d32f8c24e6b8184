/** The round-robin core of `select_fair_deliveries` (`app/scheduling.py`) as a
    function on values: one endpoint visit, one scan of an organization's
    endpoints, one pass over the organizations, and the loop of passes. */
module Scheduler {
  import opened Base
  import opened Types

  /** A due delivery as the selection loop sees it. */
  datatype Candidate = Candidate(id: nat, org: nat, endpoint: nat, retry: bool)

  type Key = (nat, nat)

  /** Everything the selection loop reads and writes. `queues` is indexed by
      organization and endpoint; `rotation` holds each organization's deque of
      endpoint ids. */
  datatype Sched = Sched(
    queues: map<Key, seq<Candidate>>, rotation: map<nat, seq<nat>>,
    orgCount: map<nat, nat>, endpointCount: map<nat, nat>,
    runtime: map<nat, Runtime>, tenants: map<nat, Tenant>, cursor: Option<nat>,
    selected: seq<Candidate>)

  function Get(m: map<nat, nat>, k: nat): nat { if k in m then m[k] else 0 }

  // ---- rotation -------------------------------------------------------

  /** Position of the first value above the cursor, or the length. */
  function FirstAbove(values: seq<nat>, cursor: nat, i: nat): (r: nat)
    requires i <= |values|
    ensures i <= r <= |values|
    ensures forall k :: i <= k < r ==> values[k] <= cursor
    ensures r < |values| ==> values[r] > cursor
    decreases |values| - i
  {
    if i == |values| || values[i] > cursor then i else FirstAbove(values, cursor, i + 1)
  }

  function Rotated(values: seq<nat>, cursor: Option<nat>): seq<nat> {
    if cursor.None? then values
    else
      var k := FirstAbove(values, cursor.value, 0);
      values[k..] + values[..k]
  }

  lemma RotatedMember(values: seq<nat>, cursor: Option<nat>, x: nat)
    requires x in Rotated(values, cursor)
    ensures x in values
  {
  }

  method RotateAfter(values: seq<nat>, cursor: Option<nat>) returns (r: seq<nat>)
    ensures r == Rotated(values, cursor)
  {
    if |values| == 0 || cursor.None? {
      return values;
    }
    for index := 0 to |values|
      invariant FirstAbove(values, cursor.value, 0) == FirstAbove(values, cursor.value, index)
    {
      if values[index] > cursor.value {
        return values[index..] + values[..index];
      }
    }
    assert values[|values|..] + values[..|values|] == values;
    return values;
  }

  // ---- blocking conditions --------------------------------------------

  /** Open, and either without an end or not yet past it. */
  predicate OpenUnelapsed(e: Runtime, now: real) {
    e.circuit.Open? && (e.openUntil.None? || e.openUntil.value > now)
  }

  predicate ProbeElsewhere(e: Runtime, id: nat) {
    e.circuit.HalfOpen? && e.probe != None && e.probe != Some(id)
  }

  /** An elapsed open circuit becomes half-open with no probe. */
  function Elapse(e: Runtime): Runtime {
    if e.circuit.Open? then e.(circuit := HalfOpen, openUntil := None, probe := None) else e
  }

  predicate NoRoom(c: Settings, e: Runtime, leases: nat, d: Candidate) {
    || leases >= c.endpointConcurrency
    || e.deliveryTokens < 1.0
    || (d.retry && e.retryTokens < 1.0)
  }

  /** Why the head of an endpoint's queue cannot be taken now: pause, circuit,
      concurrency or tokens. */
  predicate Blocked(c: Settings, now: real, e: Runtime, leases: nat, d: Candidate) {
    e.pausedAt.Some? || OpenUnelapsed(e, now) || ProbeElsewhere(e, d.id) || NoRoom(c, e, leases, d)
  }

  predicate AtCap(c: Settings, s: Sched, org: nat) { Get(s.orgCount, org) >= c.tenantInFlight }

  // ---- the selection loop ---------------------------------------------

  predicate Ready(s: Sched, org: nat) {
    && org in s.tenants
    && org in s.rotation
    && forall ep :: ep in s.rotation[org] ==> (org, ep) in s.queues && ep in s.runtime
  }

  function Rotate(s: Sched, org: nat): Sched
    requires org in s.rotation && s.rotation[org] != []
  {
    var q := s.rotation[org];
    s.(rotation := s.rotation[org := q[1..] + [q[0]]])
  }

  /** Charge one delivery to an endpoint, and record it as the probe of a
      half-open circuit. */
  function Charge(e: Runtime, d: Candidate): Runtime {
    e.(deliveryTokens := e.deliveryTokens - 1.0,
       retryTokens := if d.retry then e.retryTokens - 1.0 else e.retryTokens,
       probe := if e.circuit.HalfOpen? then Some(d.id) else e.probe)
  }

  /** What happens to an endpoint when the head of its queue is tried. */
  function TryHead(c: Settings, now: real, e: Runtime, leases: nat, d: Candidate): (r: (Runtime, bool))
    ensures r.1 <==> !Blocked(c, now, e, leases, d)
  {
    if e.pausedAt.Some? || OpenUnelapsed(e, now) then (e, false)
    else if ProbeElsewhere(Elapse(e), d.id) || NoRoom(c, e, leases, d) then (Elapse(e), false)
    else (Charge(Elapse(e), d), true)
  }

  /** Move the head of a queue to the selection and advance counts and cursors. */
  function Take(s: Sched, key: Key): Sched
    requires key in s.queues && s.queues[key] != [] && key.0 in s.tenants
  {
    s.(queues := s.queues[key := s.queues[key][1..]],
       selected := s.selected + [s.queues[key][0]],
       endpointCount := s.endpointCount[key.1 := Get(s.endpointCount, key.1) + 1],
       orgCount := s.orgCount[key.0 := Get(s.orgCount, key.0) + 1],
       tenants := s.tenants[key.0 := s.tenants[key.0].(endpointCursor := Some(key.1))],
       cursor := Some(key.0))
  }

  /** Visit the endpoint at the front of the organization's deque. */
  function Visit(c: Settings, now: real, s: Sched, org: nat): (r: (Sched, bool))
    requires Ready(s, org) && s.rotation[org] != []
    ensures Ready(r.0, org) && |r.0.rotation[org]| == |s.rotation[org]|
  {
    var ep := s.rotation[org][0];
    var queue := s.queues[(org, ep)];
    if queue == [] then (Rotate(s, org), false)
    else
      var (e, took) := TryHead(c, now, s.runtime[ep], Get(s.endpointCount, ep), queue[0]);
      var s1 := Rotate(s, org).(runtime := s.runtime[ep := e]);
      if took then (Take(s1, (org, ep)), true) else (s1, false)
  }

  /** Up to `n` endpoint visits, stopping at the first that yields a delivery. */
  function Scan(c: Settings, now: real, s: Sched, org: nat, n: nat): (r: (Sched, bool))
    requires Ready(s, org) && n <= |s.rotation[org]|
    decreases n
  {
    if n == 0 then (s, false)
    else
      var (s1, took) := Visit(c, now, s, org);
      if took then (s1, true) else Scan(c, now, s1, org, n - 1)
  }

  predicate AllReady(s: Sched, orgs: seq<nat>) { forall o :: o in orgs ==> Ready(s, o) }

  /** One turn of an organization: nothing at its cap, else a full scan. */
  function Turn(c: Settings, now: real, s: Sched, org: nat): (Sched, bool)
    requires Ready(s, org)
  {
    if AtCap(c, s, org) then (s, false) else Scan(c, now, s, org, |s.rotation[org]|)
  }

  lemma {:induction false} ScanKeepsReady(c: Settings, now: real, s: Sched, org: nat, n: nat, orgs: seq<nat>)
    requires Ready(s, org) && n <= |s.rotation[org]| && AllReady(s, orgs)
    ensures var (t, took) := Scan(c, now, s, org, n);
            AllReady(t, orgs) && |t.selected| == |s.selected| + if took then 1 else 0
    decreases n
  {
    if n > 0 {
      var (t, took) := Visit(c, now, s, org);
      forall o | o in orgs ensures Ready(t, o) { assert Ready(s, o); }
      if !took { ScanKeepsReady(c, now, t, org, n - 1, orgs); }
    }
  }

  /** One pass over the organizations, cut short once `available` are taken. */
  function Pass(
    c: Settings, now: real, s: Sched, orgs: seq<nat>, available: nat, progress: bool
  ): (Sched, bool)
    requires AllReady(s, orgs)
    decreases |orgs|
  {
    if orgs == [] || |s.selected| >= available then (s, progress)
    else
      var (s1, took) := Turn(c, now, s, orgs[0]);
      ScanKeepsReady(c, now, s, orgs[0], |s.rotation[orgs[0]]|, orgs);
      Pass(c, now, s1, orgs[1..], available, progress || took)
  }

  lemma {:induction false} PassKeepsReady(
    c: Settings, now: real, s: Sched, orgs: seq<nat>, available: nat, progress: bool, all: seq<nat>)
    requires AllReady(s, orgs) && AllReady(s, all)
    ensures var (t, p) := Pass(c, now, s, orgs, available, progress);
            && AllReady(t, all)
            && |s.selected| <= |t.selected|
            && (p <==> progress || |t.selected| > |s.selected|)
    decreases |orgs|
  {
    if orgs != [] && |s.selected| < available {
      var (t, took) := Turn(c, now, s, orgs[0]);
      ScanKeepsReady(c, now, s, orgs[0], |s.rotation[orgs[0]]|, orgs);
      ScanKeepsReady(c, now, s, orgs[0], |s.rotation[orgs[0]]|, all);
      PassKeepsReady(c, now, t, orgs[1..], available, progress || took, all);
    }
  }

  /** Passes until `available` are taken or a whole pass takes nothing. */
  function Rounds(c: Settings, now: real, s: Sched, orgs: seq<nat>, available: nat): Sched
    requires AllReady(s, orgs)
    decreases available - |s.selected|
  {
    if |s.selected| >= available then s
    else
      var (s1, progress) := Pass(c, now, s, orgs, available, false);
      PassKeepsReady(c, now, s, orgs, available, false, orgs);
      if progress then Rounds(c, now, s1, orgs, available) else s1
  }
}
