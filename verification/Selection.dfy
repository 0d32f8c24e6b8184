/** What one scheduler call does to the tables: exact accounting of every cap
    and bucket, pause and circuit rules, and selection of prefixes. */
module Selection {
  import opened Base
  import opened Types
  import opened Scheduler

  // ---- what was taken, by queue, organization and endpoint --------------

  function Picks(sel: seq<Candidate>, key: Key): seq<Candidate> {
    if sel == [] then []
    else
      var d := sel[|sel| - 1];
      Picks(sel[..|sel| - 1], key) + if (d.org, d.endpoint) == key then [d] else []
  }

  function OrgPicks(sel: seq<Candidate>, org: nat): nat {
    if sel == [] then 0
    else OrgPicks(sel[..|sel| - 1], org) + if sel[|sel| - 1].org == org then 1 else 0
  }

  function EndpointPicks(sel: seq<Candidate>, ep: nat): nat {
    if sel == [] then 0
    else EndpointPicks(sel[..|sel| - 1], ep) + if sel[|sel| - 1].endpoint == ep then 1 else 0
  }

  function RetryPicks(sel: seq<Candidate>, ep: nat): nat {
    if sel == [] then 0
    else
      var d := sel[|sel| - 1];
      RetryPicks(sel[..|sel| - 1], ep) + if d.endpoint == ep && d.retry then 1 else 0
  }

  lemma PicksOfMore(sel: seq<Candidate>, d: Candidate, k: Key)
    ensures Picks(sel + [d], k) == Picks(sel, k) + if (d.org, d.endpoint) == k then [d] else []
    ensures OrgPicks(sel + [d], k.0) == OrgPicks(sel, k.0) + if d.org == k.0 then 1 else 0
    ensures EndpointPicks(sel + [d], k.1) == EndpointPicks(sel, k.1) + if d.endpoint == k.1 then 1 else 0
    ensures RetryPicks(sel + [d], k.1) == RetryPicks(sel, k.1) + if d.endpoint == k.1 && d.retry then 1 else 0
  {
    assert (sel + [d])[..|sel|] == sel;
  }

  // ---- the accounting invariant -----------------------------------------

  /** Candidates sit in their own queue, each once, and nothing is taken yet. */
  ghost predicate Fresh(s: Sched) {
    && s.selected == []
    && (forall k, d :: k in s.queues && d in s.queues[k] ==> (d.org, d.endpoint) == k)
    && (forall k :: k in s.queues ==> Distinct(s.queues[k]))
  }

  type Queues = map<Key, seq<Candidate>>

  /** Each queue is what was taken from it followed by what is left. */
  ghost predicate QueuesSplit(q0: Queues, q: Queues, sel: seq<Candidate>) {
    && q.Keys == q0.Keys
    && (forall k :: k in q0 ==> q0[k] == Picks(sel, k) + q[k])
    && (forall d :: d in sel ==> (d.org, d.endpoint) in q0)
  }

  /** Organization leases grew by what was taken and respect the cap. */
  ghost predicate OrgsWithin(c: Settings, n0: map<nat, nat>, n: map<nat, nat>, sel: seq<Candidate>) {
    forall o: nat ::
      && Get(n, o) == Get(n0, o) + OrgPicks(sel, o)
      && (OrgPicks(sel, o) > 0 ==> Get(n, o) <= c.tenantInFlight)
  }

  /** The circuit of an endpoint moves only from elapsed-open to half-open and
      from no probe to a probe. */
  predicate CircuitMoved(now: real, e0: Runtime, e: Runtime) {
    || (e.circuit == e0.circuit && e.openUntil == e0.openUntil && e.probe == e0.probe)
    || (e0.circuit.Open? && !OpenUnelapsed(e0, now) && e.circuit.HalfOpen? && e.openUntil.None?)
    || (e0.circuit.HalfOpen? && e0.probe.None? && e.circuit.HalfOpen? && e.openUntil == e0.openUntil)
  }

  /** One endpoint's tokens and leases after `n` picks, `r` of them retries. */
  predicate TokensWithin(c: Settings, e0: Runtime, e: Runtime, leases: nat, n: nat, r: nat) {
    && e.deliveryTokens == e0.deliveryTokens - n as real
    && e.retryTokens == e0.retryTokens - r as real
    && e.refilledAt == e0.refilledAt && e.retryRefilledAt == e0.retryRefilledAt
    && (n > 0 ==> e.deliveryTokens >= 0.0 && leases <= c.endpointConcurrency)
    && (r > 0 ==> e.retryTokens >= 0.0)
  }

  /** One endpoint's pause and circuit: nothing is taken while it is paused or
      open, and while it is half-open only its probe is taken. */
  ghost predicate CircuitWithin(now: real, e0: Runtime, e: Runtime, sel: seq<Candidate>, ep: nat) {
    && e.failures == e0.failures && e.pausedAt == e0.pausedAt
    && CircuitMoved(now, e0, e)
    && forall d :: d in sel && d.endpoint == ep ==>
         && e.pausedAt.None? && !e.circuit.Open?
         && (e.circuit.HalfOpen? ==> e.probe == Some(d.id))
  }

  ghost predicate EndpointWithin(
    c: Settings, now: real, e0: Runtime, e: Runtime, leases: nat, sel: seq<Candidate>, ep: nat)
  {
    && TokensWithin(c, e0, e, leases, EndpointPicks(sel, ep), RetryPicks(sel, ep))
    && CircuitWithin(now, e0, e, sel, ep)
  }

  ghost predicate EndpointsWithin(
    c: Settings, now: real, r0: map<nat, Runtime>, n0: map<nat, nat>,
    r: map<nat, Runtime>, n: map<nat, nat>, sel: seq<Candidate>)
  {
    && r.Keys == r0.Keys
    && (forall ep: nat :: Get(n, ep) == Get(n0, ep) + EndpointPicks(sel, ep))
    && (forall ep :: ep in r0 ==> EndpointWithin(c, now, r0[ep], r[ep], Get(n, ep), sel, ep))
  }

  /** Only cursors change in the tenant rows, and the global cursor names the
      organization served last. */
  ghost predicate CursorsMoved(
    t0: map<nat, Tenant>, c0: Option<nat>, t: map<nat, Tenant>, c: Option<nat>, sel: seq<Candidate>)
  {
    && t.Keys == t0.Keys
    && (forall o :: o in t0 ==> t[o] == t0[o].(endpointCursor := t[o].endpointCursor))
    && c == (if sel == [] then c0 else Some(sel[|sel| - 1].org))
  }

  // ---- a call as a sequence of visits -------------------------------------

  /** The organizations of `visits` are visited in turn, each below its cap. */
  ghost predicate Allowed(c: Settings, now: real, s: Sched, visits: seq<nat>)
    decreases |visits|
  {
    visits == [] ||
    (&& Ready(s, visits[0]) && s.rotation[visits[0]] != [] && !AtCap(c, s, visits[0])
     && Allowed(c, now, Visit(c, now, s, visits[0]).0, visits[1..]))
  }

  ghost function Run(c: Settings, now: real, s: Sched, visits: seq<nat>): Sched
    requires Allowed(c, now, s, visits)
    decreases |visits|
  {
    if visits == [] then s else Run(c, now, Visit(c, now, s, visits[0]).0, visits[1..])
  }

  lemma {:induction false} RunTwice(c: Settings, now: real, s: Sched, v: seq<nat>, w: seq<nat>)
    requires Allowed(c, now, s, v) && Allowed(c, now, Run(c, now, s, v), w)
    ensures Allowed(c, now, s, v + w)
    ensures Run(c, now, s, v + w) == Run(c, now, Run(c, now, s, v), w)
    decreases |v|
  {
    if v == [] {
      assert v + w == w;
    } else {
      assert (v + w)[1..] == v[1..] + w;
      RunTwice(c, now, Visit(c, now, s, v[0]).0, v[1..], w);
    }
  }

  lemma {:induction false} ScanVisits(c: Settings, now: real, s: Sched, org: nat, n: nat) returns (v: seq<nat>)
    requires Ready(s, org) && n <= |s.rotation[org]| && !AtCap(c, s, org)
    ensures Allowed(c, now, s, v) && Run(c, now, s, v) == Scan(c, now, s, org, n).0
    decreases n
  {
    v := [];
    if n > 0 {
      var t := Visit(c, now, s, org).0;
      if !Visit(c, now, s, org).1 {
        v := ScanVisits(c, now, t, org, n - 1);
      }
      assert ([org] + v)[1..] == v;
      v := [org] + v;
    }
  }

  lemma {:induction false} PassVisits(
    c: Settings, now: real, s: Sched, orgs: seq<nat>, available: nat, progress: bool) returns (v: seq<nat>)
    requires AllReady(s, orgs) && |s.selected| <= available
    ensures Allowed(c, now, s, v) && Run(c, now, s, v) == Pass(c, now, s, orgs, available, progress).0
    ensures |Run(c, now, s, v).selected| <= available
    decreases |orgs|
  {
    v := [];
    if orgs != [] && |s.selected| < available {
      var t := Turn(c, now, s, orgs[0]).0;
      if !AtCap(c, s, orgs[0]) {
        v := ScanVisits(c, now, s, orgs[0], |s.rotation[orgs[0]]|);
      }
      ScanKeepsReady(c, now, s, orgs[0], |s.rotation[orgs[0]]|, orgs);
      var w := PassVisits(c, now, t, orgs[1..], available, progress || Turn(c, now, s, orgs[0]).1);
      RunTwice(c, now, s, v, w);
      v := v + w;
    }
  }

  lemma {:induction false} RoundsVisits(c: Settings, now: real, s: Sched, orgs: seq<nat>, available: nat) returns (v: seq<nat>)
    requires AllReady(s, orgs) && |s.selected| <= available
    ensures Allowed(c, now, s, v) && Run(c, now, s, v) == Rounds(c, now, s, orgs, available)
    ensures |Rounds(c, now, s, orgs, available).selected| <= available
    decreases available - |s.selected|
  {
    v := [];
    if |s.selected| < available {
      v := PassVisits(c, now, s, orgs, available, false);
      var (t, progress) := Pass(c, now, s, orgs, available, false);
      PassKeepsReady(c, now, s, orgs, available, false, orgs);
      if progress {
        var w := RoundsVisits(c, now, t, orgs, available);
        RunTwice(c, now, s, v, w);
        v := v + w;
      }
    }
  }

  // ---- one visit, one invariant at a time ----------------------------------

  lemma {:induction false} RunQueues(c: Settings, now: real, s0: Sched, s: Sched, v: seq<nat>)
    requires Fresh(s0) && QueuesSplit(s0.queues, s.queues, s.selected) && Allowed(c, now, s, v)
    ensures var t := Run(c, now, s, v); QueuesSplit(s0.queues, t.queues, t.selected)
    decreases |v|
  {
    if v != [] {
      VisitQueues(c, now, s0, s, v[0]);
      RunQueues(c, now, s0, Visit(c, now, s, v[0]).0, v[1..]);
    }
  }

  lemma VisitQueues(c: Settings, now: real, s0: Sched, s: Sched, org: nat)
    requires Fresh(s0) && QueuesSplit(s0.queues, s.queues, s.selected)
    requires Ready(s, org) && s.rotation[org] != []
    ensures var t := Visit(c, now, s, org).0; QueuesSplit(s0.queues, t.queues, t.selected)
  {
    var key: Key := (org, s.rotation[org][0]);
    if Visit(c, now, s, org).1 {
      HeadKeyed(s0, s, key);
      TakeSplits(s0.queues, s.queues, s.selected, key);
    }
  }

  lemma {:induction false} RunOrgs(c: Settings, now: real, s0: Sched, s: Sched, v: seq<nat>)
    requires Fresh(s0) && QueuesSplit(s0.queues, s.queues, s.selected) && Allowed(c, now, s, v)
    requires OrgsWithin(c, s0.orgCount, s.orgCount, s.selected)
    ensures var t := Run(c, now, s, v); OrgsWithin(c, s0.orgCount, t.orgCount, t.selected)
    decreases |v|
  {
    if v != [] {
      VisitQueues(c, now, s0, s, v[0]);
      VisitOrgs(c, now, s0, s, v[0]);
      RunOrgs(c, now, s0, Visit(c, now, s, v[0]).0, v[1..]);
    }
  }

  /** What a visit does to counts and selection. */
  lemma VisitCounts(c: Settings, now: real, s: Sched, org: nat)
    requires Ready(s, org) && s.rotation[org] != []
    ensures var (t, took) := Visit(c, now, s, org);
            var key: Key := (org, s.rotation[org][0]);
            && (!took ==> t.orgCount == s.orgCount && t.selected == s.selected)
            && (took ==> && s.queues[key] != [] && t.selected == s.selected + [s.queues[key][0]]
                         && t.orgCount == s.orgCount[org := Get(s.orgCount, org) + 1])
  {
  }

  lemma VisitOrgs(c: Settings, now: real, s0: Sched, s: Sched, org: nat)
    requires Fresh(s0) && QueuesSplit(s0.queues, s.queues, s.selected)
    requires Ready(s, org) && s.rotation[org] != [] && !AtCap(c, s, org)
    requires OrgsWithin(c, s0.orgCount, s.orgCount, s.selected)
    ensures var t := Visit(c, now, s, org).0; OrgsWithin(c, s0.orgCount, t.orgCount, t.selected)
  {
    VisitCounts(c, now, s, org);
    if Visit(c, now, s, org).1 {
      HeadKeyed(s0, s, (org, s.rotation[org][0]));
      TakenOrgs(c, s0.orgCount, s, Visit(c, now, s, org).0, s.queues[(org, s.rotation[org][0])][0]);
    }
  }

  lemma TakenOrgs(c: Settings, n0: map<nat, nat>, s: Sched, t: Sched, d: Candidate)
    requires OrgsWithin(c, n0, s.orgCount, s.selected) && Get(s.orgCount, d.org) < c.tenantInFlight
    requires t.selected == s.selected + [d] && t.orgCount == s.orgCount[d.org := Get(s.orgCount, d.org) + 1]
    ensures OrgsWithin(c, n0, t.orgCount, t.selected)
  {
    TakeOrgs(c, n0, s.orgCount, s.selected, d);
  }

  lemma {:induction false} RunEndpoints(c: Settings, now: real, s0: Sched, s: Sched, v: seq<nat>)
    requires Fresh(s0) && QueuesSplit(s0.queues, s.queues, s.selected) && Allowed(c, now, s, v)
    requires EndpointsWithin(c, now, s0.runtime, s0.endpointCount, s.runtime, s.endpointCount, s.selected)
    ensures var t := Run(c, now, s, v);
            EndpointsWithin(c, now, s0.runtime, s0.endpointCount, t.runtime, t.endpointCount, t.selected)
    decreases |v|
  {
    if v != [] {
      VisitQueues(c, now, s0, s, v[0]);
      VisitEndpoints(c, now, s0, s, v[0]);
      RunEndpoints(c, now, s0, Visit(c, now, s, v[0]).0, v[1..]);
    }
  }

  lemma VisitEndpoints(c: Settings, now: real, s0: Sched, s: Sched, org: nat)
    requires Fresh(s0) && QueuesSplit(s0.queues, s.queues, s.selected)
    requires Ready(s, org) && s.rotation[org] != []
    requires EndpointsWithin(c, now, s0.runtime, s0.endpointCount, s.runtime, s.endpointCount, s.selected)
    ensures var t := Visit(c, now, s, org).0;
            EndpointsWithin(c, now, s0.runtime, s0.endpointCount, t.runtime, t.endpointCount, t.selected)
  {
    var key: Key := (org, s.rotation[org][0]);
    if s.queues[key] != [] {
      HeadKeyed(s0, s, key);
      TriedEndpoints(c, now, s0, s, Visit(c, now, s, org).0, s.queues[key][0]);
    }
  }

  lemma TriedEndpoints(c: Settings, now: real, s0: Sched, s: Sched, t: Sched, d: Candidate)
    requires EndpointsWithin(c, now, s0.runtime, s0.endpointCount, s.runtime, s.endpointCount, s.selected)
    requires d.endpoint in s.runtime
    requires var leases := Get(s.endpointCount, d.endpoint);
             var (e, took) := TryHead(c, now, s.runtime[d.endpoint], leases, d);
             && t.runtime == s.runtime[d.endpoint := e]
             && (took ==> t.endpointCount == s.endpointCount[d.endpoint := leases + 1] && t.selected == s.selected + [d])
             && (!took ==> t.endpointCount == s.endpointCount && t.selected == s.selected)
    ensures EndpointsWithin(c, now, s0.runtime, s0.endpointCount, t.runtime, t.endpointCount, t.selected)
  {
    if TryHead(c, now, s.runtime[d.endpoint], Get(s.endpointCount, d.endpoint), d).1 {
      TakeEndpoints(c, now, s0.runtime, s0.endpointCount, s.runtime, s.endpointCount, s.selected, d);
    } else {
      SkipEndpoints(c, now, s0.runtime, s0.endpointCount, s.runtime, s.endpointCount, s.selected, d);
    }
  }

  lemma {:induction false} RunCursors(c: Settings, now: real, s0: Sched, s: Sched, v: seq<nat>)
    requires Fresh(s0) && QueuesSplit(s0.queues, s.queues, s.selected) && Allowed(c, now, s, v)
    requires CursorsMoved(s0.tenants, s0.cursor, s.tenants, s.cursor, s.selected)
    ensures var t := Run(c, now, s, v); CursorsMoved(s0.tenants, s0.cursor, t.tenants, t.cursor, t.selected)
    decreases |v|
  {
    if v != [] {
      VisitQueues(c, now, s0, s, v[0]);
      VisitCursors(c, now, s0, s, v[0]);
      RunCursors(c, now, s0, Visit(c, now, s, v[0]).0, v[1..]);
    }
  }

  lemma VisitCursors(c: Settings, now: real, s0: Sched, s: Sched, org: nat)
    requires Fresh(s0) && QueuesSplit(s0.queues, s.queues, s.selected)
    requires Ready(s, org) && s.rotation[org] != []
    requires CursorsMoved(s0.tenants, s0.cursor, s.tenants, s.cursor, s.selected)
    ensures var t := Visit(c, now, s, org).0;
            CursorsMoved(s0.tenants, s0.cursor, t.tenants, t.cursor, t.selected)
  {
    var key: Key := (org, s.rotation[org][0]);
    if Visit(c, now, s, org).1 {
      HeadKeyed(s0, s, key);
      TakeCursors(s0.tenants, s0.cursor, s.tenants, s.cursor, s.selected, s.queues[key][0]);
    }
  }

  lemma TakeCursors(
    t0: map<nat, Tenant>, c0: Option<nat>, t: map<nat, Tenant>, c: Option<nat>, sel: seq<Candidate>, d: Candidate)
    requires CursorsMoved(t0, c0, t, c, sel) && d.org in t
    ensures CursorsMoved(t0, c0, t[d.org := t[d.org].(endpointCursor := Some(d.endpoint))], Some(d.org), sel + [d])
  {
  }

  /** Everything a claim relies on, for a whole call: what is taken from an
      endpoint is a prefix of its queue, nothing is taken twice, at most
      `available` are taken, and every cap, bucket, pause and circuit rule is
      respected. */
  lemma CallAccounted(c: Settings, now: real, s0: Sched, orgs: seq<nat>, available: nat)
    requires Fresh(s0) && AllReady(s0, orgs)
    ensures var t := Rounds(c, now, s0, orgs, available);
            && |t.selected| <= available
            && Distinct(t.selected)
            && QueuesSplit(s0.queues, t.queues, t.selected)
            && OrgsWithin(c, s0.orgCount, t.orgCount, t.selected)
            && EndpointsWithin(c, now, s0.runtime, s0.endpointCount, t.runtime, t.endpointCount, t.selected)
            && CursorsMoved(s0.tenants, s0.cursor, t.tenants, t.cursor, t.selected)
  {
    var v := RoundsVisits(c, now, s0, orgs, available);
    RunQueues(c, now, s0, s0, v);
    RunOrgs(c, now, s0, s0, v);
    RunEndpoints(c, now, s0, s0, v);
    RunCursors(c, now, s0, s0, v);
    var t := Run(c, now, s0, v);
    SplitDistinct(s0.queues, t.queues, t.selected);
  }

  lemma SplitDistinct(q0: Queues, q: Queues, sel: seq<Candidate>)
    requires QueuesSplit(q0, q, sel) && forall k :: k in q0 ==> Distinct(q0[k])
    ensures Distinct(sel)
  {
    forall k | k in q0 ensures Distinct(Picks(sel, k)) {
      var p := Picks(sel, k);
      assert forall i :: 0 <= i < |p| ==> p[i] == q0[k][i];
    }
    PicksDistinct(sel);
  }

  /** A repeated candidate would be repeated among the picks of its queue. */
  lemma RepeatShows(rest: seq<Candidate>, d: Candidate)
    requires d in rest
    ensures !Distinct(Picks(rest + [d], (d.org, d.endpoint)))
  {
    var k: Key := (d.org, d.endpoint);
    PickCounted(rest, d);
    PicksOfMore(rest, d, k);
    var p := Picks(rest, k);
    var j :| 0 <= j < |p| && p[j] == d;
    assert Picks(rest + [d], k)[j] == Picks(rest + [d], k)[|p|];
  }

  lemma {:induction false} PicksDistinct(sel: seq<Candidate>)
    requires forall d :: d in sel ==> Distinct(Picks(sel, (d.org, d.endpoint)))
    ensures Distinct(sel)
  {
    if sel != [] {
      var rest := sel[..|sel| - 1];
      var d := sel[|sel| - 1];
      assert sel == rest + [d];
      forall x | x in rest ensures Distinct(Picks(rest, (x.org, x.endpoint))) {
        var k: Key := (x.org, x.endpoint);
        assert forall i :: 0 <= i < |Picks(rest, k)| ==> Picks(rest, k)[i] == Picks(sel, k)[i];
      }
      PicksDistinct(rest);
      if d in rest {
        RepeatShows(rest, d);
        assert false;
      }
    }
  }

  // ---- single-step facts behind the invariants -------------------------------

  lemma HeadKeyed(s0: Sched, s: Sched, key: Key)
    requires Fresh(s0) && QueuesSplit(s0.queues, s.queues, s.selected)
    requires key in s.queues && s.queues[key] != []
    ensures var d := s.queues[key][0]; (d.org, d.endpoint) == key
  {
    assert s.queues[key][0] == s0.queues[key][|Picks(s.selected, key)|];
  }

  lemma TakeSplits(q0: Queues, q: Queues, sel: seq<Candidate>, key: Key)
    requires QueuesSplit(q0, q, sel)
    requires key in q && q[key] != [] && (q[key][0].org, q[key][0].endpoint) == key
    ensures QueuesSplit(q0, q[key := q[key][1..]], sel + [q[key][0]])
  {
    var d := q[key][0];
    var q' := q[key := q[key][1..]];
    forall k | k in q0 ensures q0[k] == Picks(sel + [d], k) + q'[k] {
      PicksOfMore(sel, d, k);
      assert q[key] == [d] + q[key][1..];
    }
  }

  lemma TakeOrgs(c: Settings, n0: map<nat, nat>, n: map<nat, nat>, sel: seq<Candidate>, d: Candidate)
    requires OrgsWithin(c, n0, n, sel) && Get(n, d.org) < c.tenantInFlight
    ensures OrgsWithin(c, n0, n[d.org := Get(n, d.org) + 1], sel + [d])
  {
    var n' := n[d.org := Get(n, d.org) + 1];
    forall o: nat
      ensures Get(n', o) == Get(n0, o) + OrgPicks(sel + [d], o)
      ensures OrgPicks(sel + [d], o) > 0 ==> Get(n', o) <= c.tenantInFlight
    {
      PicksOfMore(sel, d, (o, 0));
    }
  }

  lemma SkipEndpoints(
    c: Settings, now: real, r0: map<nat, Runtime>, n0: map<nat, nat>,
    r: map<nat, Runtime>, n: map<nat, nat>, sel: seq<Candidate>, d: Candidate)
    requires EndpointsWithin(c, now, r0, n0, r, n, sel) && d.endpoint in r
    requires !TryHead(c, now, r[d.endpoint], Get(n, d.endpoint), d).1
    ensures var (e, _) := TryHead(c, now, r[d.endpoint], Get(n, d.endpoint), d);
            EndpointsWithin(c, now, r0, n0, r[d.endpoint := e], n, sel)
  {
    var ep := d.endpoint;
    HeadTried(c, now, r0[ep], r[ep], Get(n, ep), sel, d);
  }

  lemma TakeEndpoints(
    c: Settings, now: real, r0: map<nat, Runtime>, n0: map<nat, nat>,
    r: map<nat, Runtime>, n: map<nat, nat>, sel: seq<Candidate>, d: Candidate)
    requires EndpointsWithin(c, now, r0, n0, r, n, sel) && d.endpoint in r
    requires TryHead(c, now, r[d.endpoint], Get(n, d.endpoint), d).1
    ensures var (e, _) := TryHead(c, now, r[d.endpoint], Get(n, d.endpoint), d);
            EndpointsWithin(c, now, r0, n0, r[d.endpoint := e], n[d.endpoint := Get(n, d.endpoint) + 1], sel + [d])
  {
    var ep := d.endpoint;
    var r' := r[ep := TryHead(c, now, r[ep], Get(n, ep), d).0];
    var n' := n[ep := Get(n, ep) + 1];
    forall e | e in r0 ensures EndpointWithin(c, now, r0[e], r'[e], Get(n', e), sel + [d], e) {
      assert EndpointWithin(c, now, r0[e], r[e], Get(n, e), sel, e);
      if e == ep {
        HeadTried(c, now, r0[e], r[e], Get(n, e), sel, d);
      } else {
        OthersUntouched(c, now, r0[e], r[e], Get(n, e), sel, e, d);
      }
    }
    CountsAfterTake(n0, n, sel, d);
  }

  lemma CountsAfterTake(n0: map<nat, nat>, n: map<nat, nat>, sel: seq<Candidate>, d: Candidate)
    requires forall ep: nat :: Get(n, ep) == Get(n0, ep) + EndpointPicks(sel, ep)
    ensures forall ep: nat ::
              Get(n[d.endpoint := Get(n, d.endpoint) + 1], ep) == Get(n0, ep) + EndpointPicks(sel + [d], ep)
  {
    var n' := n[d.endpoint := Get(n, d.endpoint) + 1];
    forall e: nat ensures Get(n', e) == Get(n0, e) + EndpointPicks(sel + [d], e) {
      PicksOfMore(sel, d, (0, e));
    }
  }

  /** Trying a head keeps the endpoint's accounting, taken or not. */
  lemma HeadTried(
    c: Settings, now: real, e0: Runtime, e: Runtime, leases: nat, sel: seq<Candidate>, d: Candidate)
    requires EndpointWithin(c, now, e0, e, leases, sel, d.endpoint)
    ensures var (e', took) := TryHead(c, now, e, leases, d);
            if took then EndpointWithin(c, now, e0, e', leases + 1, sel + [d], d.endpoint)
            else EndpointWithin(c, now, e0, e', leases, sel, d.endpoint)
  {
    PicksOfMore(sel, d, (0, d.endpoint));
    CircuitTried(c, now, e0, e, leases, sel, d);
  }

  lemma CircuitTried(
    c: Settings, now: real, e0: Runtime, e: Runtime, leases: nat, sel: seq<Candidate>, d: Candidate)
    requires CircuitWithin(now, e0, e, sel, d.endpoint)
    ensures var (e', took) := TryHead(c, now, e, leases, d);
            CircuitWithin(now, e0, e', if took then sel + [d] else sel, d.endpoint)
  {
  }

  lemma OthersUntouched(
    c: Settings, now: real, e0: Runtime, e: Runtime, leases: nat, sel: seq<Candidate>, ep: nat, d: Candidate)
    requires EndpointWithin(c, now, e0, e, leases, sel, ep) && d.endpoint != ep
    ensures EndpointWithin(c, now, e0, e, leases, sel + [d], ep)
  {
    PicksOfMore(sel, d, (0, ep));
  }

  lemma {:induction false} PickCounted(sel: seq<Candidate>, x: Candidate)
    requires x in sel
    ensures EndpointPicks(sel, x.endpoint) > 0
    ensures OrgPicks(sel, x.org) > 0
    ensures x in Picks(sel, (x.org, x.endpoint))
  {
    if sel[|sel| - 1] != x { PickCounted(sel[..|sel| - 1], x); }
  }

}
