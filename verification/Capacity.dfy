/** Live leases stay within the three concurrency caps in every reachable
    state. */
module Capacity {
  import opened Base
  import opened Types
  import opened Scheduler
  import opened Selection
  import opened Platform
  import opened Admission
  import opened Lifecycle
  import opened Machine
  import opened Claims
  import opened Rows
  import opened LeaseSafety
  import opened Integrity

  // ---- live leases -------------------------------------------------------------------

  /** Live leases stay within the three caps together. */
  ghost predicate WithinCaps(c: Settings, s: State) {
    && |LiveIds(s)| <= c.globalConcurrency
    && (forall o: nat :: |LiveOfOrg(s, o)| <= c.tenantInFlight)
    && (forall e: nat :: |LiveOfEndpoint(s, e)| <= c.endpointConcurrency)
  }

  /** No lease is live that was not live before. */
  ghost predicate NoNewLeases(s: State, t: State) {
    forall id :: id in t.deliveries && Live(t.deliveries[id], t.now) ==>
      && id in s.deliveries && Live(s.deliveries[id], s.now)
      && t.deliveries[id].org == s.deliveries[id].org && t.deliveries[id].endpoint == s.deliveries[id].endpoint
  }

  lemma CapsShrink(c: Settings, s: State, t: State)
    requires WithinCaps(c, s) && NoNewLeases(s, t)
    ensures WithinCaps(c, t)
  {
    SubsetCardinality(LiveIds(t), LiveIds(s));
    forall o: nat ensures |LiveOfOrg(t, o)| <= c.tenantInFlight {
      SubsetCardinality(LiveOfOrg(t, o), LiveOfOrg(s, o));
    }
    forall e: nat ensures |LiveOfEndpoint(t, e)| <= c.endpointConcurrency {
      SubsetCardinality(LiveOfEndpoint(t, e), LiveOfEndpoint(s, e));
    }
  }

  lemma QuietStepNoLeases(c: Settings, s: State, t: State)
    requires Steps(c, s, t, false) && s.now <= t.now
    ensures NoNewLeases(s, t)
  {
    forall id | id in t.deliveries && Live(t.deliveries[id], t.now)
      ensures id in s.deliveries && Live(s.deliveries[id], s.now)
      ensures t.deliveries[id].org == s.deliveries[id].org && t.deliveries[id].endpoint == s.deliveries[id].endpoint
    {
      if id in s.deliveries { assert Moves(c, s.now, s.deliveries[id], t.deliveries[id], false); }
    }
  }

  function SelectedIds(sel: seq<Candidate>): set<nat> { set d | d in sel :: d.id }

  function OrgSelected(sel: seq<Candidate>, o: nat): set<nat> { set d | d in sel && d.org == o :: d.id }

  function EndpointSelected(sel: seq<Candidate>, e: nat): set<nat> { set d | d in sel && d.endpoint == e :: d.id }

  lemma {:induction false} SelectedSize(sel: seq<Candidate>)
    ensures |SelectedIds(sel)| <= |sel|
  {
    if sel != [] {
      var rest, d := sel[..|sel| - 1], sel[|sel| - 1];
      SelectedSize(rest);
      assert SelectedIds(sel) <= SelectedIds(rest) + {d.id} by { assert sel == rest + [d]; }
      SubsetCardinality(SelectedIds(sel), SelectedIds(rest) + {d.id});
    }
  }

  lemma {:induction false} OrgSelectedSize(sel: seq<Candidate>, o: nat)
    ensures |OrgSelected(sel, o)| <= OrgPicks(sel, o)
  {
    if sel != [] {
      var rest, d := sel[..|sel| - 1], sel[|sel| - 1];
      OrgSelectedSize(rest, o);
      var more := if d.org == o then {d.id} else {};
      assert OrgSelected(sel, o) <= OrgSelected(rest, o) + more by { assert sel == rest + [d]; }
      SubsetCardinality(OrgSelected(sel, o), OrgSelected(rest, o) + more);
    }
  }

  lemma {:induction false} EndpointSelectedSize(sel: seq<Candidate>, e: nat)
    ensures |EndpointSelected(sel, e)| <= EndpointPicks(sel, e)
  {
    if sel != [] {
      var rest, d := sel[..|sel| - 1], sel[|sel| - 1];
      EndpointSelectedSize(rest, e);
      var more := if d.endpoint == e then {d.id} else {};
      assert EndpointSelected(sel, e) <= EndpointSelected(rest, e) + more by { assert sel == rest + [d]; }
      SubsetCardinality(EndpointSelected(sel, e), EndpointSelected(rest, e) + more);
    }
  }

  /** After a claim, a live row was live before or has just been selected. */
  lemma LiveAfterClaim(c: Settings, s: State, ids: seq<nat>, t: Sched, id: nat)
    requires AllRows(s, ids) && AllCanSend(s, t.selected) && SelectedRows(s, ids, t.selected)
    requires id in s.deliveries && Live(Lease(c, s, t).deliveries[id], s.now)
    ensures Live(s.deliveries[id], s.now) || id in SelectedIds(t.selected)
    ensures Lease(c, s, t).deliveries[id].org == s.deliveries[id].org
    ensures Lease(c, s, t).deliveries[id].endpoint == s.deliveries[id].endpoint
    ensures id in SelectedIds(t.selected) ==>
              && id in OrgSelected(t.selected, s.deliveries[id].org)
              && id in EndpointSelected(t.selected, s.deliveries[id].endpoint)
  {
    var sel := t.selected;
    ClaimedRowsAt(c, s, ids, sel, |sel|, id);
    if i :| 0 <= i < |sel| && SelectedAt(sel, i, id) {
      assert sel[i] in sel;
    }
  }

  lemma ClaimWithinGlobal(c: Settings, s: State, limit: nat, ids: seq<nat>, t: Sched)
    requires AllRows(s, ids) && AllCanSend(s, t.selected) && SelectedRows(s, ids, t.selected)
    requires |t.selected| <= FreeSlots(c, s, limit)
    ensures |LiveIds(Lease(c, s, t))| <= c.globalConcurrency
  {
    var e := Lease(c, s, t);
    forall id | id in LiveIds(e) ensures id in LiveIds(s) + SelectedIds(t.selected) {
      LiveAfterClaim(c, s, ids, t, id);
    }
    SubsetCardinality(LiveIds(e), LiveIds(s) + SelectedIds(t.selected));
    UnionCardinality(LiveIds(s), SelectedIds(t.selected));
    SelectedSize(t.selected);
  }

  lemma ClaimWithinOrg(c: Settings, s: State, ids: seq<nat>, t: Sched, o: nat)
    requires ValidSettings(c) && WithinCaps(c, s)
    requires AllRows(s, ids) && AllCanSend(s, t.selected) && SelectedRows(s, ids, t.selected)
    requires OrgsWithin(c, StartOf(c, s, ids).orgCount, t.orgCount, t.selected)
    ensures |LiveOfOrg(Lease(c, s, t), o)| <= c.tenantInFlight
  {
    var e := Lease(c, s, t);
    forall id | id in LiveOfOrg(e, o) ensures id in LiveOfOrg(s, o) + OrgSelected(t.selected, o) {
      LiveAfterClaim(c, s, ids, t, id);
    }
    SubsetCardinality(LiveOfOrg(e, o), LiveOfOrg(s, o) + OrgSelected(t.selected, o));
    UnionCardinality(LiveOfOrg(s, o), OrgSelected(t.selected, o));
    OrgSelectedSize(t.selected, o);
    StartCounts(c, s, ids, o, 0);
    assert Get(t.orgCount, o) == Get(StartOf(c, s, ids).orgCount, o) + OrgPicks(t.selected, o);
  }

  lemma ClaimWithinEndpoint(c: Settings, s: State, ids: seq<nat>, t: Sched, ep: nat)
    requires ValidSettings(c) && WithinCaps(c, s)
    requires AllRows(s, ids) && AllCanSend(s, t.selected) && SelectedRows(s, ids, t.selected)
    requires var start := StartOf(c, s, ids);
             EndpointsWithin(c, s.now, start.runtime, start.endpointCount, t.runtime, t.endpointCount, t.selected)
    ensures |LiveOfEndpoint(Lease(c, s, t), ep)| <= c.endpointConcurrency
  {
    var e := Lease(c, s, t);
    var start := StartOf(c, s, ids);
    forall id | id in LiveOfEndpoint(e, ep) ensures id in LiveOfEndpoint(s, ep) + EndpointSelected(t.selected, ep) {
      LiveAfterClaim(c, s, ids, t, id);
    }
    SubsetCardinality(LiveOfEndpoint(e, ep), LiveOfEndpoint(s, ep) + EndpointSelected(t.selected, ep));
    UnionCardinality(LiveOfEndpoint(s, ep), EndpointSelected(t.selected, ep));
    EndpointSelectedSize(t.selected, ep);
    StartCounts(c, s, ids, 0, ep);
    assert Get(t.endpointCount, ep) == Get(start.endpointCount, ep) + EndpointPicks(t.selected, ep);
    if EndpointPicks(t.selected, ep) > 0 {
      PickedEndpointKnown(s, ids, t.selected, ep);
      assert EndpointWithin(c, s.now, start.runtime[ep], t.runtime[ep], Get(t.endpointCount, ep), t.selected, ep);
    }
  }

  lemma PickedEndpointKnown(s: State, ids: seq<nat>, sel: seq<Candidate>, ep: nat)
    requires AllRows(s, ids) && SelectedRows(s, ids, sel) && EndpointPicks(sel, ep) > 0
    ensures ep in EndpointIds(s, ids)
  {
    PickExists(sel, ep);
    var d :| d in sel && d.endpoint == ep;
    assert d.id in ids;
  }

  lemma {:induction false} PickExists(sel: seq<Candidate>, ep: nat)
    requires EndpointPicks(sel, ep) > 0
    ensures exists d :: d in sel && d.endpoint == ep
  {
    if sel[|sel| - 1].endpoint != ep {
      PickExists(sel[..|sel| - 1], ep);
      var d :| d in sel[..|sel| - 1] && d.endpoint == ep;
      assert d in sel;
    } else {
      assert sel[|sel| - 1] in sel;
    }
  }

  lemma StartCounts(c: Settings, s: State, ids: seq<nat>, o: nat, e: nat)
    requires ValidSettings(c) && AllRows(s, ids)
    ensures Get(StartOf(c, s, ids).orgCount, o) == |LiveOfOrg(s, o)|
    ensures Get(StartOf(c, s, ids).endpointCount, e) == |LiveOfEndpoint(s, e)|
  {
    if o !in StartOf(c, s, ids).orgCount { assert LiveOfOrg(s, o) == {}; }
    if e !in StartOf(c, s, ids).endpointCount { assert LiveOfEndpoint(s, e) == {}; }
  }

  /** A claim fills the caps but never exceeds them, although it counts only
      unexpired leases and takes over expired ones in the same step. */
  lemma ClaimWithinCaps(c: Settings, s: State, limit: nat, ids: seq<nat>)
    requires ValidSettings(c) && CanWork(c, s, ClaimWork(limit, ids)) && WithinCaps(c, s)
    ensures WithinCaps(c, ClaimDue(c, s, limit, ids))
  {
    if ClaimCommits(c, s, limit, ids) {
      ChosenRows(c, s, limit, ids);
      ChosenWithin(c, s, limit, ids);
      LeaseWithinCaps(c, s, limit, ids, Chosen(c, s, limit, ids));
    }
  }

  lemma LeaseWithinCaps(c: Settings, s: State, limit: nat, ids: seq<nat>, t: Sched)
    requires ValidSettings(c) && WithinCaps(c, s)
    requires AllRows(s, ids) && AllCanSend(s, t.selected) && SelectedRows(s, ids, t.selected)
    requires |t.selected| <= FreeSlots(c, s, limit)
    requires OrgsWithin(c, StartOf(c, s, ids).orgCount, t.orgCount, t.selected)
    requires var start := StartOf(c, s, ids);
             EndpointsWithin(c, s.now, start.runtime, start.endpointCount, t.runtime, t.endpointCount, t.selected)
    ensures WithinCaps(c, Lease(c, s, t))
  {
    ClaimWithinGlobal(c, s, limit, ids, t);
    forall o: nat ensures |LiveOfOrg(Lease(c, s, t), o)| <= c.tenantInFlight {
      ClaimWithinOrg(c, s, ids, t, o);
    }
    forall e: nat ensures |LiveOfEndpoint(Lease(c, s, t), e)| <= c.endpointConcurrency {
      ClaimWithinEndpoint(c, s, ids, t, e);
    }
  }

  lemma StepKeepsCaps(c: Settings, s: State, step: Step)
    requires ValidSettings(c) && Enabled(c, s, step) && WithinCaps(c, s) && IdsBelow(s.deliveries, s.nextId)
    ensures WithinCaps(c, Apply(c, s, step))
  {
    if IsClaim(step) {
      ClaimWithinCaps(c, s, step.work.limit, step.work.candidates);
    } else {
      StepRows(c, s, step);
      TimeMoves(c, s, step);
      QuietStepNoLeases(c, s, Apply(c, s, step));
      CapsShrink(c, s, Apply(c, s, step));
    }
  }
}
