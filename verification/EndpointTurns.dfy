/** Turns within an organization: while one of its endpoints has work that could
    be taken and is passed over, the stored endpoint cursor moves cyclically
    toward that endpoint and no other endpoint of the organization is served
    twice. */
module EndpointTurns {
  import opened Base
  import opened Types
  import opened Scheduler
  import opened Selection
  import opened Fairness
  import opened Bypass
  import opened Platform
  import opened Admission
  import opened Lifecycle
  import opened Machine
  import opened Claims
  import opened Rows
  import opened LeaseSafety
  import opened Integrity
  import opened Capacity
  import opened Endpoints
  import opened CircuitBreaker
  import opened Invariant
  import opened QueueHeads
  import opened FirstAttempts
  import opened HeadsTaken

  /** The endpoints an organization is served on, in order. */
  function Turns(sel: seq<Candidate>, org: nat): seq<nat> {
    if sel == [] then []
    else
      var d := sel[|sel| - 1];
      Turns(sel[..|sel| - 1], org) + if d.org == org then [d.endpoint] else []
  }

  lemma TurnsOfMore(sel: seq<Candidate>, d: Candidate, org: nat)
    ensures Turns(sel + [d], org) == Turns(sel, org) + if d.org == org then [d.endpoint] else []
  {
    assert (sel + [d])[..|sel|] == sel;
  }

  /** Where the cursor stands after the given turns. */
  function CursorAfter(cursor: Option<nat>, turns: seq<nat>): Option<nat> {
    if turns == [] then cursor else Some(turns[|turns| - 1])
  }

  // ---- one call ------------------------------------------------------------------------

  /** Along a call: the turns so far climb from the first cursor toward `ep`, and
      what stands before `ep` in the deque climbs on from there. */
  ghost predicate OnTheWay(s: Sched, org: nat, ep: nat, m: nat, cursor: Option<nat>) {
    && org in s.rotation && m < |s.rotation[org]| && s.rotation[org][m] == ep
    && Climbs(cursor, Turns(s.selected, org), ep)
    && Climbs(CursorAfter(cursor, Turns(s.selected, org)), s.rotation[org][..m], ep)
  }

  lemma ClimbsWithout(cursor: Option<nat>, x: nat, rest: seq<nat>, a: nat)
    requires Climbs(cursor, [x] + rest, a)
    ensures Climbs(cursor, rest, a) && Climbs(cursor, [x], a) && Climbs(Some(x), rest, a)
  {
    var all := [x] + rest;
    assert all[0] == x;
    forall i | 0 <= i < |rest| ensures Between(cursor, rest[i], a) && Between(Some(x), rest[i], a) {
      assert all[i + 1] == rest[i];
    }
    forall i, j | 0 <= i < j < |rest| ensures Between(Some(rest[i]), rest[j], a) {
      assert all[i + 1] == rest[i] && all[j + 1] == rest[j];
    }
  }

  /** What a visit does to the selection, the deque and the quota rows. */
  lemma VisitShape(c: Settings, now: real, s: Sched, o: nat) returns (d: Candidate)
    requires Keyed(s) && Ready(s, o) && s.rotation[o] != []
    ensures var (t, took) := Visit(c, now, s, o);
            && t.rotation == s.rotation[o := s.rotation[o][1..] + [s.rotation[o][0]]]
            && (!took ==> t.selected == s.selected && t.tenants == s.tenants)
            && (took ==>
                  && d.org == o && d.endpoint == s.rotation[o][0] && t.selected == s.selected + [d]
                  && t.tenants == s.tenants[o := s.tenants[o].(endpointCursor := Some(d.endpoint))])
  {
    var k: Key := (o, s.rotation[o][0]);
    d := Candidate(0, 0, 0, false);
    if Visit(c, now, s, o).1 {
      d := s.queues[k][0];
      assert d in s.queues[k];
    }
  }

  lemma NextOnTheWay(q: seq<nat>, m: nat, ep: nat, cursor: Option<nat>, turns: seq<nat>, took: bool)
    requires 0 < m < |q| && q[m] == ep && Climbs(cursor, turns, ep) && Climbs(CursorAfter(cursor, turns), q[..m], ep)
    ensures var r, more := q[1..] + [q[0]], if took then turns + [q[0]] else turns;
            && r[m - 1] == ep && Climbs(cursor, more, ep) && Climbs(CursorAfter(cursor, more), r[..m - 1], ep)
  {
    assert (q[1..] + [q[0]])[..m - 1] == q[1..m] && q[..m] == [q[0]] + q[1..m];
    ClimbsWithout(CursorAfter(cursor, turns), q[0], q[1..m], ep);
    if took { ClimbsOn(cursor, turns, [q[0]], ep); }
  }

  lemma FreeFrontTaken(c: Settings, now: real, s: Sched, org: nat)
    requires Ready(s, org) && s.rotation[org] != [] && HeadFree(c, now, s, (org, s.rotation[org][0]))
    ensures Visit(c, now, s, org).1
  {
  }

  lemma OwnVisit(c: Settings, now: real, s: Sched, org: nat, ep: nat, m: nat, cursor: Option<nat>)
    requires Keyed(s) && Ready(s, org) && s.rotation[org] != [] && OnTheWay(s, org, ep, m, cursor)
    requires HeadFree(c, now, s, (org, ep))
    requires forall d :: d in Visit(c, now, s, org).0.selected ==> d.endpoint != ep
    ensures m > 0 && OnTheWay(Visit(c, now, s, org).0, org, ep, m - 1, cursor)
  {
    var (t, took) := Visit(c, now, s, org);
    var d := VisitShape(c, now, s, org);
    if took {
      assert d in t.selected;
      TurnsOfMore(s.selected, d, org);
    }
    if m == 0 { FreeFrontTaken(c, now, s, org); }
    NextOnTheWay(s.rotation[org], m, ep, cursor, Turns(s.selected, org), took);
  }

  lemma OtherVisit(c: Settings, now: real, s: Sched, o: nat, org: nat, ep: nat, m: nat, cursor: Option<nat>)
    requires Keyed(s) && Ready(s, o) && s.rotation[o] != [] && o != org && OnTheWay(s, org, ep, m, cursor)
    ensures OnTheWay(Visit(c, now, s, o).0, org, ep, m, cursor)
  {
    var (t, took) := Visit(c, now, s, o);
    var k: Key := (o, s.rotation[o][0]);
    if took {
      assert s.queues[k][0] in s.queues[k];
      TurnsOfMore(s.selected, s.queues[k][0], org);
      assert Turns(s.selected, org) + [] == Turns(s.selected, org);
    }
  }

  lemma {:induction false} RunOnTheWay(
    c: Settings, now: real, s: Sched, v: seq<nat>, org: nat, ep: nat, m: nat, cursor: Option<nat>)
    requires Keyed(s) && Allowed(c, now, s, v) && OnTheWay(s, org, ep, m, cursor) && HeadFree(c, now, s, (org, ep))
    requires forall d :: d in Run(c, now, s, v).selected ==> d.endpoint != ep
    ensures Climbs(cursor, Turns(Run(c, now, s, v).selected, org), ep)
    decreases |v|
  {
    if v != [] {
      var t := Visit(c, now, s, v[0]).0;
      RunGrows(c, now, t, v[1..]);
      forall d | d in t.selected ensures d.endpoint != ep { assert d in Run(c, now, s, v).selected; }
      VisitKeepsFree(c, now, s, v[0], (org, ep));
      VisitKeyed(c, now, s, v[0]);
      if v[0] == org {
        OwnVisit(c, now, s, org, ep, m, cursor);
        RunOnTheWay(c, now, t, v[1..], org, ep, m - 1, cursor);
      } else {
        OtherVisit(c, now, s, v[0], org, ep, m, cursor);
        RunOnTheWay(c, now, t, v[1..], org, ep, m, cursor);
      }
    }
  }

  /** The row's cursor names the endpoint served last. */
  ghost predicate CursorKept(t0: map<nat, Tenant>, t: map<nat, Tenant>, sel: seq<Candidate>, org: nat) {
    && org in t0 && org in t && t[org].endpointCursor == CursorAfter(t0[org].endpointCursor, Turns(sel, org))
  }

  lemma CursorMoves(t0: map<nat, Tenant>, t: map<nat, Tenant>, sel: seq<Candidate>, d: Candidate, org: nat)
    requires CursorKept(t0, t, sel, org) && d.org in t
    ensures CursorKept(t0, t[d.org := t[d.org].(endpointCursor := Some(d.endpoint))], sel + [d], org)
  {
    TurnsOfMore(sel, d, org);
    assert Turns(sel, org) + [] == Turns(sel, org);
  }

  lemma VisitCursor(c: Settings, now: real, t0: map<nat, Tenant>, s: Sched, o: nat, org: nat)
    requires Keyed(s) && Ready(s, o) && s.rotation[o] != [] && CursorKept(t0, s.tenants, s.selected, org)
    ensures CursorKept(t0, Visit(c, now, s, o).0.tenants, Visit(c, now, s, o).0.selected, org)
  {
    var d := VisitShape(c, now, s, o);
    if Visit(c, now, s, o).1 { CursorMoves(t0, s.tenants, s.selected, d, org); }
  }

  lemma {:induction false} RunCursor(c: Settings, now: real, t0: map<nat, Tenant>, s: Sched, v: seq<nat>, org: nat)
    requires Keyed(s) && Allowed(c, now, s, v) && CursorKept(t0, s.tenants, s.selected, org)
    ensures CursorKept(t0, Run(c, now, s, v).tenants, Run(c, now, s, v).selected, org)
    decreases |v|
  {
    if v != [] {
      VisitCursor(c, now, t0, s, v[0], org);
      VisitKeyed(c, now, s, v[0]);
      RunCursor(c, now, t0, Visit(c, now, s, v[0]).0, v[1..], org);
    }
  }

  lemma CallTurns(c: Settings, now: real, s0: Sched, orgs: seq<nat>, available: nat, org: nat, ep: nat, m: nat)
    requires Fresh(s0) && AllReady(s0, orgs) && HeadFree(c, now, s0, (org, ep)) && org in s0.tenants
    requires org in s0.rotation && m < |s0.rotation[org]| && s0.rotation[org][m] == ep
    requires Climbs(s0.tenants[org].endpointCursor, s0.rotation[org][..m], ep)
    requires forall d :: d in Rounds(c, now, s0, orgs, available).selected ==> d.endpoint != ep
    ensures Climbs(s0.tenants[org].endpointCursor, Turns(Rounds(c, now, s0, orgs, available).selected, org), ep)
  {
    var v := RoundsVisits(c, now, s0, orgs, available);
    RunOnTheWay(c, now, s0, v, org, ep, m, s0.tenants[org].endpointCursor);
  }

  lemma CallCursor(c: Settings, now: real, s0: Sched, orgs: seq<nat>, available: nat, org: nat)
    requires Fresh(s0) && AllReady(s0, orgs) && org in s0.tenants
    ensures var t := Rounds(c, now, s0, orgs, available); CursorKept(s0.tenants, t.tenants, t.selected, org)
  {
    var v := RoundsVisits(c, now, s0, orgs, available);
    RunCursor(c, now, s0.tenants, s0, v, org);
  }

  // ---- one claim --------------------------------------------------------------------------

  /** The endpoint cursor of an organization; without a row there is none. */
  function EndpointCursor(s: State, org: nat): Option<nat> {
    if org in s.tenants then s.tenants[org].endpointCursor else None
  }

  /** The first listed row of the endpoint, which the endpoint lets pass. */
  ghost predicate FirstPassable(c: Settings, s: State, ids: seq<nat>, org: nat, ep: nat, j: nat)
    requires ValidSettings(c) && AllRows(s, ids)
  {
    && j < |ids| && ids[j] in s.deliveries && KeyOf(s, ids[j]) == (org, ep)
    && FirstListed(s, ids, j) && Passable(c, s, ids[j])
  }

  /** The endpoint has listed work that could be taken. */
  ghost predicate EndpointWaits(c: Settings, s: State, ids: seq<nat>, org: nat, ep: nat)
    requires ValidSettings(c) && AllRows(s, ids)
  {
    exists j: nat :: FirstPassable(c, s, ids, org, ep, j)
  }

  lemma StartHeadFree(c: Settings, s: State, ids: seq<nat>, org: nat, ep: nat, j: nat)
    requires ValidSettings(c) && AllRows(s, ids) && FirstPassable(c, s, ids, org, ep, j)
    ensures ids[j] in ids && KeyOf(s, ids[j]) == (org, ep) && HeadFree(c, s.now, StartOf(c, s, ids), (org, ep))
  {
    assert ids[j] in ids;
    PassableIff(c, s, ids[j]);
    FirstInQueue(s, ids, j);
    GroupedKeys(s, ids, ids[j]);
    StartRow(c, s, ids, ids[j]);
    StartCounts(c, s, ids, org, ep);
  }

  lemma StartDeque(c: Settings, s: State, ids: seq<nat>, id: nat) returns (m: nat)
    requires ValidSettings(c) && AllRows(s, ids) && id in ids
    ensures var start, org, ep := StartOf(c, s, ids), s.deliveries[id].org, s.deliveries[id].endpoint;
            && org in start.tenants && start.tenants[org].endpointCursor == EndpointCursor(s, org)
            && org in start.rotation && m < |start.rotation[org]| && start.rotation[org][m] == ep
            && Climbs(EndpointCursor(s, org), start.rotation[org][..m], ep)
  {
    var org, ep := s.deliveries[id].org, s.deliveries[id].endpoint;
    assert org in OrgIds(s, ids) && ep in EndpointIdsOf(s, ids, org);
    m := RotatedClimbs(Sorted(EndpointIdsOf(s, ids, org)), TenantRow(c, s, org).endpointCursor, ep);
  }

  /** In one claim: the organization is served on endpoints that lie between its
      cursor and the waiting endpoint, each nearer than the last. */
  lemma ChosenTurns(c: Settings, s: State, limit: nat, ids: seq<nat>, org: nat, ep: nat)
    requires ValidSettings(c) && CanWork(c, s, ClaimWork(limit, ids)) && FreeSlots(c, s, limit) > 0
    requires EndpointWaits(c, s, ids, org, ep)
    requires forall d :: d in Chosen(c, s, limit, ids).selected ==> d.endpoint != ep
    ensures Climbs(EndpointCursor(s, org), Turns(Chosen(c, s, limit, ids).selected, org), ep)
  {
    var j: nat :| FirstPassable(c, s, ids, org, ep, j);
    StartHeadFree(c, s, ids, org, ep, j);
    FreeTurns(c, s, limit, ids, ids[j]);
  }

  lemma FreeTurns(c: Settings, s: State, limit: nat, ids: seq<nat>, id: nat)
    requires ValidSettings(c) && CanWork(c, s, ClaimWork(limit, ids)) && FreeSlots(c, s, limit) > 0 && id in ids
    requires HeadFree(c, s.now, StartOf(c, s, ids), KeyOf(s, id))
    requires forall d :: d in Chosen(c, s, limit, ids).selected ==> d.endpoint != s.deliveries[id].endpoint
    ensures var key := KeyOf(s, id);
            Climbs(EndpointCursor(s, key.0), Turns(Chosen(c, s, limit, ids).selected, key.0), key.1)
  {
    var key := KeyOf(s, id);
    StartReady(c, s, ids);
    StartFresh(c, s, ids);
    var m := StartDeque(c, s, ids, id);
    CallTurns(
      c, s.now, StartOf(c, s, ids), Rotated(Sorted(OrgIds(s, ids)), s.cursor), FreeSlots(c, s, limit), key.0, key.1, m);
  }

  lemma ChosenCursor(c: Settings, s: State, limit: nat, ids: seq<nat>, org: nat)
    requires ValidSettings(c) && CanWork(c, s, ClaimWork(limit, ids)) && FreeSlots(c, s, limit) > 0
    ensures var t := Chosen(c, s, limit, ids);
            CursorAfter(EndpointCursor(s, org), Turns(t.selected, org))
              == if org in t.tenants then t.tenants[org].endpointCursor else None
  {
    var start := StartOf(c, s, ids);
    var orgs := Rotated(Sorted(OrgIds(s, ids)), s.cursor);
    StartReady(c, s, ids);
    StartFresh(c, s, ids);
    if org in start.tenants {
      assert start.tenants[org].endpointCursor == EndpointCursor(s, org);
      CallCursor(c, s.now, start, orgs, FreeSlots(c, s, limit), org);
    } else {
      ChosenWithin(c, s, limit, ids);
      ChosenRows(c, s, limit, ids);
      forall d | d in Chosen(c, s, limit, ids).selected ensures d.org != org { assert d.org in OrgIds(s, ids); }
      NoTurns(Chosen(c, s, limit, ids).selected, org);
    }
  }

  lemma {:induction false} NoTurns(sel: seq<Candidate>, org: nat)
    requires forall d :: d in sel ==> d.org != org
    ensures Turns(sel, org) == []
  {
    if sel != [] {
      var rest := sel[..|sel| - 1];
      assert sel[|sel| - 1] in sel && forall d :: d in rest ==> d in sel;
      NoTurns(rest, org);
    }
  }

  // ---- the cursor between claims ---------------------------------------------------------------

  lemma AdmittedKeepsCursor(c: Settings, s: State, org: nat, count: nat, size: nat)
    requires ValidSettings(c)
    ensures var v := AdmitEvent(c, s, org, count, size); v.Admitted? ==> v.tenant.endpointCursor == EndpointCursor(s, org)
    ensures var v := AdmitReplays(c, s, org, count); v.Admitted? ==> v.tenant.endpointCursor == EndpointCursor(s, org)
  {
  }

  lemma IngestKeepsCursor(c: Settings, s: State, r: Request, org: nat)
    requires ValidSettings(c)
    ensures EndpointCursor(Ingest(c, s, r).0, org) == EndpointCursor(s, org)
  {
    var tenant := IngestOutcome(c, s, r);
    if Ingest(c, s, r).1.Accepted? {
      var owner := s.projects[r.project];
      AdmittedKeepsCursor(c, s, owner, |Targets(s, r.project, r.eventType)|, |r.envelope|);
      ChargedCursor(s, Accept(s, r, tenant), owner, tenant, org);
    }
  }

  lemma ReplayKeepsCursor(c: Settings, s: State, project: nat, sources: seq<nat>, deadOnly: bool, org: nat)
    requires ValidSettings(c)
    ensures EndpointCursor(Replay(c, s, project, sources, deadOnly), org) == EndpointCursor(s, org)
  {
    var tenant := ReplayOutcome(c, s, project, sources, deadOnly);
    if Replay(c, s, project, sources, deadOnly) != s {
      AdmittedKeepsCursor(c, s, s.projects[project], |sources|, 0);
      ChargedCursor(s, CopySources(s, sources, s.projects[project], tenant), s.projects[project], tenant, org);
    }
  }

  lemma IntakeKeepsCursor(c: Settings, s: State, step: Intake, org: nat)
    requires ValidSettings(c)
    ensures EndpointCursor(ApplyIntake(c, s, step), org) == EndpointCursor(s, org)
  {
    match step
    case IngestEvent(r) => IngestKeepsCursor(c, s, r, org);
    case ReplayDeliveries(p, sources, dead) => ReplayKeepsCursor(c, s, p, sources, dead, org);
  }

  lemma ChargedCursor(s: State, t: State, owner: nat, tenant: Tenant, org: nat)
    requires t.tenants == s.tenants[owner := tenant] && tenant.endpointCursor == EndpointCursor(s, owner)
    ensures EndpointCursor(t, org) == EndpointCursor(s, org)
  {
  }

  /** The organization is deleted and nothing can be due for it again. */
  ghost predicate Gone(s: State, org: nat) {
    org !in s.orgs && org < s.nextId && forall p :: p in s.projects ==> s.projects[p] != org
  }

  lemma StageCursor(s: State, stage: Stage, owner: nat, batch: set<nat>, org: nat)
    requires owner < s.nextId
    ensures var t := RunStage(s, stage, owner, batch); EndpointCursor(t, org) == EndpointCursor(s, org) || Gone(t, org)
  {
    if stage.DeletingOrganization? {
      DeletedIsGone(s, owner);
    } else {
      assert RunStage(s, stage, owner, batch).tenants == s.tenants;
    }
  }

  lemma DeletedIsGone(s: State, owner: nat)
    requires owner < s.nextId
    ensures Gone(DeleteOrganization(s, owner), owner)
    ensures forall o :: o != owner ==> EndpointCursor(DeleteOrganization(s, owner), o) == EndpointCursor(s, o)
  {
  }

  lemma CleanupCursor(s: State, op: nat, batch: set<nat>, org: nat)
    requires DueOperation(s, op) && Numbered(s)
    ensures var t := Cleanup(s, op, batch); EndpointCursor(t, org) == EndpointCursor(s, org) || Gone(t, org)
  {
    StageCursor(MarkRunning(s, op), StageOf(s, s.operations[op].org), s.operations[op].org, batch, org);
  }

  lemma QuietCursor(c: Settings, s: State, step: Step, org: nat)
    requires ValidSettings(c) && Enabled(c, s, step) && !IsClaim(step) && Numbered(s)
    ensures EndpointCursor(Apply(c, s, step), org) == EndpointCursor(s, org) || Gone(Apply(c, s, step), org)
  {
    match step
    case Clock(_) =>
    case OnSetup(setup) => SetupFrame(c, s, setup);
    case OnIntake(intake) => IntakeKeepsCursor(c, s, intake, org);
    case OnWork(work) => WorkFrame(c, s, work);
    case OnOperator(operator) => OperatorFrame(c, s, operator);
    case OnUpkeep(upkeep) =>
      if upkeep.CleanupRun? { CleanupCursor(s, upkeep.op, upkeep.batch, org); } else { QuietUpkeep(c, s, upkeep); }
  }

  lemma ClaimCursor(c: Settings, s: State, step: Step, org: nat)
    requires ValidSettings(c) && Enabled(c, s, step) && IsClaim(step)
    ensures EndpointCursor(Apply(c, s, step), org)
         == CursorAfter(EndpointCursor(s, org), Turns(Leased(c, s, step), org))
  {
    var limit, ids := step.work.limit, step.work.candidates;
    if ClaimCommits(c, s, limit, ids) {
      ChosenCursor(c, s, limit, ids, org);
      assert Apply(c, s, step).tenants == Chosen(c, s, limit, ids).tenants;
    } else {
      assert Apply(c, s, step) == s;
    }
  }

  // ---- a deleted organization is never served again --------------------------------------------------

  lemma SetupKeepsGone(c: Settings, s: State, step: Setup, org: nat)
    requires Gone(s, org)
    ensures Gone(ApplySetup(c, s, step), org)
  {
  }

  lemma StageKeepsGone(s: State, stage: Stage, owner: nat, batch: set<nat>, org: nat)
    requires Gone(s, org)
    ensures Gone(RunStage(s, stage, owner, batch), org)
  {
    if !stage.DeletingOrganization? {
      var t := RunStage(s, stage, owner, batch);
      assert t.orgs == s.orgs && t.projects == s.projects && t.nextId == s.nextId;
    }
  }

  lemma CleanupKeepsGone(s: State, op: nat, batch: set<nat>, org: nat)
    requires DueOperation(s, op) && Gone(s, org)
    ensures Gone(Cleanup(s, op, batch), org)
  {
    StageKeepsGone(MarkRunning(s, op), StageOf(s, s.operations[op].org), s.operations[op].org, batch, org);
  }

  lemma GoneStays(c: Settings, s: State, step: Step, org: nat)
    requires ValidSettings(c) && Enabled(c, s, step) && Gone(s, org) && IdsBelow(s.deliveries, s.nextId)
    ensures Gone(Apply(c, s, step), org)
  {
    IdsGrow(c, s, step);
    match step
    case Clock(_) =>
    case OnSetup(setup) => SetupKeepsGone(c, s, setup, org);
    case OnIntake(intake) => IntakeFrame(c, s, intake);
    case OnWork(work) => WorkFrame(c, s, work);
    case OnOperator(operator) => OperatorFrame(c, s, operator);
    case OnUpkeep(upkeep) =>
      if upkeep.CleanupRun? { CleanupKeepsGone(s, upkeep.op, upkeep.batch, org); } else { QuietUpkeep(c, s, upkeep); }
  }

  lemma GoneUnserved(c: Settings, s: State, step: Step, org: nat)
    requires ValidSettings(c) && Enabled(c, s, step) && Refs(s) && Gone(s, org)
    ensures Turns(Leased(c, s, step), org) == []
  {
    forall d | d in Leased(c, s, step) ensures d.org != org {
      LeasedRow(c, s, step, d);
      assert RowRefs(s.projects, s.endpoints, s.events, s.deliveries[d.id]);
    }
    NoTurns(Leased(c, s, step), org);
  }

  lemma LeasedRow(c: Settings, s: State, step: Step, d: Candidate)
    requires ValidSettings(c) && Enabled(c, s, step) && d in Leased(c, s, step)
    ensures d.id in s.deliveries && d == CandidateOf(s, d.id)
  {
    ChosenRows(c, s, step.work.limit, step.work.candidates);
  }

  // ---- whole runs --------------------------------------------------------------------------------------

  /** The endpoints an organization is served on along a run, in order. */
  function RunTurns(c: Settings, s: State, steps: seq<Step>, org: nat): seq<nat>
    requires ValidSettings(c) && IsRun(c, s, steps)
    decreases |steps|
  {
    if steps == [] then []
    else Turns(Leased(c, s, steps[0]), org) + RunTurns(c, Apply(c, s, steps[0]), steps[1..], org)
  }

  /** The claim does not serve the organization, or passes over the endpoint
      although it has listed work that could be taken. */
  ghost predicate Skips(c: Settings, s: State, step: Step, org: nat, ep: nat)
    requires ValidSettings(c) && Enabled(c, s, step)
  {
    Turns(Leased(c, s, step), org) != [] ==>
      && IsClaim(step) && EndpointWaits(c, s, step.work.candidates, org, ep)
      && forall d :: d in Leased(c, s, step) ==> d.endpoint != ep
  }

  ghost predicate SkipsAlong(c: Settings, s: State, steps: seq<Step>, org: nat, ep: nat)
    requires ValidSettings(c) && IsRun(c, s, steps)
    decreases |steps|
  {
    steps == [] ||
    (Skips(c, s, steps[0], org, ep) && SkipsAlong(c, Apply(c, s, steps[0]), steps[1..], org, ep))
  }

  lemma StepClimbs(c: Settings, s: State, step: Step, org: nat, ep: nat)
    requires ValidSettings(c) && Enabled(c, s, step) && Skips(c, s, step, org, ep)
    ensures Climbs(EndpointCursor(s, org), Turns(Leased(c, s, step), org), ep)
  {
    if Turns(Leased(c, s, step), org) != [] {
      ChosenTurns(c, s, step.work.limit, step.work.candidates, org, ep);
    }
  }

  lemma {:induction false} GoneTurns(c: Settings, s: State, steps: seq<Step>, org: nat)
    requires ValidSettings(c) && IsRun(c, s, steps) && Leases(c, s) && Refs(s) && Gone(s, org)
    ensures RunTurns(c, s, steps, org) == []
    decreases |steps|
  {
    if steps != [] {
      GoneUnserved(c, s, steps[0], org);
      GoneStays(c, s, steps[0], org);
      StepKeepsLeases(c, s, steps[0]);
      StepKeepsRefs(c, s, steps[0]);
      GoneTurns(c, Apply(c, s, steps[0]), steps[1..], org);
    }
  }

  lemma StepCursor(c: Settings, s: State, step: Step, org: nat)
    requires ValidSettings(c) && Enabled(c, s, step) && Numbered(s)
    ensures || EndpointCursor(Apply(c, s, step), org) == CursorAfter(EndpointCursor(s, org), Turns(Leased(c, s, step), org))
            || (Gone(Apply(c, s, step), org) && Turns(Leased(c, s, step), org) == [])
  {
    if IsClaim(step) { ClaimCursor(c, s, step, org); } else { QuietCursor(c, s, step, org); }
  }

  lemma {:induction false} TurnsClimb(c: Settings, s: State, steps: seq<Step>, org: nat, ep: nat)
    requires ValidSettings(c) && IsRun(c, s, steps) && Leases(c, s) && Refs(s) && SkipsAlong(c, s, steps, org, ep)
    ensures Climbs(EndpointCursor(s, org), RunTurns(c, s, steps, org), ep)
    decreases |steps|
  {
    if steps != [] {
      var t := Apply(c, s, steps[0]);
      var first, rest := Turns(Leased(c, s, steps[0]), org), RunTurns(c, t, steps[1..], org);
      StepKeepsLeases(c, s, steps[0]);
      StepKeepsRefs(c, s, steps[0]);
      StepClimbs(c, s, steps[0], org, ep);
      StepCursor(c, s, steps[0], org);
      TurnsClimb(c, t, steps[1..], org, ep);
      if Gone(t, org) { GoneTurns(c, t, steps[1..], org); }
      TurnsJoin(EndpointCursor(s, org), EndpointCursor(t, org), first, rest, ep);
    }
  }

  lemma TurnsJoin(cursor: Option<nat>, next: Option<nat>, first: seq<nat>, rest: seq<nat>, ep: nat)
    requires Climbs(cursor, first, ep) && Climbs(next, rest, ep)
    requires next == CursorAfter(cursor, first) || (first == [] && rest == [])
    ensures Climbs(cursor, first + rest, ep)
  {
    if next == CursorAfter(cursor, first) { ClimbsOn(cursor, first, rest, ep); }
  }

  /** Across any run: while an endpoint with work that could be taken is passed
      over, the endpoints its organization is served on lie cyclically between the
      stored cursor and that endpoint, each nearer than the last, so none of them
      is served twice. */
  lemma NoEndpointTwice(c: Settings, s: State, steps: seq<Step>, org: nat, ep: nat)
    requires ValidSettings(c) && IsRun(c, s, steps) && Inv(c, s) && SkipsAlong(c, s, steps, org, ep)
    ensures var turns := RunTurns(c, s, steps, org);
            && (forall i :: 0 <= i < |turns| ==> Between(EndpointCursor(s, org), turns[i], ep))
            && (forall i, j :: 0 <= i < j < |turns| ==> Between(Some(turns[i]), turns[j], ep))
            && Distinct(turns) && ep !in turns
  {
    TurnsClimb(c, s, steps, org, ep);
    ClimbsDistinct(EndpointCursor(s, org), RunTurns(c, s, steps, org), ep);
  }
}
