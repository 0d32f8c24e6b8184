/** References between the tables, and the promise that every open delivery
    still has the exact bytes it must send. */
module Integrity {
  import opened Base
  import opened Types
  import opened Scheduler
  import opened Platform
  import opened Admission
  import opened Lifecycle
  import opened Machine
  import opened Claims
  import opened Rows
  import opened LeaseSafety

  // ---- the invariant ------------------------------------------------------------------

  /** The event, endpoint and project of a delivery exist and agree, and an open
      delivery's event holds its envelope. */
  predicate RowRefs(
    projects: map<nat, nat>, endpoints: map<nat, Endpoint>, events: map<nat, Event>, d: Delivery)
  {
    && d.event in events
    && events[d.event].project in projects
    && projects[events[d.event].project] == d.org
    && d.endpoint in endpoints
    && endpoints[d.endpoint].project == events[d.event].project
    && (!Terminal(d.status) ==> events[d.event].envelope.Some?)
  }

  ghost predicate DeliveryRefs(s: State) {
    forall id :: id in s.deliveries ==> RowRefs(s.projects, s.endpoints, s.events, s.deliveries[id])
  }

  ghost predicate EventRefs(projects: map<nat, nat>, events: map<nat, Event>) {
    forall id :: id in events ==> events[id].project in projects
  }

  ghost predicate EndpointRefs(
    projects: map<nat, nat>, endpoints: map<nat, Endpoint>, runtime: map<nat, Runtime>)
  {
    && runtime.Keys == endpoints.Keys
    && forall e :: e in endpoints ==> endpoints[e].project in projects
  }

  /** All row ids were handed out before. */
  ghost predicate Numbered(s: State) {
    && (forall id :: id in s.orgs ==> id < s.nextId)
    && (forall id :: id in s.projects ==> id < s.nextId)
    && (forall id :: id in s.endpoints ==> id < s.nextId)
    && (forall id :: id in s.events ==> id < s.nextId)
    && (forall id :: id in s.operations ==> id < s.nextId)
  }

  ghost predicate Tables(s: State) {
    && EventRefs(s.projects, s.events)
    && EndpointRefs(s.projects, s.endpoints, s.runtime)
    && Numbered(s)
  }

  ghost predicate Refs(s: State) { DeliveryRefs(s) && Tables(s) }

  // ---- rows that stay keep their references ------------------------------------------------

  lemma MoveKeepsRefs(
    c: Settings, now: real, projects: map<nat, nat>, endpoints: map<nat, Endpoint>, events: map<nat, Event>,
    d: Delivery, e: Delivery, claiming: bool)
    requires Moves(c, now, d, e, claiming) && RowRefs(projects, endpoints, events, d)
    ensures RowRefs(projects, endpoints, events, e)
  {
  }

  /** A step that keeps each old row's references and gives new rows theirs. */
  lemma RefsByMoves(c: Settings, s: State, t: State, claiming: bool)
    requires Steps(c, s, t, claiming)
    requires forall id :: id in t.deliveries && id in s.deliveries ==>
               RowRefs(t.projects, t.endpoints, t.events, s.deliveries[id])
    requires forall id :: id in t.deliveries && id !in s.deliveries ==>
               RowRefs(t.projects, t.endpoints, t.events, t.deliveries[id])
    ensures DeliveryRefs(t)
  {
    forall id | id in t.deliveries ensures RowRefs(t.projects, t.endpoints, t.events, t.deliveries[id]) {
      if id in s.deliveries {
        MoveKeepsRefs(c, s.now, t.projects, t.endpoints, t.events, s.deliveries[id], t.deliveries[id], claiming);
      }
    }
  }

  // ---- each step ---------------------------------------------------------------------------------

  lemma SetupRefs(c: Settings, s: State, step: Setup)
    requires Refs(s) && IdsBelow(s.deliveries, s.nextId)
    ensures Refs(ApplySetup(c, s, step))
  {
    SetupTables(c, s, step);
    SetupDeliveryRefs(c, s, step);
  }

  lemma SetupTables(c: Settings, s: State, step: Setup)
    requires Tables(s)
    ensures Tables(ApplySetup(c, s, step))
  {
  }

  lemma SetupDeliveryRefs(c: Settings, s: State, step: Setup)
    requires Refs(s)
    ensures DeliveryRefs(ApplySetup(c, s, step))
  {
    var t := ApplySetup(c, s, step);
    SetupFrame(c, s, step);
    SetupGrows(c, s, step);
    RefsGrow(s, t);
  }

  /** Projects keep their organization and endpoints their project. */
  ghost predicate DirectoryGrows(s: State, t: State) {
    && (forall p :: p in s.projects ==> p in t.projects && t.projects[p] == s.projects[p])
    && (forall e :: e in s.endpoints ==> e in t.endpoints && t.endpoints[e].project == s.endpoints[e].project)
  }

  lemma SetupGrows(c: Settings, s: State, step: Setup)
    requires Numbered(s)
    ensures DirectoryGrows(s, ApplySetup(c, s, step))
  {
    match step
    case CreateOrganization(retention) => assert DirectoryGrows(s, AddOrganization(s, retention));
    case CreateProject(org) => ProjectGrows(s, org);
    case CreateEndpoint(project, publicId, url, types, scheme) =>
      EndpointGrows(c, s, Endpoint(project, publicId, url, true, types, 1, scheme));
    case UpdateEndpoint(ep, url, active, types, scheme) => EditGrows(s, ep, url, active, types, scheme);
    case RotateEndpointSecret(ep) => RotateGrows(c, s, ep);
  }

  lemma ProjectGrows(s: State, org: nat)
    requires Numbered(s)
    ensures DirectoryGrows(s, AddProject(s, org))
  {
  }

  lemma EndpointGrows(c: Settings, s: State, e: Endpoint)
    requires Numbered(s)
    ensures DirectoryGrows(s, AddEndpoint(c, s, e))
  {
  }

  lemma EditGrows(s: State, ep: nat, url: string, active: bool, types: Filter, scheme: Scheme)
    ensures DirectoryGrows(s, EditEndpoint(s, ep, url, active, types, scheme))
  {
  }

  lemma RotateGrows(c: Settings, s: State, ep: nat)
    ensures DirectoryGrows(s, RotateSecret(c, s, ep))
  {
  }

  /** Events stay and projects keep their organization. */
  ghost predicate EventsRest(s: State, t: State) {
    && t.events == s.events && s.nextId <= t.nextId
    && forall p :: p in s.projects ==> p in t.projects && t.projects[p] == s.projects[p]
  }

  lemma RestsByFrame(s: State, t: State)
    requires t.events == s.events && t.projects == s.projects && s.nextId <= t.nextId
    ensures EventsRest(s, t)
  {
  }

  lemma SetupRests(c: Settings, s: State, step: Setup)
    requires Numbered(s)
    ensures EventsRest(s, ApplySetup(c, s, step))
  {
    SetupFrame(c, s, step);
    SetupGrows(c, s, step);
  }

  lemma ReplayRests(c: Settings, s: State, p: nat, sources: seq<nat>, dead: bool)
    requires ValidSettings(c)
    ensures EventsRest(s, Replay(c, s, p, sources, dead))
  {
    var tenant := ReplayOutcome(c, s, p, sources, dead);
    RestsByFrame(s, Replay(c, s, p, sources, dead));
  }

  lemma WorkRests(c: Settings, s: State, step: Work)
    requires ValidSettings(c) && CanWork(c, s, step)
    ensures EventsRest(s, ApplyWork(c, s, step))
  {
    WorkFrame(c, s, step);
    RestsByFrame(s, ApplyWork(c, s, step));
  }

  lemma OperatorRests(c: Settings, s: State, step: Operator)
    ensures EventsRest(s, ApplyOperator(c, s, step))
  {
    OperatorFrame(c, s, step);
    RestsByFrame(s, ApplyOperator(c, s, step));
  }

  lemma QuietEvents(c: Settings, s: State, step: Step)
    requires ValidSettings(c) && Enabled(c, s, step) && Numbered(s)
    requires !step.OnUpkeep? && !(step.OnIntake? && step.intake.IngestEvent?)
    ensures EventsRest(s, Apply(c, s, step))
  {
    match step
    case Clock(to) => RestsByFrame(s, s.(now := to));
    case OnSetup(setup) => SetupRests(c, s, setup);
    case OnIntake(intake) => ReplayRests(c, s, intake.project, intake.sources, intake.deadOnly);
    case OnWork(work) => WorkRests(c, s, work);
    case OnOperator(operator) => OperatorRests(c, s, operator);
  }

  lemma RefsGrow(s: State, t: State)
    requires DeliveryRefs(s) && t.deliveries == s.deliveries && t.events == s.events && DirectoryGrows(s, t)
    ensures DeliveryRefs(t)
  {
    forall id | id in t.deliveries ensures RowRefs(t.projects, t.endpoints, t.events, t.deliveries[id]) {
      assert RowRefs(s.projects, s.endpoints, s.events, s.deliveries[id]);
    }
  }

  lemma IngestRefs(c: Settings, s: State, r: Request)
    requires ValidSettings(c) && Refs(s) && IdsBelow(s.deliveries, s.nextId)
    ensures Refs(Ingest(c, s, r).0)
  {
    var tenant := IngestOutcome(c, s, r);
    if Ingest(c, s, r).1.Accepted? { AcceptRefs(c, s, r, tenant); }
  }

  lemma AcceptRefs(c: Settings, s: State, r: Request, tenant: Tenant)
    requires r.project in s.projects && Refs(s) && IdsBelow(s.deliveries, s.nextId)
    ensures Refs(Accept(s, r, tenant))
  {
    var t := Accept(s, r, tenant);
    AcceptRows(c, s, r, tenant);
    forall id | id in s.deliveries ensures RowRefs(t.projects, t.endpoints, t.events, s.deliveries[id]) {
      assert RowRefs(s.projects, s.endpoints, s.events, s.deliveries[id]);
    }
    forall id | id in t.deliveries && id !in s.deliveries
      ensures RowRefs(t.projects, t.endpoints, t.events, t.deliveries[id])
    {
      AcceptedRowRefs(s, r, tenant, id);
    }
    RefsByMoves(c, s, t, false);
    AcceptTables(s, r, tenant);
  }

  lemma AcceptTables(s: State, r: Request, tenant: Tenant)
    requires r.project in s.projects && Tables(s)
    ensures Tables(Accept(s, r, tenant))
  {
  }

  lemma TargetProject(s: State, project: nat, eventType: string, i: nat)
    requires i < |TargetList(s, project, eventType)|
    ensures var e := TargetList(s, project, eventType)[i]; e in s.endpoints && s.endpoints[e].project == project
  {
    assert TargetList(s, project, eventType)[i] in Sorted(Targets(s, project, eventType));
  }

  lemma AcceptedRowRefs(s: State, r: Request, tenant: Tenant, id: nat)
    requires r.project in s.projects && IdsBelow(s.deliveries, s.nextId)
    requires id in Accept(s, r, tenant).deliveries && id !in s.deliveries
    ensures var t := Accept(s, r, tenant); RowRefs(t.projects, t.endpoints, t.events, t.deliveries[id])
  {
    AcceptedRows(s, r, tenant);
    AcceptedRow(s, r, tenant, id - s.nextId - 1);
    TargetProject(s, r.project, r.eventType, id - s.nextId - 1);
  }

  lemma ReplayRefs(c: Settings, s: State, project: nat, sources: seq<nat>, deadOnly: bool)
    requires ValidSettings(c) && Refs(s) && IdsBelow(s.deliveries, s.nextId)
    ensures Refs(Replay(c, s, project, sources, deadOnly))
  {
    var tenant := ReplayOutcome(c, s, project, sources, deadOnly);
    if Replay(c, s, project, sources, deadOnly) != s { CopyRefs(c, s, project, sources, deadOnly, s.projects[project], tenant); }
  }

  lemma CopyRefs(
    c: Settings, s: State, project: nat, sources: seq<nat>, deadOnly: bool, org: nat, tenant: Tenant)
    requires AllSources(s, project, deadOnly, sources) && Refs(s) && IdsBelow(s.deliveries, s.nextId)
    ensures Refs(CopySources(s, sources, org, tenant))
  {
    var t := CopySources(s, sources, org, tenant);
    CopyRows(c, s, sources, org, tenant);
    forall id | id in t.deliveries && id !in s.deliveries
      ensures RowRefs(t.projects, t.endpoints, t.events, t.deliveries[id])
    {
      CopiedRowRefs(s, project, sources, deadOnly, id);
    }
    RefsByMoves(c, s, t, false);
  }

  lemma CopiedRowRefs(s: State, project: nat, sources: seq<nat>, deadOnly: bool, id: nat)
    requires AllSources(s, project, deadOnly, sources) && DeliveryRefs(s) && IdsBelow(s.deliveries, s.nextId)
    requires id in Replayed(s, sources, |sources|) && id !in s.deliveries
    ensures RowRefs(s.projects, s.endpoints, s.events, Replayed(s, sources, |sources|)[id])
  {
    ReplayedAt(s, sources, |sources|);
    var i := id - s.nextId;
    ReplayedRow(s, sources, |sources|, i);
    assert sources[i] in sources;
    assert IsSource(s, project, deadOnly, sources[i]);
    assert RowRefs(s.projects, s.endpoints, s.events, s.deliveries[sources[i]]);
  }

  /** Workers and operators touch rows, circuits and cursors only. */
  lemma RowsOnly(c: Settings, s: State, t: State, claiming: bool)
    requires Refs(s) && Steps(c, s, t, claiming) && t.runtime.Keys == s.runtime.Keys
    requires t == s.(deliveries := t.deliveries, runtime := t.runtime, tenants := t.tenants,
                     cursor := t.cursor, issued := t.issued, nextToken := t.nextToken)
    ensures Refs(t)
  {
    RefsByMoves(c, s, t, claiming);
  }

  lemma WorkRefs(c: Settings, s: State, step: Work)
    requires ValidSettings(c) && CanWork(c, s, step) && Refs(s)
    ensures Refs(ApplyWork(c, s, step))
  {
    WorkRows(c, s, step);
    WorkFrame(c, s, step);
    if step.ClaimWork? { ClaimTables(c, s, step.limit, step.candidates); }
    RowsOnly(c, s, ApplyWork(c, s, step), step.ClaimWork?);
  }

  lemma ClaimTables(c: Settings, s: State, limit: nat, ids: seq<nat>)
    requires ValidSettings(c) && CanWork(c, s, ClaimWork(limit, ids)) && Refs(s)
    ensures ClaimDue(c, s, limit, ids).runtime.Keys == s.runtime.Keys
  {
    if ClaimCommits(c, s, limit, ids) {
      ChosenEndpoints(c, s, limit, ids);
      KnownEndpoints(s, ids);
    }
  }

  lemma KnownEndpoints(s: State, ids: seq<nat>)
    requires AllRows(s, ids) && Refs(s)
    ensures EndpointIds(s, ids) <= s.runtime.Keys
  {
    forall e | e in EndpointIds(s, ids) ensures e in s.runtime {
      var id :| id in ids && s.deliveries[id].endpoint == e;
      assert RowRefs(s.projects, s.endpoints, s.events, s.deliveries[id]);
    }
  }

  lemma OperatorRefs(c: Settings, s: State, step: Operator)
    requires Refs(s)
    ensures Refs(ApplyOperator(c, s, step))
  {
    OperatorRows(c, s, step);
    OperatorFrame(c, s, step);
    RowsOnly(c, s, ApplyOperator(c, s, step), false);
  }

  // ---- retention and deletion ------------------------------------------------------------------

  /** Purging spares every event with an open delivery. */
  lemma PurgeRefs(s: State, batch: set<nat>)
    requires Refs(s)
    ensures Refs(PurgePayloads(s, batch))
  {
    var t := PurgePayloads(s, batch);
    forall id | id in t.deliveries ensures RowRefs(t.projects, t.endpoints, t.events, t.deliveries[id]) {
      var d := s.deliveries[id];
      assert RowRefs(s.projects, s.endpoints, s.events, d);
      if !Terminal(d.status) { assert HasOpenDelivery(s, d.event); }
    }
  }

  lemma DeleteRefs(s: State, t: State, gone: set<nat>)
    requires Refs(s) && t == DeleteDeliveries(s, gone).(operations := t.operations)
    requires forall op :: op in t.operations ==> op < s.nextId
    ensures Refs(t)
  {
    forall id | id in t.deliveries ensures RowRefs(t.projects, t.endpoints, t.events, t.deliveries[id]) {
      assert RowRefs(s.projects, s.endpoints, s.events, s.deliveries[id]);
    }
  }

  lemma CancelBatchRefs(s: State, t: State, batch: set<nat>)
    requires Refs(s) && t == CancelBatch(s, batch).(operations := t.operations)
    requires forall op :: op in t.operations ==> op < s.nextId
    ensures Refs(t)
  {
    forall id | id in t.deliveries ensures RowRefs(t.projects, t.endpoints, t.events, t.deliveries[id]) {
      assert RowRefs(s.projects, s.endpoints, s.events, s.deliveries[id]);
    }
  }

  /** Orphan events are deleted under no delivery. */
  lemma DeleteEventsRefs(s: State, t: State, org: nat, batch: set<nat>)
    requires Refs(s) && batch <= Orphans(s, org) && t == DeleteEvents(s, batch).(operations := t.operations)
    requires forall op :: op in t.operations ==> op < s.nextId
    ensures Refs(t)
  {
    forall id | id in t.deliveries ensures RowRefs(t.projects, t.endpoints, t.events, t.deliveries[id]) {
      assert RowRefs(s.projects, s.endpoints, s.events, s.deliveries[id]);
      assert HasDelivery(s, s.deliveries[id].event);
    }
  }

  /** An organization is deleted only when nothing refers to it any more. */
  lemma DeleteOrgRefs(s: State, org: nat)
    requires Refs(s) && DeliveriesOf(s, org) == {} && EventsOf(s, org) == {}
    ensures Refs(DeleteOrganization(s, org))
  {
    var t := DeleteOrganization(s, org);
    forall id | id in t.deliveries ensures RowRefs(t.projects, t.endpoints, t.events, t.deliveries[id]) {
      assert RowRefs(s.projects, s.endpoints, s.events, s.deliveries[id]);
      assert id !in DeliveriesOf(s, org);
    }
    forall id | id in t.events ensures t.events[id].project in t.projects {
      assert id !in EventsOf(s, org);
    }
  }

  lemma CleanupRefs(s: State, op: nat, batch: set<nat>)
    requires DueOperation(s, op) && batch <= CleanupTargets(s, s.operations[op].org) && Refs(s)
    ensures Refs(Cleanup(s, op, batch))
  {
    var org := s.operations[op].org;
    var stage := StageOf(s, org);
    var t := Cleanup(s, op, batch);
    if stage.Canceling? {
      CancelBatchRefs(s, t, batch);
    } else if stage.DeletingDeliveries? {
      DeleteRefs(s, t, batch);
    } else if stage.DeletingEvents? {
      DeleteEventsRefs(s, t, org, batch);
    } else if stage.DeletingOrganization? {
      MarkRefs(s, op);
      DeleteOrgRefs(MarkRunning(s, op), org);
    } else {
      MarkRefs(s, op);
    }
  }

  lemma MarkRefs(s: State, op: nat)
    requires Refs(s) && op in s.operations
    ensures Refs(MarkRunning(s, op))
  {
    var t := MarkRunning(s, op);
    assert t.deliveries == s.deliveries;
  }

  lemma UpkeepRefs(c: Settings, s: State, step: Upkeep)
    requires CanKeep(c, s, step) && Refs(s)
    ensures Refs(ApplyUpkeep(c, s, step))
  {
    match step
    case PurgeEventPayloads(batch) => PurgeRefs(s, batch);
    case PurgeTerminalDeliveries(batch) => RetiredRefs(c, s, batch);
    case RequestOrgDeletion(org) => RequestRefs(c, s, org);
    case CancelOrgDeletion(org) => DeletionRefs(s, CancelDeletion(s, org));
    case CleanupRun(op, batch) => CleanupRefs(s, op, batch);
  }

  lemma RetiredRefs(c: Settings, s: State, batch: set<nat>)
    requires Refs(s)
    ensures Refs(PurgeDeliveries(c, s, batch))
  {
    DeleteRefs(s, PurgeDeliveries(c, s, batch), set id | id in batch && Retired(c, s, id));
  }

  lemma RequestRefs(c: Settings, s: State, org: nat)
    requires Refs(s)
    ensures Refs(RequestDeletion(c, s, org))
  {
    DeletionRefs(s, RequestDeletion(c, s, org));
  }

  lemma DeletionRefs(s: State, t: State)
    requires Refs(s) && t == s.(orgs := t.orgs, operations := t.operations, nextId := t.nextId)
    requires s.nextId <= t.nextId && t.orgs.Keys == s.orgs.Keys
    requires forall op :: op in t.operations ==> op < t.nextId
    ensures Refs(t)
  {
  }

  lemma StepKeepsRefs(c: Settings, s: State, step: Step)
    requires ValidSettings(c) && Enabled(c, s, step) && Refs(s) && IdsBelow(s.deliveries, s.nextId)
    ensures Refs(Apply(c, s, step))
  {
    match step
    case Clock(_) =>
    case OnSetup(setup) => SetupRefs(c, s, setup);
    case OnIntake(IngestEvent(r)) => IngestRefs(c, s, r);
    case OnIntake(ReplayDeliveries(p, sources, dead)) => ReplayRefs(c, s, p, sources, dead);
    case OnWork(work) => WorkRefs(c, s, work);
    case OnOperator(operator) => OperatorRefs(c, s, operator);
    case OnUpkeep(upkeep) => UpkeepRefs(c, s, upkeep);
  }

  /** A claim never meets a delivery without bytes to send: every selected row
      is leased. */
  lemma ClaimAlwaysHasBytes(c: Settings, s: State, limit: nat, ids: seq<nat>)
    requires ValidSettings(c) && CanWork(c, s, ClaimWork(limit, ids)) && Refs(s)
    requires limit > 0 && FreeSlots(c, s, limit) > 0 && ids != []
    ensures var t := Chosen(c, s, limit, ids);
            AllCanSend(s, t.selected) && ClaimDue(c, s, limit, ids) == Lease(c, s, t)
  {
    ChosenRows(c, s, limit, ids);
    SelectedCanSend(s, ids, Chosen(c, s, limit, ids).selected);
  }

  lemma SelectedCanSend(s: State, ids: seq<nat>, sel: seq<Candidate>)
    requires AllRows(s, ids) && SelectedRows(s, ids, sel) && DeliveryRefs(s)
    requires forall id :: id in ids ==> Due(s.deliveries[id], s.now)
    ensures AllCanSend(s, sel)
  {
    forall d | d in sel ensures CanSend(s, d.id) {
      assert RowRefs(s.projects, s.endpoints, s.events, s.deliveries[d.id]);
    }
  }
}
