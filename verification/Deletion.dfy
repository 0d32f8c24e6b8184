/** Staged organization deletion: when it may start, that every due run makes
    progress, and that it ends. */
module Deletion {
  import opened Base
  import opened Types
  import opened Platform
  import opened Admission
  import opened Lifecycle
  import opened Machine
  import opened Rows
  import opened LeaseSafety
  import opened Integrity
  import opened Events
  import opened Quotas

  // ---- operations ------------------------------------------------------------------------

  predicate ActiveStatus(o: Operation) { o.status.OpPending? || o.status.OpRunning? }

  /** Scheduled one grace period after the request, and running only after it. */
  predicate OperationOk(c: Settings, now: real, orgs: map<nat, Organization>, o: Operation) {
    && o.scheduledAt == o.createdAt + c.deletionGrace && o.createdAt <= now
    && (o.status.OpRunning? ==> o.scheduledAt <= now)
    && o.org in orgs
    && (ActiveStatus(o) ==> orgs[o.org].lifecycle.DeletionPending?)
  }

  /** At most one active operation per organization. */
  ghost predicate OneActive(ops: map<nat, Operation>) {
    forall a, b :: a in ops && b in ops && ActiveStatus(ops[a]) && ActiveStatus(ops[b]) && ops[a].org == ops[b].org
                   ==> a == b
  }

  ghost predicate OperationsOk(c: Settings, s: State) {
    && (forall op :: op in s.operations ==> OperationOk(c, s.now, s.orgs, s.operations[op]))
    && OneActive(s.operations)
  }

  lemma SetupOperations(c: Settings, s: State, step: Setup)
    requires OperationsOk(c, s) && Numbered(s)
    ensures OperationsOk(c, ApplySetup(c, s, step))
  {
    SetupFrame(c, s, step);
    SetupKeepsOrgs(c, s, step);
    OperationsStay(c, s, ApplySetup(c, s, step));
  }

  lemma OperationsStay(c: Settings, s: State, t: State)
    requires OperationsOk(c, s) && t.operations == s.operations && t.now == s.now
    requires forall o :: o in s.orgs ==> o in t.orgs && t.orgs[o] == s.orgs[o]
    ensures OperationsOk(c, t)
  {
    forall op | op in t.operations ensures OperationOk(c, t.now, t.orgs, t.operations[op]) {
      assert OperationOk(c, s.now, s.orgs, s.operations[op]);
    }
  }

  lemma SetupKeepsOrgs(c: Settings, s: State, step: Setup)
    requires Numbered(s)
    ensures forall o :: o in s.orgs ==> o in ApplySetup(c, s, step).orgs && ApplySetup(c, s, step).orgs[o] == s.orgs[o]
  {
    if !step.CreateOrganization? { assert ApplySetup(c, s, step).orgs == s.orgs; }
  }

  lemma RequestOperations(c: Settings, s: State, org: nat)
    requires ValidSettings(c) && OperationsOk(c, s) && Numbered(s)
    ensures OperationsOk(c, RequestDeletion(c, s, org))
  {
    var t := RequestDeletion(c, s, org);
    if t != s {
      forall op | op in s.operations ensures OperationOk(c, t.now, t.orgs, t.operations[op]) {
        assert OperationOk(c, s.now, s.orgs, s.operations[op]);
      }
      forall a | a in s.operations && ActiveStatus(s.operations[a]) ensures s.operations[a].org != org {
        assert a !in ActiveOperations(s, org);
      }
    }
  }

  lemma CancelOperations(c: Settings, s: State, org: nat)
    requires OperationsOk(c, s)
    ensures OperationsOk(c, CancelDeletion(s, org))
  {
    var t := CancelDeletion(s, org);
    if t != s {
      var op := Least(ActiveOperations(s, org));
      assert ActiveOperation(s, op, org);
      forall x | x in s.operations ensures OperationOk(c, t.now, t.orgs, t.operations[x]) {
        assert OperationOk(c, s.now, s.orgs, s.operations[x]);
      }
    }
  }

  lemma MarkOperations(c: Settings, s: State, op: nat)
    requires OperationsOk(c, s) && DueOperation(s, op)
    ensures OperationsOk(c, MarkRunning(s, op))
  {
  }

  lemma StageOperations(c: Settings, s: State, stage: Stage, org: nat, batch: set<nat>)
    requires OperationsOk(c, s)
    ensures OperationsOk(c, RunStage(s, stage, org, batch))
  {
    if stage.DeletingOrganization? {
      OrganizationOperations(c, s, org);
    } else {
      StageKeepsOperations(s, stage, org, batch);
      OperationsStay(c, s, RunStage(s, stage, org, batch));
    }
  }

  lemma OrganizationOperations(c: Settings, s: State, org: nat)
    requires OperationsOk(c, s)
    ensures OperationsOk(c, DeleteOrganization(s, org))
  {
    var t := DeleteOrganization(s, org);
    forall op | op in t.operations ensures OperationOk(c, t.now, t.orgs, t.operations[op]) {
      assert OperationOk(c, s.now, s.orgs, s.operations[op]);
    }
  }

  lemma StageKeepsOperations(s: State, stage: Stage, org: nat, batch: set<nat>)
    requires !stage.DeletingOrganization?
    ensures var t := RunStage(s, stage, org, batch);
            t.operations == s.operations && t.orgs == s.orgs && t.now == s.now
  {
  }

  lemma UpkeepOperations(c: Settings, s: State, step: Upkeep)
    requires ValidSettings(c) && CanKeep(c, s, step) && OperationsOk(c, s) && Numbered(s)
    ensures OperationsOk(c, ApplyUpkeep(c, s, step))
  {
    var t := ApplyUpkeep(c, s, step);
    match step
    case PurgeEventPayloads(batch) => assert t.operations == s.operations && t.orgs == s.orgs && t.now == s.now;
    case PurgeTerminalDeliveries(batch) => assert t.operations == s.operations && t.orgs == s.orgs && t.now == s.now;
    case RequestOrgDeletion(org) => RequestOperations(c, s, org);
    case CancelOrgDeletion(org) => CancelOperations(c, s, org);
    case CleanupRun(op, batch) =>
      MarkOperations(c, s, op);
      StageOperations(c, MarkRunning(s, op), StageOf(s, s.operations[op].org), s.operations[op].org, batch);
  }

  lemma StepKeepsOperations(c: Settings, s: State, step: Step)
    requires ValidSettings(c) && Enabled(c, s, step) && OperationsOk(c, s) && Numbered(s)
    ensures OperationsOk(c, Apply(c, s, step))
  {
    match step
    case Clock(_) =>
    case OnSetup(setup) => SetupOperations(c, s, setup);
    case OnIntake(intake) => IntakeFrame(c, s, intake);
    case OnWork(work) => WorkFrame(c, s, work);
    case OnOperator(operator) => OperatorFrame(c, s, operator);
    case OnUpkeep(upkeep) => UpkeepOperations(c, s, upkeep);
  }

  /** A cleanup run comes at least one grace period after the request. */
  lemma CleanupAfterGrace(c: Settings, s: State, op: nat)
    requires OperationsOk(c, s) && DueOperation(s, op)
    ensures s.now >= s.operations[op].createdAt + c.deletionGrace
  {
  }

  /** An organization whose cleanup has begun can no longer be brought back. */
  lemma RunningIsFinal(c: Settings, s: State, op: nat)
    requires OperationsOk(c, s) && op in s.operations && s.operations[op].status.OpRunning?
    ensures CancelDeletion(s, s.operations[op].org) == s
  {
    var org := s.operations[op].org;
    assert op in ActiveOperations(s, org);
    var least := Least(ActiveOperations(s, org));
    assert ActiveOperation(s, least, org);
  }

  // ---- progress -----------------------------------------------------------------------------

  function OpenOf(s: State, org: nat): set<nat> {
    set id | id in s.deliveries && s.deliveries[id].org == org && !Terminal(s.deliveries[id].status)
  }

  /** What is left to remove: open deliveries, deliveries, events, and the
      organization itself. */
  datatype Remaining = Remaining(open: nat, deliveries: nat, events: nat, org: nat)

  function RemainingOf(s: State, org: nat): Remaining {
    Remaining(|OpenOf(s, org)|, |DeliveriesOf(s, org)|, |EventsOf(s, org)|, if org in s.orgs then 1 else 0)
  }

  predicate Less(a: Remaining, b: Remaining) {
    || a.open < b.open
    || (a.open == b.open && a.deliveries < b.deliveries)
    || (a.open == b.open && a.deliveries == b.deliveries && a.events < b.events)
    || (a.open == b.open && a.deliveries == b.deliveries && a.events == b.events && a.org < b.org)
  }

  /** No component grows and one shrinks. */
  predicate Shrinks(a: Remaining, b: Remaining) {
    && a.open <= b.open && a.deliveries <= b.deliveries && a.events <= b.events && a.org <= b.org
    && Less(a, b)
  }

  lemma BatchNonempty(c: Settings, s: State, org: nat, batch: set<nat>)
    requires ValidSettings(c) && GoodBatch(c, s, org, batch) && CleanupTargets(s, org) != {}
    ensures batch != {}
  {
  }

  lemma ProperSubset(a: set<nat>, b: set<nat>, x: nat)
    requires a <= b && x in b && x !in a
    ensures |a| < |b|
  {
    SubsetCardinality(a, b - {x});
  }

  lemma CancelingShrinks(s: State, org: nat, batch: set<nat>)
    requires batch <= Cancellable(s, org) && batch != {}
    ensures Shrinks(RemainingOf(CancelBatch(s, batch), org), RemainingOf(s, org))
  {
    var t := CancelBatch(s, batch);
    var x :| x in batch;
    ProperSubset(OpenOf(t, org), OpenOf(s, org), x);
    assert DeliveriesOf(t, org) == DeliveriesOf(s, org);
    assert EventsOf(t, org) == EventsOf(s, org);
  }

  lemma DeletingShrinks(s: State, org: nat, batch: set<nat>)
    requires batch <= DeliveriesOf(s, org) && batch != {}
    ensures Shrinks(RemainingOf(DeleteDeliveries(s, batch), org), RemainingOf(s, org))
  {
    var t := DeleteDeliveries(s, batch);
    var x :| x in batch;
    SubsetCardinality(OpenOf(t, org), OpenOf(s, org));
    ProperSubset(DeliveriesOf(t, org), DeliveriesOf(s, org), x);
    assert EventsOf(t, org) == EventsOf(s, org);
  }

  lemma EventsShrink(s: State, org: nat, batch: set<nat>)
    requires batch <= Orphans(s, org) && batch != {}
    ensures Shrinks(RemainingOf(DeleteEvents(s, batch), org), RemainingOf(s, org))
  {
    var t := DeleteEvents(s, batch);
    var x :| x in batch;
    ProperSubset(EventsOf(t, org), EventsOf(s, org), x);
    assert OpenOf(t, org) == OpenOf(s, org) && DeliveriesOf(t, org) == DeliveriesOf(s, org);
  }

  lemma OrganizationShrinks(s: State, org: nat)
    requires org in s.orgs
    ensures Shrinks(RemainingOf(DeleteOrganization(s, org), org), RemainingOf(s, org))
  {
    var t := DeleteOrganization(s, org);
    assert OpenOf(t, org) == OpenOf(s, org) && DeliveriesOf(t, org) == DeliveriesOf(s, org);
    SubsetCardinality(EventsOf(t, org), EventsOf(s, org));
  }

  lemma DeliveryOfEvent(s: State, org: nat, e: nat)
    requires Refs(s) && e in EventsOf(s, org) && HasDelivery(s, e)
    ensures DeliveriesOf(s, org) != {}
  {
    var id :| id in s.deliveries && s.deliveries[id].event == e;
    assert RowRefs(s.projects, s.endpoints, s.events, s.deliveries[id]);
    assert id in DeliveriesOf(s, org);
  }

  /** With no delivery left, every event of the organization is an orphan. */
  lemma NeverStuck(s: State, org: nat)
    requires Refs(s)
    ensures !StageOf(s, org).Stuck?
  {
    forall e | e in EventsOf(s, org) && HasDelivery(s, e) ensures DeliveriesOf(s, org) != {} {
      DeliveryOfEvent(s, org, e);
    }
    assert forall e :: e in EventsOf(s, org) && !HasDelivery(s, e) ==> e in Orphans(s, org);
  }

  /** Each due run makes lexicographic progress, or a lease is still live. */
  lemma CleanupProgress(c: Settings, s: State, op: nat, batch: set<nat>)
    requires ValidSettings(c) && Refs(s) && DueOperation(s, op) && GoodBatch(c, s, s.operations[op].org, batch)
    ensures var org := s.operations[op].org;
            || Shrinks(RemainingOf(Cleanup(s, op, batch), org), RemainingOf(s, org))
            || (LiveOfOrg(s, org) != {} && Cleanup(s, op, batch) == MarkRunning(s, op))
  {
    var org := s.operations[op].org;
    var s1 := MarkRunning(s, op);
    var stage := StageOf(s, org);
    NeverStuck(s, org);
    MarkRemaining(s, op);
    if !stage.Waiting? {
      if !stage.DeletingOrganization? { BatchNonempty(c, s, org, batch); }
      StageShrinks(s1, stage, org, batch);
    }
  }

  lemma MarkRemaining(s: State, op: nat)
    requires op in s.operations
    ensures var s1, org := MarkRunning(s, op), s.operations[op].org;
            && RemainingOf(s1, org) == RemainingOf(s, org) && s1.orgs == s.orgs
            && Cancellable(s1, org) == Cancellable(s, org) && DeliveriesOf(s1, org) == DeliveriesOf(s, org)
            && Orphans(s1, org) == Orphans(s, org)
  {
    var s1, org := MarkRunning(s, op), s.operations[op].org;
    assert OpenOf(s1, org) == OpenOf(s, org);
    assert DeliveriesOf(s1, org) == DeliveriesOf(s, org);
    assert EventsOf(s1, org) == EventsOf(s, org);
    assert Cancellable(s1, org) == Cancellable(s, org);
    assert Orphans(s1, org) == Orphans(s, org);
  }

  lemma StageShrinks(s: State, stage: Stage, org: nat, batch: set<nat>)
    requires org in s.orgs && !stage.Waiting? && !stage.Stuck?
    requires stage.Canceling? ==> batch <= Cancellable(s, org) && batch != {}
    requires stage.DeletingDeliveries? ==> batch <= DeliveriesOf(s, org) && batch != {}
    requires stage.DeletingEvents? ==> batch <= Orphans(s, org) && batch != {}
    ensures Shrinks(RemainingOf(RunStage(s, stage, org, batch), org), RemainingOf(s, org))
  {
    match stage
    case Canceling => CancelingShrinks(s, org, batch);
    case DeletingDeliveries => DeletingShrinks(s, org, batch);
    case DeletingEvents => EventsShrink(s, org, batch);
    case DeletingOrganization => OrganizationShrinks(s, org);
  }

  /** Cleanup removes only terminal deliveries, and the organization only when
      it has neither deliveries nor events. */
  lemma CleanupIsSafe(c: Settings, s: State, op: nat, batch: set<nat>)
    requires DueOperation(s, op) && GoodBatch(c, s, s.operations[op].org, batch)
    ensures var t, org := Cleanup(s, op, batch), s.operations[op].org;
            && (forall id :: id in s.deliveries && id !in t.deliveries ==> Terminal(s.deliveries[id].status))
            && (org !in t.orgs ==> DeliveriesOf(s, org) == {} && EventsOf(s, org) == {})
            && (forall o :: o in s.orgs && o != org ==> o in t.orgs)
  {
    var org := s.operations[op].org;
    CleanupRows(c, s, op, batch);
    StageOrgs(MarkRunning(s, op), StageOf(s, org), org, batch);
  }

  lemma StageOrgs(s: State, stage: Stage, org: nat, batch: set<nat>)
    ensures forall o :: o in s.orgs && o !in RunStage(s, stage, org, batch).orgs ==> o == org && stage.DeletingOrganization?
  {
    if !stage.DeletingOrganization? { assert RunStage(s, stage, org, batch).orgs == s.orgs; }
  }

  // ---- the end -------------------------------------------------------------------------------

  function Weight(s: State, org: nat): nat {
    var r := RemainingOf(s, org);
    r.open + r.deliveries + r.events + r.org
  }

  /** The step brings new work to a project of the organization. */
  predicate FeedsOrg(s: State, step: Step, org: nat) {
    && step.OnIntake?
    && var p := if step.intake.IngestEvent? then step.intake.request.project else step.intake.project;
       p in s.projects && s.projects[p] == org
  }

  predicate NoIntake(c: Settings, s: State, steps: seq<Step>, org: nat)
    requires ValidSettings(c) && IsRun(c, s, steps)
    decreases |steps|
  {
    steps == [] || (!FeedsOrg(s, steps[0], org) && NoIntake(c, Apply(c, s, steps[0]), steps[1..], org))
  }

  lemma NewRowsElsewhere(c: Settings, s: State, step: Step, org: nat, id: nat)
    requires ValidSettings(c) && Enabled(c, s, step) && Refs(s) && IdsBelow(s.deliveries, s.nextId)
    requires !FeedsOrg(s, step, org) && id in Apply(c, s, step).deliveries && id !in s.deliveries
    ensures Apply(c, s, step).deliveries[id].org != org
  {
    if step.OnIntake? {
      IntakeElsewhere(c, s, step.intake, org, id);
    } else {
      NoNewRows(c, s, step);
    }
  }

  lemma IntakeElsewhere(c: Settings, s: State, step: Intake, org: nat, id: nat)
    requires ValidSettings(c) && Refs(s) && IdsBelow(s.deliveries, s.nextId)
    requires !FeedsOrg(s, OnIntake(step), org) && id in ApplyIntake(c, s, step).deliveries && id !in s.deliveries
    ensures ApplyIntake(c, s, step).deliveries[id].org != org
  {
    if step.IngestEvent? {
      var tenant := IngestOutcome(c, s, step.request);
      AcceptedElsewhere(s, step.request, tenant, id);
    } else {
      CopiedElsewhere(c, s, step.project, step.sources, step.deadOnly, org, id);
    }
  }

  lemma AcceptedElsewhere(s: State, r: Request, tenant: Tenant, id: nat)
    requires r.project in s.projects && IdsBelow(s.deliveries, s.nextId)
    requires id in Accept(s, r, tenant).deliveries && id !in s.deliveries
    ensures Accept(s, r, tenant).deliveries[id].org == s.projects[r.project]
  {
    AcceptedRows(s, r, tenant);
    AcceptedRow(s, r, tenant, id - s.nextId - 1);
  }

  lemma CopiedElsewhere(c: Settings, s: State, p: nat, sources: seq<nat>, dead: bool, org: nat, id: nat)
    requires ValidSettings(c) && Refs(s) && IdsBelow(s.deliveries, s.nextId)
    requires !(p in s.projects && s.projects[p] == org)
    requires id in Replay(c, s, p, sources, dead).deliveries && id !in s.deliveries
    ensures Replay(c, s, p, sources, dead).deliveries[id].org != org
  {
    var tenant := ReplayOutcome(c, s, p, sources, dead);
    CopyOrg(s, p, sources, dead, tenant, id);
  }

  /** A copy belongs to the organization of the project it was asked for. */
  lemma CopyOrg(s: State, p: nat, sources: seq<nat>, dead: bool, tenant: Tenant, id: nat)
    requires Refs(s) && IdsBelow(s.deliveries, s.nextId) && p in s.projects && AllSources(s, p, dead, sources)
    requires id in CopySources(s, sources, s.projects[p], tenant).deliveries && id !in s.deliveries
    ensures CopySources(s, sources, s.projects[p], tenant).deliveries[id].org == s.projects[p]
  {
    ReplayedAt(s, sources, |sources|);
    var i := id - s.nextId;
    ReplayedRow(s, sources, |sources|, i);
    assert sources[i] in sources;
    assert IsSource(s, p, dead, sources[i]);
    assert RowRefs(s.projects, s.endpoints, s.events, s.deliveries[sources[i]]);
  }

  /** A row that stays keeps its organization and never reopens. */
  lemma OldRowWas(c: Settings, s: State, t: State, claiming: bool, id: nat)
    requires Steps(c, s, t, claiming) && id in s.deliveries && id in t.deliveries
    ensures t.deliveries[id].org == s.deliveries[id].org
    ensures Terminal(s.deliveries[id].status) ==> Terminal(t.deliveries[id].status)
  {
    MoveKeepsOrg(c, s.now, s.deliveries[id], t.deliveries[id], claiming);
  }

  lemma MoveKeepsOrg(c: Settings, now: real, d: Delivery, e: Delivery, claiming: bool)
    requires Moves(c, now, d, e, claiming)
    ensures e.org == d.org && (Terminal(d.status) ==> Terminal(e.status))
  {
  }

  lemma RowWasThere(c: Settings, s: State, step: Step, org: nat, id: nat)
    requires ValidSettings(c) && Enabled(c, s, step) && Refs(s) && IdsBelow(s.deliveries, s.nextId)
    requires !FeedsOrg(s, step, org) && id in Apply(c, s, step).deliveries
    ensures id !in s.deliveries ==> Apply(c, s, step).deliveries[id].org != org
    ensures id in s.deliveries ==>
              && Apply(c, s, step).deliveries[id].org == s.deliveries[id].org
              && (Terminal(s.deliveries[id].status) ==> Terminal(Apply(c, s, step).deliveries[id].status))
  {
    if id in s.deliveries {
      StepRows(c, s, step);
      OldRowWas(c, s, Apply(c, s, step), IsClaim(step), id);
    } else {
      NewRowsElsewhere(c, s, step, org, id);
    }
  }

  lemma DeliveriesFall(c: Settings, s: State, step: Step, org: nat)
    requires ValidSettings(c) && Enabled(c, s, step) && Refs(s) && IdsBelow(s.deliveries, s.nextId)
    requires !FeedsOrg(s, step, org)
    ensures var t := Apply(c, s, step);
            |OpenOf(t, org)| <= |OpenOf(s, org)| && |DeliveriesOf(t, org)| <= |DeliveriesOf(s, org)|
  {
    var t := Apply(c, s, step);
    forall id | id in DeliveriesOf(t, org)
      ensures id in DeliveriesOf(s, org) && (id in OpenOf(t, org) ==> id in OpenOf(s, org))
    {
      RowWasThere(c, s, step, org, id);
    }
    SubsetCardinality(OpenOf(t, org), OpenOf(s, org));
    SubsetCardinality(DeliveriesOf(t, org), DeliveriesOf(s, org));
  }

  /** Projects keep their organization as long as they exist. */
  lemma ProjectsFixed(c: Settings, s: State, step: Step)
    requires ValidSettings(c) && Enabled(c, s, step) && Numbered(s)
    ensures var t := Apply(c, s, step);
            && (forall p :: p in s.projects && p in t.projects ==> t.projects[p] == s.projects[p])
            && (forall o :: o in t.orgs && o < s.nextId ==> o in s.orgs)
  {
    match step
    case Clock(_) =>
    case OnSetup(setup) =>
      SetupGrows(c, s, setup);
      SetupOrgs(c, s, setup);
    case OnIntake(intake) => IntakeFrame(c, s, intake);
    case OnWork(work) => WorkFrame(c, s, work);
    case OnOperator(operator) => OperatorFrame(c, s, operator);
    case OnUpkeep(upkeep) => UpkeepProjects(c, s, upkeep);
  }

  lemma SetupOrgs(c: Settings, s: State, step: Setup)
    ensures forall o :: o in ApplySetup(c, s, step).orgs && o < s.nextId ==> o in s.orgs
  {
    match step
    case CreateOrganization(retention) =>
    case CreateProject(org) =>
    case CreateEndpoint(project, publicId, url, types, scheme) =>
    case UpdateEndpoint(x, url, active, types, scheme) =>
    case RotateEndpointSecret(x) =>
  }

  lemma UpkeepProjects(c: Settings, s: State, step: Upkeep)
    requires CanKeep(c, s, step)
    ensures var t := ApplyUpkeep(c, s, step);
            && (forall p :: p in t.projects ==> p in s.projects && t.projects[p] == s.projects[p])
            && t.orgs.Keys <= s.orgs.Keys
  {
    if step.CleanupRun? {
      CleanupProjects(s, step.op, step.batch);
    } else {
      QuietUpkeep(c, s, step);
    }
  }

  lemma CleanupProjects(s: State, op: nat, batch: set<nat>)
    requires DueOperation(s, op)
    ensures var t := Cleanup(s, op, batch);
            && (forall p :: p in t.projects ==> p in s.projects && t.projects[p] == s.projects[p])
            && t.orgs.Keys <= s.orgs.Keys
  {
    if StageOf(s, s.operations[op].org).DeletingOrganization? {
      assert Cleanup(s, op, batch) == DeleteOrganization(MarkRunning(s, op), s.operations[op].org);
    } else {
      CleanupKeepsProjects(s, op, batch);
    }
  }

  lemma EventsFall(c: Settings, s: State, step: Step, org: nat)
    requires ValidSettings(c) && Enabled(c, s, step) && Tables(s) && !FeedsOrg(s, step, org)
    ensures |EventsOf(Apply(c, s, step), org)| <= |EventsOf(s, org)|
  {
    var t := Apply(c, s, step);
    ProjectsFixed(c, s, step);
    forall id | id in EventsOf(t, org) ensures id in EventsOf(s, org) {
      if step.OnIntake? && step.intake.IngestEvent? {
        var tenant := IngestOutcome(c, s, step.intake.request);
      } else {
        StepEvents(c, s, step);
      }
    }
    SubsetCardinality(EventsOf(t, org), EventsOf(s, org));
  }

  lemma WeightFalls(c: Settings, s: State, step: Step, org: nat)
    requires ValidSettings(c) && Enabled(c, s, step) && Refs(s) && IdsBelow(s.deliveries, s.nextId)
    requires !FeedsOrg(s, step, org) && org < s.nextId
    ensures Weight(Apply(c, s, step), org) <= Weight(s, org)
  {
    DeliveriesFall(c, s, step, org);
    EventsFall(c, s, step, org);
    ProjectsFixed(c, s, step);
  }

  /** Cleanup runs for the organization at moments when none of its leases is
      live. */
  function FreeRuns(c: Settings, s: State, steps: seq<Step>, org: nat): nat
    requires ValidSettings(c) && IsRun(c, s, steps)
    decreases |steps|
  {
    if steps == [] then 0
    else
      (if CleansUp(s, steps[0], org) && LiveOfOrg(s, org) == {} then 1 else 0) +
      FreeRuns(c, Apply(c, s, steps[0]), steps[1..], org)
  }

  lemma RunShrinks(c: Settings, s: State, step: Step, org: nat)
    requires ValidSettings(c) && Enabled(c, s, step) && Refs(s)
    requires CleansUp(s, step, org) && LiveOfOrg(s, org) == {}
    ensures Weight(Apply(c, s, step), org) < Weight(s, org)
  {
    CleanupProgress(c, s, step.upkeep.op, step.upkeep.batch);
  }

  /** Deletion ends: without new work for the organization, at most as many
      unhindered cleanup runs are possible as there are open deliveries,
      deliveries, events and organizations to remove, whatever else happens in
      between. After them no run is due because the organization is gone. */
  lemma {:induction false} DeletionEnds(c: Settings, s: State, steps: seq<Step>, org: nat)
    requires ValidSettings(c) && IsRun(c, s, steps) && Refs(s) && Leases(c, s)
    requires org < s.nextId && NoIntake(c, s, steps, org)
    ensures FreeRuns(c, s, steps, org) + Weight(After(c, s, steps), org) <= Weight(s, org)
    decreases |steps|
  {
    if steps != [] {
      var s1 := Apply(c, s, steps[0]);
      if CleansUp(s, steps[0], org) && LiveOfOrg(s, org) == {} {
        RunShrinks(c, s, steps[0], org);
      } else {
        WeightFalls(c, s, steps[0], org);
      }
      StepKeepsRefs(c, s, steps[0]);
      StepKeepsLeases(c, s, steps[0]);
      NextIdGrows(c, s, steps[0]);
      DeletionEnds(c, s1, steps[1..], org);
    }
  }

  lemma NextIdGrows(c: Settings, s: State, step: Step)
    requires ValidSettings(c) && Enabled(c, s, step) && IdsBelow(s.deliveries, s.nextId)
    ensures s.nextId <= Apply(c, s, step).nextId
  {
    StepRows(c, s, step);
  }
}
