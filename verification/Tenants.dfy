/** The quota rows: which organization pays what in a step, and that balances
    stay within their bursts. */
module Tenants {
  import opened Base
  import opened Types
  import opened TokenBucket
  import opened Scheduler
  import opened Selection
  import opened Platform
  import opened Admission
  import opened Lifecycle
  import opened Machine
  import opened Claims
  import opened Integrity

  datatype Bucket = Events | Deliveries | Replays

  function Level(t: Tenant, b: Bucket): real {
    match b
    case Events => t.eventTokens
    case Deliveries => t.deliveryTokens
    case Replays => t.replayTokens
  }

  function Mark(t: Tenant, b: Bucket): real {
    match b
    case Events => t.eventRefilledAt
    case Deliveries => t.deliveryRefilledAt
    case Replays => t.replayRefilledAt
  }

  function RateOf(c: Settings, b: Bucket): real {
    match b
    case Events => c.eventRate
    case Deliveries => c.deliveryRate
    case Replays => c.replayRate
  }

  function BurstOf(c: Settings, b: Bucket): nat {
    match b
    case Events => c.eventBurst
    case Deliveries => c.deliveryBurst
    case Replays => c.replayBurst
  }

  function Holding(c: Settings, t: Tenant, b: Bucket, now: real): real {
    Available(Level(t, b), Mark(t, b), RateOf(c, b), BurstOf(c, b), now)
  }

  predicate BucketOk(c: Settings, t: Tenant, b: Bucket, now: real) {
    0.0 <= Level(t, b) <= BurstOf(c, b) as real && Mark(t, b) <= now
  }

  predicate TenantOk(c: Settings, t: Tenant, now: real) {
    BucketOk(c, t, Events, now) && BucketOk(c, t, Deliveries, now) && BucketOk(c, t, Replays, now)
  }

  /** Every project belongs to an organization, and every quota row is in range. */
  ghost predicate TenantsOk(c: Settings, s: State) {
    && (forall p :: p in s.projects ==> s.projects[p] in s.orgs)
    && (forall o :: o in s.tenants ==> TenantOk(c, s.tenants[o], s.now))
  }

  // ---- what a request costs ---------------------------------------------------------------

  datatype Charge = Charge(org: nat, events: nat, deliveries: nat, replays: nat)

  /** What a step charges, if it is an admitted request. */
  function ChargeOf(c: Settings, s: State, step: Step): Option<Charge>
    requires ValidSettings(c)
  {
    if !step.OnIntake? then None
    else
      match step.intake
      case IngestEvent(r) =>
        if Ingest(c, s, r).1.Accepted? && r.project in s.projects
        then Some(Charge(s.projects[r.project], 1, |Targets(s, r.project, r.eventType)|, 0)) else None
      case ReplayDeliveries(p, sources, dead) =>
        if Replay(c, s, p, sources, dead) != s && p in s.projects
        then Some(Charge(s.projects[p], 0, |sources|, |sources|)) else None
  }

  function Amount(charge: Charge, b: Bucket): nat {
    match b
    case Events => charge.events
    case Deliveries => charge.deliveries
    case Replays => charge.replays
  }

  /** What the step takes from the organization's bucket. */
  function Paid(c: Settings, s: State, step: Step, org: nat, b: Bucket): nat
    requires ValidSettings(c)
  {
    var charge := ChargeOf(c, s, step);
    if charge.Some? && charge.value.org == org then Amount(charge.value, b) else 0
  }

  // ---- one row -------------------------------------------------------------------------------

  /** The bucket holds exactly `amount` less than it could, and stays in range. */
  ghost predicate Pays(c: Settings, t0: Tenant, t1: Tenant, b: Bucket, amount: nat, now: real) {
    && Holding(c, t1, b, now) == Holding(c, t0, b, now) - amount as real
    && (BucketOk(c, t0, b, now) ==> BucketOk(c, t1, b, now))
  }

  lemma ConsumePays(c: Settings, t0: Tenant, t1: Tenant, b: Bucket, amount: nat, now: real, retryCap: int)
    requires ValidSettings(c)
    requires var r := ConsumeTokens(Level(t0, b), Mark(t0, b), RateOf(c, b), BurstOf(c, b), amount, now, retryCap);
             r.retryAfter.None? && Level(t1, b) == r.tokens && Mark(t1, b) == r.refilledAt
    ensures Pays(c, t0, t1, b, amount, now)
  {
    SpendAccounting(Level(t0, b), Mark(t0, b), RateOf(c, b), BurstOf(c, b), amount, now, retryCap);
  }

  lemma SamePays(c: Settings, t0: Tenant, t1: Tenant, b: Bucket, now: real)
    requires Level(t1, b) == Level(t0, b) && Mark(t1, b) == Mark(t0, b)
    ensures Pays(c, t0, t1, b, 0, now)
  {
  }

  lemma EventPays(c: Settings, s: State, org: nat, count: nat, size: nat, b: Bucket)
    requires ValidSettings(c) && AdmitEvent(c, s, org, count, size).Admitted?
    ensures Pays(c, TenantRow(c, s, org), AdmitEvent(c, s, org, count, size).tenant, b,
                 Amount(Charge(org, 1, count, 0), b), s.now)
  {
    var t0, t1 := TenantRow(c, s, org), AdmitEvent(c, s, org, count, size).tenant;
    match b
    case Events => ConsumePays(c, t0, t1, Events, 1, s.now, c.quotaRetryAfterMax);
    case Deliveries => ConsumePays(c, t0, t1, Deliveries, count, s.now, c.quotaRetryAfterMax);
    case Replays => SamePays(c, t0, t1, Replays, s.now);
  }

  lemma ReplayPays(c: Settings, s: State, org: nat, count: nat, b: Bucket)
    requires ValidSettings(c) && AdmitReplays(c, s, org, count).Admitted?
    ensures Pays(c, TenantRow(c, s, org), AdmitReplays(c, s, org, count).tenant, b,
                 Amount(Charge(org, 0, count, count), b), s.now)
  {
    var t0, t1 := TenantRow(c, s, org), AdmitReplays(c, s, org, count).tenant;
    match b
    case Events => SamePays(c, t0, t1, Events, s.now);
    case Deliveries => ConsumePays(c, t0, t1, Deliveries, count, s.now, c.quotaRetryAfterMax);
    case Replays => ConsumePays(c, t0, t1, Replays, count, s.now, c.quotaRetryAfterMax);
  }

  // ---- one step -------------------------------------------------------------------------------

  lemma IntakeTenant(c: Settings, s: State, step: Step, org: nat, b: Bucket)
    requires ValidSettings(c) && Enabled(c, s, step) && step.OnIntake? && org in Apply(c, s, step).tenants
    ensures Pays(c, TenantRow(c, s, org), Apply(c, s, step).tenants[org], b, Paid(c, s, step, org, b), s.now)
    ensures org !in s.tenants ==> exists p :: p in s.projects && s.projects[p] == org
  {
    match step.intake
    case IngestEvent(r) =>
      IngestTenant(c, s, step, r, org, b);
    case ReplayDeliveries(p, sources, dead) =>
      ReplayTenant(c, s, step, p, sources, dead, org, b);
  }

  lemma IngestTenant(c: Settings, s: State, step: Step, r: Request, org: nat, b: Bucket)
    requires ValidSettings(c) && step == OnIntake(IngestEvent(r)) && org in Ingest(c, s, r).0.tenants
    ensures Pays(c, TenantRow(c, s, org), Ingest(c, s, r).0.tenants[org], b, Paid(c, s, step, org, b), s.now)
    ensures org !in s.tenants ==> r.project in s.projects && s.projects[r.project] == org
  {
    var tenant := IngestOutcome(c, s, r);
    if Ingest(c, s, r).1.Accepted? && s.projects[r.project] == org {
      assert Ingest(c, s, r).0.tenants == s.tenants[org := tenant];
      EventPays(c, s, org, |Targets(s, r.project, r.eventType)|, |r.envelope|, b);
    } else {
      assert Ingest(c, s, r).0.tenants[org] == s.tenants[org];
      SamePays(c, s.tenants[org], s.tenants[org], b, s.now);
    }
  }

  lemma ReplayTenant(
    c: Settings, s: State, step: Step, p: nat, sources: seq<nat>, dead: bool, org: nat, b: Bucket)
    requires ValidSettings(c) && step == OnIntake(ReplayDeliveries(p, sources, dead))
    requires org in Replay(c, s, p, sources, dead).tenants
    ensures Pays(c, TenantRow(c, s, org), Replay(c, s, p, sources, dead).tenants[org], b,
                 Paid(c, s, step, org, b), s.now)
    ensures org !in s.tenants ==> p in s.projects && s.projects[p] == org
  {
    var tenant := ReplayOutcome(c, s, p, sources, dead);
    var t := Replay(c, s, p, sources, dead);
    if t != s && s.projects[p] == org {
      assert t.tenants == s.tenants[org := tenant];
      ReplayPays(c, s, org, |sources|, b);
    } else {
      assert t.tenants[org] == s.tenants[org];
      SamePays(c, s.tenants[org], s.tenants[org], b, s.now);
    }
  }

  lemma ClaimTenant(c: Settings, s: State, limit: nat, ids: seq<nat>, org: nat, b: Bucket)
    requires ValidSettings(c) && CanWork(c, s, ClaimWork(limit, ids)) && Refs(s)
    requires org in ClaimDue(c, s, limit, ids).tenants
    ensures Pays(c, TenantRow(c, s, org), ClaimDue(c, s, limit, ids).tenants[org], b, 0, s.now)
    ensures org !in s.tenants ==> exists p :: p in s.projects && s.projects[p] == org
  {
    if ClaimCommits(c, s, limit, ids) {
      var t := Chosen(c, s, limit, ids);
      assert Lease(c, s, t).tenants == t.tenants;
      ChosenTenant(c, s, limit, ids, org);
      CursorPays(c, TenantRow(c, s, org), t.tenants[org], b, s.now);
    } else {
      SamePays(c, s.tenants[org], s.tenants[org], b, s.now);
    }
  }

  lemma CursorPays(c: Settings, t0: Tenant, t1: Tenant, b: Bucket, now: real)
    requires t1 == t0.(endpointCursor := t1.endpointCursor)
    ensures Pays(c, t0, t1, b, 0, now)
  {
    SamePays(c, t0, t1, b, now);
  }

  lemma ChosenTenant(c: Settings, s: State, limit: nat, ids: seq<nat>, org: nat)
    requires ValidSettings(c) && AllRows(s, ids) && Distinct(ids) && FreeSlots(c, s, limit) > 0 && Refs(s)
    requires org in Chosen(c, s, limit, ids).tenants
    ensures var t := Chosen(c, s, limit, ids).tenants[org];
            t == TenantRow(c, s, org).(endpointCursor := t.endpointCursor)
    ensures org !in s.tenants ==> exists p :: p in s.projects && s.projects[p] == org
  {
    ChosenWithin(c, s, limit, ids);
    assert org in StartOf(c, s, ids).tenants;
    if org !in s.tenants {
      var id :| id in ids && s.deliveries[id].org == org;
      assert RowRefs(s.projects, s.endpoints, s.events, s.deliveries[id]);
    }
  }

  ghost predicate TenantsShrink(s: State, t: State) {
    forall o :: o in t.tenants ==> o in s.tenants && t.tenants[o] == s.tenants[o]
  }

  lemma UpkeepTenants(c: Settings, s: State, step: Upkeep)
    requires CanKeep(c, s, step)
    ensures TenantsShrink(s, ApplyUpkeep(c, s, step))
  {
    if step.CleanupRun? {
      CleanupTenants(s, step.op, step.batch);
    } else {
      QuietUpkeep(c, s, step);
    }
  }

  lemma CleanupTenants(s: State, op: nat, batch: set<nat>)
    requires DueOperation(s, op)
    ensures TenantsShrink(s, Cleanup(s, op, batch))
  {
    StageTenants(MarkRunning(s, op), StageOf(s, s.operations[op].org), s.operations[op].org, batch);
  }

  lemma StageTenants(s: State, stage: Stage, org: nat, batch: set<nat>)
    ensures TenantsShrink(s, RunStage(s, stage, org, batch))
  {
    if !stage.DeletingOrganization? { assert RunStage(s, stage, org, batch).tenants == s.tenants; }
  }

  /** Every step, organization by organization. A new quota row starts full and
      belongs to an organization that has projects. */
  lemma StepTenant(c: Settings, s: State, step: Step, org: nat, b: Bucket)
    requires ValidSettings(c) && Enabled(c, s, step) && Refs(s) && org in Apply(c, s, step).tenants
    ensures Pays(c, TenantRow(c, s, org), Apply(c, s, step).tenants[org], b, Paid(c, s, step, org, b), s.now)
    ensures org !in s.tenants ==> exists p :: p in s.projects && s.projects[p] == org
  {
    match step
    case Clock(_) => SamePays(c, s.tenants[org], s.tenants[org], b, s.now);
    case OnSetup(setup) =>
      SetupFrame(c, s, setup);
      SamePays(c, s.tenants[org], s.tenants[org], b, s.now);
    case OnIntake(intake) => IntakeTenant(c, s, step, org, b);
    case OnWork(work) =>
      if work.ClaimWork? {
        ClaimTenant(c, s, work.limit, work.candidates, org, b);
      } else {
        WorkFrame(c, s, work);
        SamePays(c, s.tenants[org], s.tenants[org], b, s.now);
      }
    case OnOperator(operator) =>
      OperatorFrame(c, s, operator);
      SamePays(c, s.tenants[org], s.tenants[org], b, s.now);
    case OnUpkeep(upkeep) =>
      UpkeepTenants(c, s, upkeep);
      SamePays(c, s.tenants[org], s.tenants[org], b, s.now);
  }

  // ---- the invariant ---------------------------------------------------------------------------

  lemma FreshTenantOk(c: Settings, now: real)
    ensures TenantOk(c, FreshTenant(c, now), now)
  {
  }

  lemma TenantStaysOk(c: Settings, s: State, step: Step, org: nat)
    requires ValidSettings(c) && Enabled(c, s, step) && Refs(s) && TenantsOk(c, s)
    requires org in Apply(c, s, step).tenants
    ensures TenantOk(c, Apply(c, s, step).tenants[org], s.now)
  {
    FreshTenantOk(c, s.now);
    StepTenant(c, s, step, org, Events);
    StepTenant(c, s, step, org, Deliveries);
    StepTenant(c, s, step, org, Replays);
  }

  ghost predicate ProjectsOwned(projects: map<nat, nat>, orgs: map<nat, Organization>) {
    forall p :: p in projects ==> projects[p] in orgs
  }

  lemma SetupOwned(c: Settings, s: State, step: Setup)
    requires ProjectsOwned(s.projects, s.orgs)
    ensures var t := ApplySetup(c, s, step); ProjectsOwned(t.projects, t.orgs)
  {
    match step
    case CreateOrganization(retention) =>
      assert ProjectsOwned(AddOrganization(s, retention).projects, AddOrganization(s, retention).orgs);
    case CreateProject(org) => assert ProjectsOwned(AddProject(s, org).projects, AddProject(s, org).orgs);
    case CreateEndpoint(_, _, _, _, _) => SetupKeepsProjects(c, s, step);
    case UpdateEndpoint(_, _, _, _, _) => SetupKeepsProjects(c, s, step);
    case RotateEndpointSecret(_) => SetupKeepsProjects(c, s, step);
  }

  lemma SetupKeepsProjects(c: Settings, s: State, step: Setup)
    requires !step.CreateOrganization? && !step.CreateProject?
    ensures var t := ApplySetup(c, s, step); t.projects == s.projects && t.orgs == s.orgs
  {
  }

  lemma DeletedOwned(s: State, org: nat)
    requires ProjectsOwned(s.projects, s.orgs)
    ensures var t := DeleteOrganization(s, org); ProjectsOwned(t.projects, t.orgs)
  {
  }

  lemma CleanupOwned(s: State, op: nat, batch: set<nat>)
    requires DueOperation(s, op) && ProjectsOwned(s.projects, s.orgs)
    ensures var t := Cleanup(s, op, batch); ProjectsOwned(t.projects, t.orgs)
  {
    if StageOf(s, s.operations[op].org).DeletingOrganization? {
      DeletedOwned(MarkRunning(s, op), s.operations[op].org);
    } else {
      CleanupKeepsProjects(s, op, batch);
    }
  }

  lemma UpkeepOwned(c: Settings, s: State, step: Upkeep)
    requires CanKeep(c, s, step) && ProjectsOwned(s.projects, s.orgs)
    ensures var t := ApplyUpkeep(c, s, step); ProjectsOwned(t.projects, t.orgs)
  {
    if step.CleanupRun? {
      CleanupOwned(s, step.op, step.batch);
    } else {
      QuietUpkeep(c, s, step);
    }
  }

  lemma StepKeepsOwned(c: Settings, s: State, step: Step)
    requires ValidSettings(c) && Enabled(c, s, step) && ProjectsOwned(s.projects, s.orgs)
    ensures var t := Apply(c, s, step); ProjectsOwned(t.projects, t.orgs)
  {
    match step
    case Clock(_) =>
    case OnSetup(setup) => SetupOwned(c, s, setup);
    case OnIntake(intake) => IntakeFrame(c, s, intake);
    case OnWork(work) => WorkFrame(c, s, work);
    case OnOperator(operator) => OperatorFrame(c, s, operator);
    case OnUpkeep(upkeep) => UpkeepOwned(c, s, upkeep);
  }

  lemma StepKeepsTenants(c: Settings, s: State, step: Step)
    requires ValidSettings(c) && Enabled(c, s, step) && Refs(s) && TenantsOk(c, s)
    ensures TenantsOk(c, Apply(c, s, step))
  {
    var t := Apply(c, s, step);
    TimeMoves(c, s, step);
    StepKeepsOwned(c, s, step);
    forall o | o in t.tenants ensures TenantOk(c, t.tenants[o], t.now) { TenantStaysOk(c, s, step, o); }
  }
}
