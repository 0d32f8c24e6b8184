/** Signing secrets over runs: versions, the snapshot a delivery signs with, and
    replay chains. */
module Secrets {
  import opened Base
  import opened Types
  import opened Scheduler
  import opened Platform
  import opened Admission
  import opened Lifecycle
  import opened Machine
  import opened Rows
  import opened LeaseSafety
  import opened Integrity
  import opened Events
  import opened Quotas

  type Versions = map<(nat, nat), SecretVersion>

  /** Versions 1 to the current one exist, and exactly the current one is not
      retired. */
  ghost predicate EndpointVersions(versions: Versions, ep: nat, current: nat) {
    && current >= 1
    && (forall k: nat :: (ep, k) in versions <==> 1 <= k <= current)
    && (forall k: nat :: (ep, k) in versions ==> (versions[(ep, k)].retireAt.None? <==> k == current))
  }

  ghost predicate VersionsOk(versions: Versions, endpoints: map<nat, Endpoint>) {
    && (forall ep :: ep in endpoints ==> EndpointVersions(versions, ep, endpoints[ep].secretVersion))
    && (forall v :: v in versions ==> v.0 in endpoints)
  }

  /** A delivery signs with a version of its endpoint that was current when its
      event was accepted, so it stays valid for the overlap after that. */
  ghost predicate Signable(c: Settings, versions: Versions, events: map<nat, Event>, d: Delivery) {
    && d.event in events
    && var v := (d.endpoint, d.snapshot.secretVersion);
       && v in versions
       && (versions[v].retireAt.Some? ==>
             versions[v].retireAt.value >= events[d.event].createdAt + c.secretOverlap)
  }

  /** A replay has the event, endpoint and snapshot of its source, and is newer. */
  predicate CopyOf(d: Delivery, source: Delivery) {
    d.org == source.org && d.event == source.event && d.endpoint == source.endpoint && d.snapshot == source.snapshot
  }

  ghost predicate SourcesLinked(ds: map<nat, Delivery>) {
    forall id :: id in ds && ds[id].replayOf.Some? ==>
      var source := ds[id].replayOf.value;
      source < id && source in ds && CopyOf(ds[id], ds[source])
  }

  ghost predicate SecretsOk(c: Settings, s: State) {
    && VersionsOk(s.versions, s.endpoints)
    && (forall id :: id in s.events ==> s.events[id].createdAt <= s.now)
    && (forall id :: id in s.deliveries ==> Signable(c, s.versions, s.events, s.deliveries[id]))
    && SourcesLinked(s.deliveries)
  }

  // ---- versions in a step ---------------------------------------------------------------

  /** Current versions never go back, and a version is retired once, by
      setting its end to one overlap from now. */
  ghost predicate VersionsMove(c: Settings, s: State, t: State) {
    && (forall ep :: ep in s.endpoints && ep in t.endpoints ==>
          s.endpoints[ep].secretVersion <= t.endpoints[ep].secretVersion)
    && (forall v :: v in s.versions && v in t.versions ==>
          || t.versions[v].retireAt == s.versions[v].retireAt
          || (s.versions[v].retireAt.None? && t.versions[v].retireAt == Some(s.now + c.secretOverlap)))
  }

  lemma AddedEndpointVersions(c: Settings, s: State, e: Endpoint)
    requires VersionsOk(s.versions, s.endpoints) && Numbered(s) && e.secretVersion == 1
    ensures var t := AddEndpoint(c, s, e); VersionsOk(t.versions, t.endpoints) && VersionsMove(c, s, t)
  {
    var t := AddEndpoint(c, s, e);
    assert t.versions == s.versions[(s.nextId, 1) := SecretVersion(s.now, None)];
    forall ep | ep in t.endpoints ensures EndpointVersions(t.versions, ep, t.endpoints[ep].secretVersion) {
      if ep != s.nextId {
        assert EndpointVersions(s.versions, ep, s.endpoints[ep].secretVersion);
        forall k: nat ensures (ep, k) in t.versions <==> (ep, k) in s.versions {}
      }
    }
  }

  /** Rotation retires the current version after the overlap and makes the next
      one current. */
  lemma RotationAdvances(c: Settings, s: State, ep: nat)
    requires VersionsOk(s.versions, s.endpoints) && ep in s.endpoints
    ensures var t := RotateSecret(c, s, ep);
            && VersionsOk(t.versions, t.endpoints) && VersionsMove(c, s, t)
            && t.endpoints[ep].secretVersion == s.endpoints[ep].secretVersion + 1
            && t.versions[(ep, s.endpoints[ep].secretVersion)].retireAt == Some(s.now + c.secretOverlap)
            && t.versions[(ep, t.endpoints[ep].secretVersion)] == SecretVersion(s.now, None)
  {
    var t := RotateSecret(c, s, ep);
    var v := s.endpoints[ep].secretVersion;
    assert EndpointVersions(s.versions, ep, v);
    assert (ep, v) in s.versions;
    forall e | e in t.endpoints ensures EndpointVersions(t.versions, e, t.endpoints[e].secretVersion) {
      assert EndpointVersions(s.versions, e, s.endpoints[e].secretVersion);
      forall k: nat ensures (e, k) in t.versions <==> (e, k) in s.versions || (e, k) == (ep, v + 1) {}
    }
  }

  lemma SetupVersions(c: Settings, s: State, step: Setup)
    requires VersionsOk(s.versions, s.endpoints) && Numbered(s)
    ensures var t := ApplySetup(c, s, step); VersionsOk(t.versions, t.endpoints) && VersionsMove(c, s, t)
  {
    var t := ApplySetup(c, s, step);
    match step
    case CreateOrganization(retention) => assert t.versions == s.versions && t.endpoints == s.endpoints;
    case CreateProject(org) => assert t.versions == s.versions && t.endpoints == s.endpoints;
    case CreateEndpoint(project, publicId, url, types, scheme) =>
      if project in s.projects {
        AddedEndpointVersions(c, s, Endpoint(project, publicId, url, true, types, 1, scheme));
      }
    case UpdateEndpoint(ep, url, active, types, scheme) =>
      EditKeepsVersions(s, ep, url, active, types, scheme);
      SameVersions(c, s, EditEndpoint(s, ep, url, active, types, scheme));
    case RotateEndpointSecret(ep) =>
      if ep in s.endpoints { RotationAdvances(c, s, ep); }
  }

  lemma SameVersions(c: Settings, s: State, t: State)
    requires VersionsOk(s.versions, s.endpoints) && t.versions == s.versions && t.endpoints.Keys == s.endpoints.Keys
    requires forall e :: e in t.endpoints ==> t.endpoints[e].secretVersion == s.endpoints[e].secretVersion
    ensures VersionsOk(t.versions, t.endpoints) && VersionsMove(c, s, t)
  {
    forall e | e in t.endpoints ensures EndpointVersions(t.versions, e, t.endpoints[e].secretVersion) {
      assert EndpointVersions(s.versions, e, s.endpoints[e].secretVersion);
    }
  }

  lemma EditKeepsVersions(s: State, ep: nat, url: string, active: bool, types: Filter, scheme: Scheme)
    ensures var t := EditEndpoint(s, ep, url, active, types, scheme);
            && t.versions == s.versions && t.endpoints.Keys == s.endpoints.Keys
            && forall e :: e in t.endpoints ==> t.endpoints[e].secretVersion == s.endpoints[e].secretVersion
  {
  }

  lemma DeletedVersions(c: Settings, s: State, org: nat)
    requires VersionsOk(s.versions, s.endpoints)
    ensures var t := DeleteOrganization(s, org); VersionsOk(t.versions, t.endpoints) && VersionsMove(c, s, t)
  {
    var t := DeleteOrganization(s, org);
    forall e | e in t.endpoints ensures EndpointVersions(t.versions, e, t.endpoints[e].secretVersion) {
      assert EndpointVersions(s.versions, e, s.endpoints[e].secretVersion);
      forall k: nat ensures (e, k) in t.versions <==> (e, k) in s.versions {}
    }
  }

  lemma UpkeepVersions(c: Settings, s: State, step: Upkeep)
    requires CanKeep(c, s, step) && VersionsOk(s.versions, s.endpoints)
    ensures var t := ApplyUpkeep(c, s, step); VersionsOk(t.versions, t.endpoints) && VersionsMove(c, s, t)
  {
    if step.CleanupRun? {
      CleanupVersions(c, s, step.op, step.batch);
    } else {
      QuietUpkeep(c, s, step);
    }
  }

  lemma CleanupVersions(c: Settings, s: State, op: nat, batch: set<nat>)
    requires DueOperation(s, op) && VersionsOk(s.versions, s.endpoints)
    ensures var t := Cleanup(s, op, batch); VersionsOk(t.versions, t.endpoints) && VersionsMove(c, s, t)
  {
    if StageOf(s, s.operations[op].org).DeletingOrganization? {
      DeletedVersions(c, MarkRunning(s, op), s.operations[op].org);
    } else {
      CleanupKeepsProjects(s, op, batch);
    }
  }

  lemma StepVersions(c: Settings, s: State, step: Step)
    requires ValidSettings(c) && Enabled(c, s, step) && VersionsOk(s.versions, s.endpoints) && Numbered(s)
    ensures var t := Apply(c, s, step); VersionsOk(t.versions, t.endpoints) && VersionsMove(c, s, t)
  {
    match step
    case Clock(_) =>
    case OnSetup(setup) => SetupVersions(c, s, setup);
    case OnIntake(intake) => IntakeFrame(c, s, intake);
    case OnWork(work) => WorkFrame(c, s, work);
    case OnOperator(operator) => OperatorFrame(c, s, operator);
    case OnUpkeep(upkeep) => UpkeepVersions(c, s, upkeep);
  }

  // ---- deliveries stay signable ------------------------------------------------------------

  lemma OldRowSignable(c: Settings, s: State, t: State, id: nat, claiming: bool)
    requires id in s.deliveries && id in t.deliveries
    requires Moves(c, s.now, s.deliveries[id], t.deliveries[id], claiming)
    requires Signable(c, s.versions, s.events, s.deliveries[id])
    requires RowRefs(s.projects, s.endpoints, s.events, s.deliveries[id])
    requires RowRefs(t.projects, t.endpoints, t.events, t.deliveries[id])
    requires VersionsOk(s.versions, s.endpoints) && VersionsOk(t.versions, t.endpoints) && VersionsMove(c, s, t)
    requires var e := s.deliveries[id].event;
             && SameEvent(s.events[e], t.events[e])
             && s.events[e].createdAt <= s.now
    ensures Signable(c, t.versions, t.events, t.deliveries[id])
  {
    var d := s.deliveries[id];
    assert SameIdentity(d, t.deliveries[id]);
    var v := (d.endpoint, d.snapshot.secretVersion);
    assert EndpointVersions(s.versions, d.endpoint, s.endpoints[d.endpoint].secretVersion);
    assert EndpointVersions(t.versions, d.endpoint, t.endpoints[d.endpoint].secretVersion);
    assert v in t.versions;
  }

  /** A row created by ingestion signs with the current, unretired version. */
  lemma AcceptedRowSignable(c: Settings, s: State, r: Request, tenant: Tenant, id: nat)
    requires r.project in s.projects && IdsBelow(s.deliveries, s.nextId) && VersionsOk(s.versions, s.endpoints)
    requires var t := Accept(s, r, tenant); id in t.deliveries && id !in s.deliveries
    ensures var t := Accept(s, r, tenant);
            Signable(c, t.versions, t.events, t.deliveries[id]) && t.deliveries[id].replayOf.None?
  {
    AcceptedRows(s, r, tenant);
    var i := id - s.nextId - 1;
    AcceptedRow(s, r, tenant, i);
    var ep := TargetList(s, r.project, r.eventType)[i];
    assert EndpointVersions(s.versions, ep, s.endpoints[ep].secretVersion);
    assert (ep, s.endpoints[ep].secretVersion) in s.versions;
  }

  /** A replay signs exactly like its source. */
  lemma CopiedRowSignable(c: Settings, s: State, sources: seq<nat>, org: nat, tenant: Tenant, id: nat)
    requires AllRows(s, sources) && IdsBelow(s.deliveries, s.nextId)
    requires forall x :: x in s.deliveries ==> Signable(c, s.versions, s.events, s.deliveries[x])
    requires var t := CopySources(s, sources, org, tenant); id in t.deliveries && id !in s.deliveries
    ensures var t := CopySources(s, sources, org, tenant);
            && Signable(c, t.versions, t.events, t.deliveries[id])
            && t.deliveries[id].replayOf.Some?
            && var source := t.deliveries[id].replayOf.value;
               source < id && source in s.deliveries && CopyOf(t.deliveries[id], s.deliveries[source])
  {
    ReplayedAt(s, sources, |sources|);
    var i := id - s.nextId;
    ReplayedRow(s, sources, |sources|, i);
    assert sources[i] in sources;
  }

  /** New rows are signable and linked to a row that exists. */
  ghost predicate NewRowsOk(c: Settings, s: State, t: State) {
    forall id :: id in t.deliveries && id !in s.deliveries ==>
      && Signable(c, t.versions, t.events, t.deliveries[id])
      && (t.deliveries[id].replayOf.Some? ==>
            var source := t.deliveries[id].replayOf.value;
            source < id && source in s.deliveries && CopyOf(t.deliveries[id], s.deliveries[source]))
  }

  lemma IntakeNewRows(c: Settings, s: State, step: Intake)
    requires ValidSettings(c) && SecretsOk(c, s) && IdsBelow(s.deliveries, s.nextId)
    ensures NewRowsOk(c, s, ApplyIntake(c, s, step))
  {
    var t := ApplyIntake(c, s, step);
    match step
    case IngestEvent(r) =>
      var tenant := IngestOutcome(c, s, r);
      if t != s {
        forall id | id in t.deliveries && id !in s.deliveries
          ensures Signable(c, t.versions, t.events, t.deliveries[id]) && t.deliveries[id].replayOf.None?
        {
          AcceptedRowSignable(c, s, r, tenant, id);
        }
      }
    case ReplayDeliveries(p, sources, dead) =>
      var tenant := ReplayOutcome(c, s, p, sources, dead);
      if t != s { CopiedNewRows(c, s, sources, s.projects[p], tenant); }
  }

  lemma CopiedNewRows(c: Settings, s: State, sources: seq<nat>, org: nat, tenant: Tenant)
    requires AllRows(s, sources) && IdsBelow(s.deliveries, s.nextId)
    requires forall x :: x in s.deliveries ==> Signable(c, s.versions, s.events, s.deliveries[x])
    ensures NewRowsOk(c, s, CopySources(s, sources, org, tenant))
  {
    var t := CopySources(s, sources, org, tenant);
    forall id | id in t.deliveries && id !in s.deliveries
      ensures Signable(c, t.versions, t.events, t.deliveries[id])
      ensures t.deliveries[id].replayOf.Some?
      ensures var source := t.deliveries[id].replayOf.value;
              source < id && source in s.deliveries && CopyOf(t.deliveries[id], s.deliveries[source])
    {
      CopiedRowSignable(c, s, sources, org, tenant, id);
    }
  }

  // ---- replay links ----------------------------------------------------------------------------

  lemma MoveKeepsLink(c: Settings, now: real, d: Delivery, e: Delivery, claiming: bool)
    requires Moves(c, now, d, e, claiming)
    ensures SameIdentity(d, e) && (e.replayOf == d.replayOf || e.replayOf.None?)
  {
  }

  /** Rows that stay in a table keep their links; deletion cuts them. */
  lemma LinksKept(c: Settings, s: State, t: State, claiming: bool)
    requires SourcesLinked(s.deliveries) && Steps(c, s, t, claiming) && NewRowsOk(c, s, t)
    requires s.deliveries.Keys <= t.deliveries.Keys
    ensures SourcesLinked(t.deliveries)
  {
    forall id | id in t.deliveries && t.deliveries[id].replayOf.Some?
      ensures var source := t.deliveries[id].replayOf.value;
              source < id && source in t.deliveries && CopyOf(t.deliveries[id], t.deliveries[source])
    {
      var source := t.deliveries[id].replayOf.value;
      if id in s.deliveries { MoveKeepsLink(c, s.now, s.deliveries[id], t.deliveries[id], claiming); }
      MoveKeepsLink(c, s.now, s.deliveries[source], t.deliveries[source], claiming);
    }
  }

  lemma LinksCut(s: State, t: State, gone: set<nat>)
    requires SourcesLinked(s.deliveries) && t.deliveries == DeleteDeliveries(s, gone).deliveries
    ensures SourcesLinked(t.deliveries)
  {
  }

  lemma LinksCanceled(s: State, t: State, batch: set<nat>)
    requires SourcesLinked(s.deliveries) && t.deliveries == CancelBatch(s, batch).deliveries
    ensures SourcesLinked(t.deliveries)
  {
  }

  lemma UpkeepLinks(c: Settings, s: State, step: Upkeep)
    requires CanKeep(c, s, step) && SourcesLinked(s.deliveries)
    ensures SourcesLinked(ApplyUpkeep(c, s, step).deliveries)
  {
    var t := ApplyUpkeep(c, s, step);
    match step
    case PurgeEventPayloads(batch) => assert t.deliveries == s.deliveries;
    case PurgeTerminalDeliveries(batch) => LinksCut(s, t, (set id | id in batch && Retired(c, s, id)));
    case RequestOrgDeletion(org) => assert t.deliveries == s.deliveries;
    case CancelOrgDeletion(org) => assert t.deliveries == s.deliveries;
    case CleanupRun(op, batch) =>
      StageLinks(MarkRunning(s, op), StageOf(s, s.operations[op].org), s.operations[op].org, batch);
  }

  lemma StageLinks(s: State, stage: Stage, org: nat, batch: set<nat>)
    requires SourcesLinked(s.deliveries)
    ensures SourcesLinked(RunStage(s, stage, org, batch).deliveries)
  {
    var t := RunStage(s, stage, org, batch);
    if stage.Canceling? {
      LinksCanceled(s, t, batch);
    } else if stage.DeletingDeliveries? {
      LinksCut(s, t, batch);
    } else {
      assert t.deliveries == s.deliveries;
    }
  }

  /** Only upkeep removes rows. */
  lemma RowsStay(c: Settings, s: State, step: Step)
    requires ValidSettings(c) && Enabled(c, s, step) && IdsBelow(s.deliveries, s.nextId) && !step.OnUpkeep?
    ensures s.deliveries.Keys <= Apply(c, s, step).deliveries.Keys
  {
    match step
    case Clock(_) =>
    case OnSetup(setup) => SetupFrame(c, s, setup);
    case OnIntake(intake) => IntakeStay(c, s, intake);
    case OnWork(work) => WorkStay(c, s, work);
    case OnOperator(operator) => OperatorStay(c, s, operator);
  }

  lemma IntakeStay(c: Settings, s: State, step: Intake)
    requires ValidSettings(c) && IdsBelow(s.deliveries, s.nextId)
    ensures s.deliveries.Keys <= ApplyIntake(c, s, step).deliveries.Keys
  {
    match step
    case IngestEvent(r) =>
      var tenant := IngestOutcome(c, s, r);
      if Ingest(c, s, r).1.Accepted? {
        AcceptedRows(s, r, tenant);
      }
    case ReplayDeliveries(p, sources, dead) =>
      var tenant := ReplayOutcome(c, s, p, sources, dead);
      if Replay(c, s, p, sources, dead) != s { ReplayedAt(s, sources, |sources|); }
  }

  lemma ClaimStays(c: Settings, s: State, limit: nat, ids: seq<nat>)
    requires ValidSettings(c) && AllRows(s, ids)
    ensures ClaimDue(c, s, limit, ids).deliveries.Keys == s.deliveries.Keys
  {
    if ClaimCommits(c, s, limit, ids) {
      LeaseStays(c, s, Chosen(c, s, limit, ids));
    } else {
      assert ClaimDue(c, s, limit, ids) == s;
    }
  }

  lemma LeaseStays(c: Settings, s: State, t: Sched)
    requires AllCanSend(s, t.selected)
    ensures Lease(c, s, t).deliveries.Keys == s.deliveries.Keys
  {
  }

  lemma RenewStays(c: Settings, s: State, k: Claim)
    ensures Renew(c, s, k).deliveries.Keys == s.deliveries.Keys
  {
    if HoldsLive(s, k) { UpdateKeys(s.deliveries, k.id, Renew(c, s, k).deliveries[k.id]); }
  }

  lemma ReleaseStays(s: State, k: Claim)
    ensures Release(s, k).deliveries.Keys == s.deliveries.Keys
  {
    if Holds(s, k) { UpdateKeys(s.deliveries, k.id, Release(s, k).deliveries[k.id]); }
  }

  lemma FinalizeStays(c: Settings, s: State, k: Claim, started: real, response: Response, jitter: real)
    ensures Finalize(c, s, k, started, response, jitter).deliveries.Keys == s.deliveries.Keys
  {
  }

  lemma WorkStay(c: Settings, s: State, step: Work)
    requires ValidSettings(c) && CanWork(c, s, step)
    ensures ApplyWork(c, s, step).deliveries.Keys == s.deliveries.Keys
  {
    match step
    case ClaimWork(limit, ids) => ClaimStays(c, s, limit, ids);
    case RenewLease(token) => RenewStays(c, s, s.issued[token]);
    case ReleaseClaim(token) => ReleaseStays(s, s.issued[token]);
    case FinishAttempt(token, started, response, jitter) =>
      FinalizeStays(c, s, s.issued[token], started, response, jitter);
  }

  lemma OperatorStay(c: Settings, s: State, step: Operator)
    ensures ApplyOperator(c, s, step).deliveries.Keys == s.deliveries.Keys
  {
    match step
    case CancelDelivery(id) => CancelKeepsIds(s, id);
    case PauseEndpoint(ep) => assert Pause(s, ep).deliveries == s.deliveries;
    case ResumeEndpoint(ep) => assert Resume(s, ep).deliveries == s.deliveries;
    case RecoverCircuit(ep) => assert Recover(c, s, ep).deliveries == s.deliveries;
  }

  lemma CancelKeepsIds(s: State, id: nat)
    ensures Cancel(s, id).deliveries.Keys == s.deliveries.Keys
  {
    if id in s.deliveries && Queued(s.deliveries[id].status) {
      UpdateKeys(s.deliveries, id, CanceledRow(s.deliveries[id], s.now));
    }
  }

  // ---- the invariant ------------------------------------------------------------------------------

  lemma StepNewRows(c: Settings, s: State, step: Step)
    requires ValidSettings(c) && Enabled(c, s, step) && SecretsOk(c, s) && IdsBelow(s.deliveries, s.nextId)
    ensures NewRowsOk(c, s, Apply(c, s, step))
  {
    if step.OnIntake? {
      IntakeNewRows(c, s, step.intake);
    } else {
      NoNewRows(c, s, step);
    }
  }

  lemma StepLinks(c: Settings, s: State, step: Step)
    requires ValidSettings(c) && Enabled(c, s, step) && SecretsOk(c, s) && IdsBelow(s.deliveries, s.nextId)
    ensures SourcesLinked(Apply(c, s, step).deliveries)
  {
    if step.OnUpkeep? {
      UpkeepLinks(c, s, step.upkeep);
    } else {
      StepNewRows(c, s, step);
      RowsStay(c, s, step);
      StepRows(c, s, step);
      LinksKept(c, s, Apply(c, s, step), IsClaim(step));
    }
  }

  lemma StepEventTimes(c: Settings, s: State, step: Step)
    requires ValidSettings(c) && Enabled(c, s, step)
    requires forall id :: id in s.events ==> s.events[id].createdAt <= s.now
    ensures forall id :: id in Apply(c, s, step).events ==> Apply(c, s, step).events[id].createdAt <= Apply(c, s, step).now
  {
    TimeMoves(c, s, step);
    if step.OnIntake? && step.intake.IngestEvent? {
      var tenant := IngestOutcome(c, s, step.intake.request);
    } else {
      StepEvents(c, s, step);
    }
  }

  /** The event of a surviving row is still the same event. */
  lemma RowEventKept(c: Settings, s: State, step: Step, e: nat)
    requires ValidSettings(c) && Enabled(c, s, step) && Numbered(s)
    requires e in s.events && e in Apply(c, s, step).events
    ensures SameEvent(s.events[e], Apply(c, s, step).events[e])
  {
    if step.OnIntake? && step.intake.IngestEvent? {
      var tenant := IngestOutcome(c, s, step.intake.request);
    } else {
      StepEvents(c, s, step);
    }
  }

  lemma OldRowFacts(c: Settings, s: State, step: Step, id: nat)
    requires ValidSettings(c) && Enabled(c, s, step) && Refs(s) && Leases(c, s)
    requires id in s.deliveries && id in Apply(c, s, step).deliveries
    ensures var t := Apply(c, s, step);
            && Moves(c, s.now, s.deliveries[id], t.deliveries[id], IsClaim(step))
            && RowRefs(s.projects, s.endpoints, s.events, s.deliveries[id])
            && RowRefs(t.projects, t.endpoints, t.events, t.deliveries[id])
            && SameEvent(s.events[s.deliveries[id].event], t.events[t.deliveries[id].event])
  {
    StepRows(c, s, step);
    StepKeepsRefs(c, s, step);
    var t := Apply(c, s, step);
    assert RowRefs(t.projects, t.endpoints, t.events, t.deliveries[id]);
    MoveKeepsLink(c, s.now, s.deliveries[id], t.deliveries[id], IsClaim(step));
    RowEventKept(c, s, step, s.deliveries[id].event);
  }

  lemma StepSignable(c: Settings, s: State, step: Step, id: nat)
    requires ValidSettings(c) && Enabled(c, s, step) && SecretsOk(c, s) && Refs(s) && Leases(c, s)
    requires id in Apply(c, s, step).deliveries
    ensures var t := Apply(c, s, step); Signable(c, t.versions, t.events, t.deliveries[id])
  {
    if id in s.deliveries {
      OldRowFacts(c, s, step, id);
      StepVersions(c, s, step);
      MoveKeepsLink(c, s.now, s.deliveries[id], Apply(c, s, step).deliveries[id], IsClaim(step));
      OldRowSignable(c, s, Apply(c, s, step), id, IsClaim(step));
    } else {
      StepNewRows(c, s, step);
    }
  }

  lemma StepKeepsSecrets(c: Settings, s: State, step: Step)
    requires ValidSettings(c) && Enabled(c, s, step) && SecretsOk(c, s) && Refs(s) && Leases(c, s)
    ensures SecretsOk(c, Apply(c, s, step))
  {
    var t := Apply(c, s, step);
    StepVersions(c, s, step);
    StepEventTimes(c, s, step);
    StepLinks(c, s, step);
    forall id | id in t.deliveries ensures Signable(c, t.versions, t.events, t.deliveries[id]) {
      StepSignable(c, s, step, id);
    }
  }

  // ---- replay chains ------------------------------------------------------------------

  /** The row at the start of a replay chain. */
  function Origin(ds: map<nat, Delivery>, id: nat): nat
    requires id in ds
  {
    if ds[id].replayOf.Some? && ds[id].replayOf.value < id && ds[id].replayOf.value in ds
    then Origin(ds, ds[id].replayOf.value) else id
  }

  /** Every delivery of a replay chain signs with the snapshot of its first
      row. */
  lemma {:induction false} ChainSharesSnapshot(ds: map<nat, Delivery>, id: nat)
    requires SourcesLinked(ds) && id in ds
    ensures Origin(ds, id) in ds && ds[Origin(ds, id)].replayOf.None? && CopyOf(ds[id], ds[Origin(ds, id)])
  {
    if ds[id].replayOf.Some? { ChainSharesSnapshot(ds, ds[id].replayOf.value); }
  }
}
