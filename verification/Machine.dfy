/** The platform as a state machine: any transaction, by anyone, in any order,
    with time that never goes back. */
module Machine {
  import opened Base
  import opened Types
  import opened RetryPolicy
  import opened Scheduler
  import opened Platform
  import opened Admission
  import opened Lifecycle

  /** Tenants and endpoints come and change. */
  datatype Setup =
    | CreateOrganization(retention: real)
    | CreateProject(org: nat)
    | CreateEndpoint(project: nat, publicId: string, url: string, eventTypes: Filter, scheme: Scheme)
    | UpdateEndpoint(ep: nat, newUrl: string, active: bool, newTypes: Filter, newScheme: Scheme)
    | RotateEndpointSecret(ep: nat)

  /** Work enters the queue. */
  datatype Intake =
    | IngestEvent(request: Request)
    | ReplayDeliveries(project: nat, sources: seq<nat>, deadOnly: bool)

  /** Workers hold leases. */
  datatype Work =
    | ClaimWork(limit: nat, candidates: seq<nat>)
    | RenewLease(token: nat)
    | ReleaseClaim(token: nat)
    | FinishAttempt(token: nat, started: real, response: Response, jitter: real)

  /** Operators act on deliveries and endpoints. */
  datatype Operator =
    | CancelDelivery(id: nat)
    | PauseEndpoint(ep: nat)
    | ResumeEndpoint(ep: nat)
    | RecoverCircuit(ep: nat)

  /** Retention and deletion. */
  datatype Upkeep =
    | PurgeEventPayloads(batch: set<nat>)
    | PurgeTerminalDeliveries(batch: set<nat>)
    | RequestOrgDeletion(org: nat)
    | CancelOrgDeletion(org: nat)
    | CleanupRun(op: nat, batch: set<nat>)

  datatype Step =
    | Clock(to: real)
    | OnSetup(setup: Setup)
    | OnIntake(intake: Intake)
    | OnWork(work: Work)
    | OnOperator(operator: Operator)
    | OnUpkeep(upkeep: Upkeep)

  function AddEndpoint(c: Settings, s: State, e: Endpoint): State {
    s.(endpoints := s.endpoints[s.nextId := e],
       runtime := s.runtime[s.nextId := FreshRuntime(c, s.now)],
       versions := s.versions[(s.nextId, 1) := SecretVersion(s.now, None)],
       nextId := s.nextId + 1)
  }

  function AddOrganization(s: State, retention: real): State {
    s.(orgs := s.orgs[s.nextId := Organization(Active, retention)], nextId := s.nextId + 1)
  }

  function AddProject(s: State, org: nat): State {
    if org !in s.orgs then s else s.(projects := s.projects[s.nextId := org], nextId := s.nextId + 1)
  }

  function Edited(e: Endpoint, url: string, active: bool, types: Filter, scheme: Scheme): Endpoint {
    e.(url := url, active := active, eventTypes := types, scheme := scheme)
  }

  function EditEndpoint(s: State, ep: nat, url: string, active: bool, types: Filter, scheme: Scheme): State {
    if ep !in s.endpoints then s
    else s.(endpoints := s.endpoints[ep := Edited(s.endpoints[ep], url, active, types, scheme)])
  }

  function ApplySetup(c: Settings, s: State, step: Setup): State {
    match step
    case CreateOrganization(retention) => AddOrganization(s, retention)
    case CreateProject(org) => AddProject(s, org)
    case CreateEndpoint(project, publicId, url, types, scheme) =>
      if project !in s.projects then s
      else AddEndpoint(c, s, Endpoint(project, publicId, url, true, types, 1, scheme))
    case UpdateEndpoint(ep, url, active, types, scheme) => EditEndpoint(s, ep, url, active, types, scheme)
    case RotateEndpointSecret(ep) => RotateSecret(c, s, ep)
  }

  function ApplyIntake(c: Settings, s: State, step: Intake): State
    requires ValidSettings(c)
  {
    match step
    case IngestEvent(r) => Ingest(c, s, r).0
    case ReplayDeliveries(project, sources, deadOnly) => Replay(c, s, project, sources, deadOnly)
  }

  /** Candidates are distinct due rows; workers use claims they were given; the
      jitter of an attempt is within the backoff ceiling. Its start is read from
      the worker's clock and may be any time. */
  predicate CanWork(c: Settings, s: State, step: Work)
    requires ValidSettings(c)
  {
    match step
    case ClaimWork(limit, ids) =>
      Distinct(ids) && AllRows(s, ids) && forall id :: id in ids ==> Due(s.deliveries[id], s.now)
    case RenewLease(token) => token in s.issued
    case ReleaseClaim(token) => token in s.issued
    case FinishAttempt(token, _, _, jitter) =>
      && token in s.issued
      && 0.0 <= jitter <= BackoffCeiling(s.issued[token].attemptNumber, c.backoffBase, c.backoffCap)
  }

  function ApplyWork(c: Settings, s: State, step: Work): State
    requires ValidSettings(c) && CanWork(c, s, step)
  {
    match step
    case ClaimWork(limit, ids) => ClaimDue(c, s, limit, ids)
    case RenewLease(token) => Renew(c, s, s.issued[token])
    case ReleaseClaim(token) => Release(s, s.issued[token])
    case FinishAttempt(token, started, response, jitter) =>
      Finalize(c, s, s.issued[token], started, response, jitter)
  }

  function ApplyOperator(c: Settings, s: State, step: Operator): State {
    match step
    case CancelDelivery(id) => Cancel(s, id)
    case PauseEndpoint(ep) => Pause(s, ep)
    case ResumeEndpoint(ep) => Resume(s, ep)
    case RecoverCircuit(ep) => Recover(c, s, ep)
  }

  /** A cleanup run takes a due operation and a full batch. */
  predicate CanKeep(c: Settings, s: State, step: Upkeep) {
    step.CleanupRun? ==> DueOperation(s, step.op) && GoodBatch(c, s, s.operations[step.op].org, step.batch)
  }

  function ApplyUpkeep(c: Settings, s: State, step: Upkeep): State
    requires CanKeep(c, s, step)
  {
    match step
    case PurgeEventPayloads(batch) => PurgePayloads(s, batch)
    case PurgeTerminalDeliveries(batch) => PurgeDeliveries(c, s, batch)
    case RequestOrgDeletion(org) => RequestDeletion(c, s, org)
    case CancelOrgDeletion(org) => CancelDeletion(s, org)
    case CleanupRun(op, batch) => Cleanup(s, op, batch)
  }

  predicate Enabled(c: Settings, s: State, step: Step)
    requires ValidSettings(c)
  {
    match step
    case Clock(to) => to >= s.now
    case OnWork(work) => CanWork(c, s, work)
    case OnUpkeep(upkeep) => CanKeep(c, s, upkeep)
    case _ => true
  }

  function Apply(c: Settings, s: State, step: Step): State
    requires ValidSettings(c) && Enabled(c, s, step)
  {
    match step
    case Clock(to) => s.(now := to)
    case OnSetup(setup) => ApplySetup(c, s, setup)
    case OnIntake(intake) => ApplyIntake(c, s, intake)
    case OnWork(work) => ApplyWork(c, s, work)
    case OnOperator(operator) => ApplyOperator(c, s, operator)
    case OnUpkeep(upkeep) => ApplyUpkeep(c, s, upkeep)
  }

  /** Every step of a run is enabled where it is taken. */
  predicate IsRun(c: Settings, s: State, steps: seq<Step>)
    requires ValidSettings(c)
    decreases |steps|
  {
    steps == [] || (Enabled(c, s, steps[0]) && IsRun(c, Apply(c, s, steps[0]), steps[1..]))
  }

  function After(c: Settings, s: State, steps: seq<Step>): State
    requires ValidSettings(c) && IsRun(c, s, steps)
    decreases |steps|
  {
    if steps == [] then s else After(c, Apply(c, s, steps[0]), steps[1..])
  }

  // ---- what each kind of step leaves alone ------------------------------------------

  lemma ClaimFrame(c: Settings, s: State, limit: nat, ids: seq<nat>)
    requires ValidSettings(c) && AllRows(s, ids)
    ensures var t := ClaimDue(c, s, limit, ids);
            t == s.(deliveries := t.deliveries, runtime := t.runtime, tenants := t.tenants,
                    cursor := t.cursor, issued := t.issued, nextToken := t.nextToken)
  {
    if ClaimCommits(c, s, limit, ids) {
      LeaseFrame(c, s, Chosen(c, s, limit, ids));
    } else {
      assert ClaimDue(c, s, limit, ids) == s;
    }
  }

  lemma LeaseFrame(c: Settings, s: State, t: Sched)
    requires AllCanSend(s, t.selected)
    ensures var u := Lease(c, s, t);
            u == s.(deliveries := u.deliveries, runtime := u.runtime, tenants := u.tenants,
                    cursor := u.cursor, issued := u.issued, nextToken := u.nextToken)
  {
  }

  lemma RowFrame(c: Settings, s: State, k: Claim)
    ensures Renew(c, s, k) == s.(deliveries := Renew(c, s, k).deliveries)
    ensures Release(s, k) == s.(deliveries := Release(s, k).deliveries)
  {
  }

  lemma FinalizeFrame(c: Settings, s: State, k: Claim, started: real, response: Response, jitter: real)
    ensures var t := Finalize(c, s, k, started, response, jitter);
            t == s.(deliveries := t.deliveries, runtime := t.runtime) && t.runtime.Keys == s.runtime.Keys
  {
  }

  lemma WorkFrame(c: Settings, s: State, step: Work)
    requires ValidSettings(c) && CanWork(c, s, step)
    ensures var t := ApplyWork(c, s, step);
            && t == s.(deliveries := t.deliveries, runtime := t.runtime, tenants := t.tenants,
                       cursor := t.cursor, issued := t.issued, nextToken := t.nextToken)
            && (!step.ClaimWork? ==> t == s.(deliveries := t.deliveries, runtime := t.runtime))
            && (!step.ClaimWork? ==> t.runtime.Keys == s.runtime.Keys)
  {
    match step
    case ClaimWork(limit, ids) => ClaimFrame(c, s, limit, ids);
    case RenewLease(token) => RowFrame(c, s, s.issued[token]);
    case ReleaseClaim(token) => RowFrame(c, s, s.issued[token]);
    case FinishAttempt(token, started, response, jitter) =>
      FinalizeFrame(c, s, s.issued[token], started, response, jitter);
  }

  ghost predicate OnlyRowsAndCircuits(s: State, t: State) {
    t == s.(deliveries := t.deliveries, runtime := t.runtime) && t.runtime.Keys == s.runtime.Keys
  }

  lemma CancelFrame(s: State, id: nat)
    ensures OnlyRowsAndCircuits(s, Cancel(s, id))
  {
  }

  /** Changing one endpoint row, or nothing. */
  lemma CircuitFrame(s: State, t: State, ep: nat)
    requires t == s || (ep in s.runtime && ep in t.runtime && t == s.(runtime := s.runtime[ep := t.runtime[ep]]))
    ensures OnlyRowsAndCircuits(s, t)
  {
  }

  lemma OperatorFrame(c: Settings, s: State, step: Operator)
    ensures var t := ApplyOperator(c, s, step);
            t == s.(deliveries := t.deliveries, runtime := t.runtime) && t.runtime.Keys == s.runtime.Keys
  {
    match step
    case CancelDelivery(id) => CancelFrame(s, id);
    case PauseEndpoint(ep) => CircuitFrame(s, Pause(s, ep), ep);
    case ResumeEndpoint(ep) => CircuitFrame(s, Resume(s, ep), ep);
    case RecoverCircuit(ep) => CircuitFrame(s, Recover(c, s, ep), ep);
  }

  lemma IntakeFrame(c: Settings, s: State, step: Intake)
    requires ValidSettings(c)
    ensures var t := ApplyIntake(c, s, step);
            && t == s.(deliveries := t.deliveries, events := t.events, tenants := t.tenants, nextId := t.nextId)
            && s.nextId <= t.nextId
  {
    match step
    case IngestEvent(r) => var _ := IngestOutcome(c, s, r);
    case ReplayDeliveries(project, sources, deadOnly) =>
      var _ := ReplayOutcome(c, s, project, sources, deadOnly);
  }

  ghost predicate OnlyDirectory(s: State, t: State) {
    && t == s.(orgs := t.orgs, projects := t.projects, endpoints := t.endpoints,
               runtime := t.runtime, versions := t.versions, nextId := t.nextId)
    && s.nextId <= t.nextId
  }

  lemma AddFrame(c: Settings, s: State, e: Endpoint)
    ensures OnlyDirectory(s, AddEndpoint(c, s, e))
  {
  }

  lemma EditFrame(s: State, ep: nat, url: string, active: bool, types: Filter, scheme: Scheme)
    ensures OnlyDirectory(s, EditEndpoint(s, ep, url, active, types, scheme))
  {
  }

  lemma RotateFrame(c: Settings, s: State, ep: nat)
    ensures OnlyDirectory(s, RotateSecret(c, s, ep))
  {
  }

  lemma SetupFrame(c: Settings, s: State, step: Setup)
    ensures var t := ApplySetup(c, s, step);
            && t == s.(orgs := t.orgs, projects := t.projects, endpoints := t.endpoints,
                       runtime := t.runtime, versions := t.versions, nextId := t.nextId)
            && s.nextId <= t.nextId
  {
    match step
    case CreateOrganization(retention) => assert OnlyDirectory(s, AddOrganization(s, retention));
    case CreateProject(org) => assert OnlyDirectory(s, AddProject(s, org));
    case CreateEndpoint(project, publicId, url, types, scheme) =>
      AddFrame(c, s, Endpoint(project, publicId, url, true, types, 1, scheme));
    case UpdateEndpoint(ep, url, active, types, scheme) =>
      EditFrame(s, ep, url, active, types, scheme);
    case RotateEndpointSecret(ep) => RotateFrame(c, s, ep);
  }

  /** Nothing leaves the directory of tenants, projects, endpoints and secrets. */
  ghost predicate DirectoryStays(s: State, t: State) {
    && t.projects == s.projects && t.endpoints == s.endpoints && t.versions == s.versions
    && t.tenants == s.tenants && t.orgs.Keys == s.orgs.Keys
  }

  lemma PurgeStays(s: State, batch: set<nat>)
    ensures DirectoryStays(s, PurgePayloads(s, batch))
  {
  }

  lemma DeleteStays(s: State, gone: set<nat>)
    ensures DirectoryStays(s, DeleteDeliveries(s, gone))
  {
  }

  lemma RequestStays(c: Settings, s: State, org: nat)
    ensures DirectoryStays(s, RequestDeletion(c, s, org))
  {
    if RequestDeletion(c, s, org) != s {
      UpdateKeys(s.orgs, org, s.orgs[org].(lifecycle := DeletionPending));
    }
  }

  lemma CancelStays(s: State, org: nat)
    ensures DirectoryStays(s, CancelDeletion(s, org))
  {
    if CancelDeletion(s, org) != s {
      UpdateKeys(s.orgs, org, s.orgs[org].(lifecycle := Active));
    }
  }

  /** Only a cleanup run touches the directory. */
  lemma QuietUpkeep(c: Settings, s: State, step: Upkeep)
    requires !step.CleanupRun?
    ensures DirectoryStays(s, ApplyUpkeep(c, s, step))
  {
    match step
    case PurgeEventPayloads(batch) => PurgeStays(s, batch);
    case PurgeTerminalDeliveries(batch) => DeleteStays(s, set id | id in batch && Retired(c, s, id));
    case RequestOrgDeletion(org) => RequestStays(c, s, org);
    case CancelOrgDeletion(org) => CancelStays(s, org);
  }

  lemma UpkeepFrame(c: Settings, s: State, step: Upkeep)
    requires CanKeep(c, s, step)
    ensures var t := ApplyUpkeep(c, s, step);
            && t.now == s.now && t.issued == s.issued && t.nextToken == s.nextToken && t.cursor == s.cursor
            && s.nextId <= t.nextId
  {
    match step
    case PurgeEventPayloads(batch) =>
    case PurgeTerminalDeliveries(batch) =>
    case RequestOrgDeletion(org) =>
    case CancelOrgDeletion(org) =>
    case CleanupRun(op, batch) => CleanupFrame(s, op, batch);
  }

  /** Only the clock moves time, and only forward. */
  lemma TimeMoves(c: Settings, s: State, step: Step)
    requires ValidSettings(c) && Enabled(c, s, step)
    ensures s.now <= Apply(c, s, step).now
    ensures !step.Clock? ==> Apply(c, s, step).now == s.now
  {
    match step
    case Clock(_) =>
    case OnSetup(setup) => SetupFrame(c, s, setup);
    case OnIntake(intake) => IntakeFrame(c, s, intake);
    case OnWork(work) => WorkFrame(c, s, work);
    case OnOperator(operator) => OperatorFrame(c, s, operator);
    case OnUpkeep(upkeep) => UpkeepFrame(c, s, upkeep);
  }
}
