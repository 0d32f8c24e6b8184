/** What any step may do to the delivery table: the allowed moves of a row,
    fresh rows, and deletion of terminal rows only. */
module Rows {
  import opened Base
  import opened Types
  import opened Scheduler
  import opened Platform
  import opened Admission
  import opened Lifecycle
  import opened Machine
  import opened Claims

  /** What a row captured when it was created never changes. */
  predicate SameIdentity(d: Delivery, e: Delivery) {
    && e.org == d.org && e.event == d.event && e.endpoint == d.endpoint
    && e.snapshot == d.snapshot && e.createdAt == d.createdAt
  }

  predicate Stays(d: Delivery, e: Delivery) {
    e == d || e == d.(replayOf := None)
  }

  predicate GetsLease(c: Settings, now: real, d: Delivery, e: Delivery) {
    Due(d, now) && e.leaseToken.Some? && e == ClaimedRow(c, d, now, e.leaseToken.value)
  }

  predicate KeepsLease(c: Settings, now: real, d: Delivery, e: Delivery) {
    Live(d, now) && e == d.(leaseExpiresAt := Some(now + c.leaseSeconds), updatedAt := now)
  }

  predicate GivesUp(now: real, d: Delivery, e: Delivery) {
    && d.status.Processing?
    && e == d.(status := RetryScheduled, nextAttemptAt := now,
               leaseToken := None, leaseExpiresAt := None, updatedAt := now)
  }

  predicate Finishes(now: real, d: Delivery, e: Delivery) {
    && Live(d, now)
    && (e.status.Succeeded? || e.status.RetryScheduled? || e.status.Dead?)
    && e == d.(status := e.status, nextAttemptAt := e.nextAttemptAt, deadReason := e.deadReason,
               leaseToken := None, leaseExpiresAt := None, updatedAt := now, attempts := e.attempts)
    && |e.attempts| == |d.attempts| + 1 && d.attempts <= e.attempts
  }

  predicate IsCanceled(now: real, d: Delivery, e: Delivery) {
    || (Queued(d.status) && e == CanceledRow(d, now))
    || (!Terminal(d.status) && !Live(d, now) && e == CanceledByCleanup(d, now))
  }

  /** The moves a row can make in one step; only a claim gives out leases. */
  predicate Moves(c: Settings, now: real, d: Delivery, e: Delivery, claiming: bool) {
    || Stays(d, e)
    || (claiming && GetsLease(c, now, d, e))
    || KeepsLease(c, now, d, e)
    || GivesUp(now, d, e)
    || Finishes(now, d, e)
    || IsCanceled(now, d, e)
  }

  /** Rows present before and after make an allowed move, new rows are fresh
      with new ids, and vanished rows were terminal. */
  ghost predicate TableStep(
    c: Settings, now: real, ds: map<nat, Delivery>, n: nat, es: map<nat, Delivery>, m: nat, claiming: bool)
  {
    && n <= m
    && (forall id :: id in es && id in ds ==> Moves(c, now, ds[id], es[id], claiming))
    && (forall id :: id in es && id !in ds ==> n <= id < m && FreshRow(es[id], now))
    && (forall id :: id in ds && id !in es ==> Terminal(ds[id].status))
  }

  ghost predicate Steps(c: Settings, s: State, t: State, claiming: bool) {
    TableStep(c, s.now, s.deliveries, s.nextId, t.deliveries, t.nextId, claiming)
  }

  lemma OneMove(c: Settings, s: State, t: State, id: nat)
    requires id in s.deliveries && id in t.deliveries && t.nextId == s.nextId
    requires t.deliveries == s.deliveries[id := t.deliveries[id]]
    requires Moves(c, s.now, s.deliveries[id], t.deliveries[id], false)
    ensures Steps(c, s, t, false)
  {
  }

  lemma AddedRows(c: Settings, s: State, t: State, lo: nat)
    requires s.nextId <= lo <= t.nextId
    requires RowsAdded(s.deliveries, t.deliveries, lo, t.nextId, s.now)
    ensures Steps(c, s, t, false)
  {
  }

  lemma SetupRows(c: Settings, s: State, step: Setup)
    ensures Steps(c, s, ApplySetup(c, s, step), false)
  {
  }

  lemma IngestRows(c: Settings, s: State, r: Request)
    requires ValidSettings(c) && IdsBelow(s.deliveries, s.nextId)
    ensures Steps(c, s, Ingest(c, s, r).0, false)
  {
    var tenant := IngestOutcome(c, s, r);
    if Ingest(c, s, r).1.Accepted? { AcceptRows(c, s, r, tenant); }
  }

  lemma AcceptRows(c: Settings, s: State, r: Request, tenant: Tenant)
    requires r.project in s.projects && IdsBelow(s.deliveries, s.nextId)
    ensures Steps(c, s, Accept(s, r, tenant), false)
  {
    AcceptedRows(s, r, tenant);
    AddedRows(c, s, Accept(s, r, tenant), s.nextId + 1);
  }

  lemma ReplayRows(c: Settings, s: State, project: nat, sources: seq<nat>, deadOnly: bool)
    requires ValidSettings(c) && IdsBelow(s.deliveries, s.nextId)
    ensures Steps(c, s, Replay(c, s, project, sources, deadOnly), false)
  {
    var tenant := ReplayOutcome(c, s, project, sources, deadOnly);
    if Replay(c, s, project, sources, deadOnly) != s { CopyRows(c, s, sources, s.projects[project], tenant); }
  }

  lemma CopyRows(c: Settings, s: State, sources: seq<nat>, org: nat, tenant: Tenant)
    requires AllRows(s, sources) && IdsBelow(s.deliveries, s.nextId)
    ensures Steps(c, s, CopySources(s, sources, org, tenant), false)
  {
    ReplayedAt(s, sources, |sources|);
    AddedRows(c, s, CopySources(s, sources, org, tenant), s.nextId);
  }

  lemma ClaimRows(c: Settings, s: State, limit: nat, ids: seq<nat>)
    requires ValidSettings(c) && CanWork(c, s, ClaimWork(limit, ids))
    ensures Steps(c, s, ClaimDue(c, s, limit, ids), true)
  {
    if ClaimCommits(c, s, limit, ids) {
      ChosenRows(c, s, limit, ids);
      LeaseRows(c, s, ids, Chosen(c, s, limit, ids));
    }
  }

  lemma LeaseRows(c: Settings, s: State, ids: seq<nat>, t: Sched)
    requires AllRows(s, ids) && SelectedRows(s, ids, t.selected) && AllCanSend(s, t.selected)
    requires forall id :: id in ids ==> Due(s.deliveries[id], s.now)
    ensures Steps(c, s, Lease(c, s, t), true)
  {
    var es := ClaimedRows(c, s, t.selected, |t.selected|);
    forall id | id in s.deliveries ensures Moves(c, s.now, s.deliveries[id], es[id], true) {
      ClaimedRowsAt(c, s, ids, t.selected, |t.selected|, id);
      if i :| 0 <= i < |t.selected| && SelectedAt(t.selected, i, id) {
        assert t.selected[i] in t.selected;
      }
    }
  }

  lemma RenewRows(c: Settings, s: State, k: Claim)
    ensures Steps(c, s, Renew(c, s, k), false)
  {
    if HoldsLive(s, k) { OneMove(c, s, Renew(c, s, k), k.id); }
  }

  lemma ReleaseRows(c: Settings, s: State, k: Claim)
    ensures Steps(c, s, Release(s, k), false)
  {
    if Holds(s, k) { OneMove(c, s, Release(s, k), k.id); }
  }

  lemma FinalizeRows(c: Settings, s: State, k: Claim, started: real, resp: Response, jitter: real)
    ensures Steps(c, s, Finalize(c, s, k, started, resp, jitter), false)
  {
    if HoldsLive(s, k) && s.deliveries[k.id].endpoint in s.runtime {
      var t := Finalize(c, s, k, started, resp, jitter);
      assert Finishes(s.now, s.deliveries[k.id], t.deliveries[k.id]);
      OneMove(c, s, t, k.id);
    }
  }

  lemma CancelRows(c: Settings, s: State, id: nat)
    ensures Steps(c, s, Cancel(s, id), false)
  {
    if id in s.deliveries && Queued(s.deliveries[id].status) {
      OneMove(c, s, Cancel(s, id), id);
    }
  }

  lemma UpkeepRows(c: Settings, s: State, step: Upkeep)
    requires CanKeep(c, s, step)
    ensures Steps(c, s, ApplyUpkeep(c, s, step), false)
  {
    if step.CleanupRun? { CleanupRows(c, s, step.op, step.batch); }
  }

  lemma BatchCanceled(c: Settings, s: State, org: nat, t: State)
    requires t.nextId == s.nextId && t.deliveries.Keys == s.deliveries.Keys
    requires forall id :: id in s.deliveries ==>
               || t.deliveries[id] == s.deliveries[id]
               || (id in Cancellable(s, org) && t.deliveries[id] == CanceledByCleanup(s.deliveries[id], s.now))
    ensures Steps(c, s, t, false)
  {
  }

  lemma BatchDeleted(c: Settings, s: State, t: State, gone: set<nat>)
    requires t.nextId == s.nextId && t.deliveries == DeleteDeliveries(s, gone).deliveries
    requires forall id :: id in gone && id in s.deliveries ==> Terminal(s.deliveries[id].status)
    ensures Steps(c, s, t, false)
  {
  }

  lemma SameRows(c: Settings, s: State, t: State)
    requires t.deliveries == s.deliveries && t.nextId == s.nextId
    ensures Steps(c, s, t, false)
  {
  }

  lemma QuietRows(c: Settings, s: State, op: nat, batch: set<nat>)
    requires DueOperation(s, op)
    requires var stage := StageOf(s, s.operations[op].org); !stage.Canceling? && !stage.DeletingDeliveries?
    ensures Steps(c, s, Cleanup(s, op, batch), false)
  {
    QuietCleanup(s, op, batch);
    SameRows(c, s, Cleanup(s, op, batch));
  }

  /** Cleanup deletes deliveries only once none of the organization is open. */
  lemma CleanupRows(c: Settings, s: State, op: nat, batch: set<nat>)
    requires DueOperation(s, op) && batch <= CleanupTargets(s, s.operations[op].org)
    ensures Steps(c, s, Cleanup(s, op, batch), false)
  {
    var stage := StageOf(s, s.operations[op].org);
    if stage.Canceling? {
      CancelingRows(c, s, op, batch);
    } else if stage.DeletingDeliveries? {
      DeletionRows(c, s, op, batch);
    } else {
      QuietRows(c, s, op, batch);
    }
  }

  lemma CancelingRows(c: Settings, s: State, op: nat, batch: set<nat>)
    requires DueOperation(s, op) && batch <= Cancellable(s, s.operations[op].org)
    requires StageOf(s, s.operations[op].org).Canceling?
    ensures Steps(c, s, Cleanup(s, op, batch), false)
  {
    BatchCanceled(c, s, s.operations[op].org, Cleanup(s, op, batch));
  }

  lemma DeletionRows(c: Settings, s: State, op: nat, batch: set<nat>)
    requires DueOperation(s, op) && batch <= DeliveriesOf(s, s.operations[op].org)
    requires StageOf(s, s.operations[op].org).DeletingDeliveries?
    ensures Steps(c, s, Cleanup(s, op, batch), false)
  {
    NoneOpen(s, s.operations[op].org);
    BatchDeleted(c, s, Cleanup(s, op, batch), batch);
  }

  lemma NoneOpen(s: State, org: nat)
    requires Cancellable(s, org) == {} && LiveOfOrg(s, org) == {}
    ensures forall id :: id in DeliveriesOf(s, org) ==> Terminal(s.deliveries[id].status)
  {
    forall id | id in DeliveriesOf(s, org) ensures Terminal(s.deliveries[id].status) {
      assert id !in Cancellable(s, org) && id !in LiveOfOrg(s, org);
    }
  }

  lemma IntakeRows(c: Settings, s: State, step: Intake)
    requires ValidSettings(c) && IdsBelow(s.deliveries, s.nextId)
    ensures Steps(c, s, ApplyIntake(c, s, step), false)
  {
    match step
    case IngestEvent(r) => IngestRows(c, s, r);
    case ReplayDeliveries(p, sources, dead) => ReplayRows(c, s, p, sources, dead);
  }

  lemma WorkRows(c: Settings, s: State, step: Work)
    requires ValidSettings(c) && CanWork(c, s, step)
    ensures Steps(c, s, ApplyWork(c, s, step), step.ClaimWork?)
  {
    match step
    case ClaimWork(limit, ids) => ClaimRows(c, s, limit, ids);
    case RenewLease(token) => RenewRows(c, s, s.issued[token]);
    case ReleaseClaim(token) => ReleaseRows(c, s, s.issued[token]);
    case FinishAttempt(token, started, resp, jitter) =>
      FinalizeRows(c, s, s.issued[token], started, resp, jitter);
  }

  lemma OperatorRows(c: Settings, s: State, step: Operator)
    ensures Steps(c, s, ApplyOperator(c, s, step), false)
  {
    match step
    case CancelDelivery(id) => CancelRows(c, s, id);
    case PauseEndpoint(ep) => SameRows(c, s, Pause(s, ep));
    case ResumeEndpoint(ep) => SameRows(c, s, Resume(s, ep));
    case RecoverCircuit(ep) => SameRows(c, s, Recover(c, s, ep));
  }

  predicate IsClaim(step: Step) { step.OnWork? && step.work.ClaimWork? }

  /** Every step of the machine. */
  lemma StepRows(c: Settings, s: State, step: Step)
    requires ValidSettings(c) && Enabled(c, s, step) && IdsBelow(s.deliveries, s.nextId)
    ensures Steps(c, s, Apply(c, s, step), IsClaim(step))
  {
    match step
    case Clock(_) =>
    case OnSetup(setup) => SetupRows(c, s, setup);
    case OnIntake(intake) => IntakeRows(c, s, intake);
    case OnWork(work) => WorkRows(c, s, work);
    case OnOperator(operator) => OperatorRows(c, s, operator);
    case OnUpkeep(upkeep) => UpkeepRows(c, s, upkeep);
  }
}
