/** Retention and staged organization deletion: `app/lifecycle.py` and the
    deletion requests of `app/services/webhook_service.py`. */
module Lifecycle {
  import opened Base
  import opened Types
  import opened Platform

  // ---- payload retention ---------------------------------------------------------

  predicate HasOpenDelivery(s: State, event: nat) {
    exists id :: id in s.deliveries && s.deliveries[id].event == event && !Terminal(s.deliveries[id].status)
  }

  predicate Expired(s: State, ev: Event) {
    && ev.project in s.projects && s.projects[ev.project] in s.orgs
    && ev.createdAt <= s.now - s.orgs[s.projects[ev.project]].payloadRetention
  }

  predicate Purgeable(s: State, id: nat) {
    && id in s.events
    && s.events[id].purgedAt.None? && (s.events[id].payload.Some? || s.events[id].envelope.Some?)
    && !HasOpenDelivery(s, id)
    && Expired(s, s.events[id])
  }

  function PurgedEvent(ev: Event, now: real): Event {
    ev.(payload := None, envelope := None, purgedAt := Some(now))
  }

  /** Drop payload and envelope of the purgeable events of a batch. */
  function PurgePayloads(s: State, batch: set<nat>): State {
    s.(events := map id | id in s.events ::
         if id in batch && Purgeable(s, id) then PurgedEvent(s.events[id], s.now) else s.events[id])
  }

  // ---- deleting delivery rows ------------------------------------------------------

  function Unlinked(d: Delivery, gone: set<nat>): Delivery {
    if d.replayOf.Some? && d.replayOf.value in gone then d.(replayOf := None) else d
  }

  function Unprobed(e: Runtime, gone: set<nat>): Runtime {
    if e.probe.Some? && e.probe.value in gone then e.(probe := None) else e
  }

  /** Delete delivery rows; references to them become null. */
  function DeleteDeliveries(s: State, gone: set<nat>): State {
    s.(deliveries := map id | id in s.deliveries && id !in gone :: Unlinked(s.deliveries[id], gone),
       runtime := map e | e in s.runtime :: Unprobed(s.runtime[e], gone))
  }

  predicate Retired(c: Settings, s: State, id: nat) {
    && id in s.deliveries
    && Terminal(s.deliveries[id].status) && s.deliveries[id].updatedAt <= s.now - c.deliveryRetention
  }

  /** The owner's retention purge of a batch of old terminal deliveries. */
  function PurgeDeliveries(c: Settings, s: State, batch: set<nat>): State {
    DeleteDeliveries(s, set id | id in batch && Retired(c, s, id))
  }

  // ---- deletion requests --------------------------------------------------------------

  predicate ActiveOperation(s: State, op: nat, org: nat) {
    && op in s.operations && s.operations[op].org == org
    && (s.operations[op].status.OpPending? || s.operations[op].status.OpRunning?)
  }

  function ActiveOperations(s: State, org: nat): set<nat> {
    set op | op in s.operations && ActiveOperation(s, op, org)
  }

  function RequestDeletion(c: Settings, s: State, org: nat): State {
    if org !in s.orgs || ActiveOperations(s, org) != {} then s
    else
      s.(operations := s.operations[s.nextId := Operation(org, OpPending, s.now + c.deletionGrace, s.now)],
         orgs := s.orgs[org := s.orgs[org].(lifecycle := DeletionPending)],
         nextId := s.nextId + 1)
  }

  function CancelDeletion(s: State, org: nat): State {
    if org !in s.orgs || ActiveOperations(s, org) == {} then s
    else
      var op := Least(ActiveOperations(s, org));
      if s.operations[op].status.OpRunning? then s
      else
        s.(operations := s.operations[op := s.operations[op].(status := OpCanceled)],
           orgs := s.orgs[org := s.orgs[org].(lifecycle := Active)])
  }

  // ---- staged cleanup -------------------------------------------------------------------

  /** The operation that a cleanup run may pick up now. */
  predicate DueOperation(s: State, op: nat) {
    && op in s.operations
    && ActiveOperation(s, op, s.operations[op].org)
    && s.operations[op].scheduledAt <= s.now
    && s.operations[op].org in s.orgs
    && s.orgs[s.operations[op].org].lifecycle.DeletionPending?
  }

  function DeliveriesOf(s: State, org: nat): set<nat> {
    set id | id in s.deliveries && s.deliveries[id].org == org
  }

  /** Queued, or processing with a lease that is missing or over. */
  function Cancellable(s: State, org: nat): set<nat> {
    set id | id in s.deliveries && s.deliveries[id].org == org
             && !Terminal(s.deliveries[id].status) && !Live(s.deliveries[id], s.now)
  }

  function EventsOf(s: State, org: nat): set<nat> {
    set id | id in s.events && InOrg(s, s.events[id], org)
  }

  predicate HasDelivery(s: State, event: nat) {
    exists id :: id in s.deliveries && s.deliveries[id].event == event
  }

  function Orphans(s: State, org: nat): set<nat> {
    set id | id in s.events && InOrg(s, s.events[id], org) && !HasDelivery(s, id)
  }

  function CanceledByCleanup(d: Delivery, now: real): Delivery {
    d.(status := Canceled, leaseToken := None, leaseExpiresAt := None, updatedAt := now)
  }

  function CancelBatch(s: State, batch: set<nat>): State {
    s.(deliveries := map id | id in s.deliveries ::
         if id in batch then CanceledByCleanup(s.deliveries[id], s.now) else s.deliveries[id])
  }

  function DeleteEvents(s: State, batch: set<nat>): State {
    s.(events := map id | id in s.events && id !in batch :: s.events[id])
  }

  /** Delete an organization with everything that cascades from it. */
  function DeleteOrganization(s: State, org: nat): State {
    var projects := map p | p in s.projects && s.projects[p] != org :: s.projects[p];
    var endpoints := map e | e in s.endpoints && s.endpoints[e].project in projects :: s.endpoints[e];
    s.(orgs := map o | o in s.orgs && o != org :: s.orgs[o],
       projects := projects, endpoints := endpoints,
       runtime := map e | e in s.runtime && e in endpoints :: s.runtime[e],
       versions := map v | v in s.versions && v.0 in endpoints :: s.versions[v],
       tenants := map o | o in s.tenants && o != org :: s.tenants[o],
       operations := map op | op in s.operations && s.operations[op].org != org :: s.operations[op])
  }

  datatype Stage = Canceling | Waiting | DeletingDeliveries | DeletingEvents | Stuck | DeletingOrganization

  /** Cancel what is not leased, else wait for live leases, else delete
      deliveries, else orphan events, else the organization. */
  function StageOf(s: State, org: nat): Stage {
    if Cancellable(s, org) != {} then Canceling
    else if LiveOfOrg(s, org) != {} then Waiting
    else if DeliveriesOf(s, org) != {} then DeletingDeliveries
    else if Orphans(s, org) != {} then DeletingEvents
    else if EventsOf(s, org) != {} then Stuck
    else DeletingOrganization
  }

  /** The rows a run may work on. */
  function CleanupTargets(s: State, org: nat): set<nat> {
    match StageOf(s, org)
    case Canceling => Cancellable(s, org)
    case DeletingDeliveries => DeliveriesOf(s, org)
    case DeletingEvents => Orphans(s, org)
    case _ => {}
  }

  /** A batch of the current targets, as large as the batch size allows. */
  predicate GoodBatch(c: Settings, s: State, org: nat, batch: set<nat>) {
    && batch <= CleanupTargets(s, org)
    && |batch| == MinInt(c.cleanupBatch, |CleanupTargets(s, org)|)
  }

  function MarkRunning(s: State, op: nat): State
    requires op in s.operations
  {
    s.(operations := s.operations[op := s.operations[op].(status := OpRunning)])
  }

  function RunStage(s: State, stage: Stage, org: nat, batch: set<nat>): State {
    match stage
    case Canceling => CancelBatch(s, batch)
    case Waiting => s
    case DeletingDeliveries => DeleteDeliveries(s, batch)
    case DeletingEvents => DeleteEvents(s, batch)
    case Stuck => s
    case DeletingOrganization => DeleteOrganization(s, org)
  }

  /** One cleanup run of a due operation. */
  function Cleanup(s: State, op: nat, batch: set<nat>): State
    requires DueOperation(s, op)
  {
    RunStage(MarkRunning(s, op), StageOf(s, s.operations[op].org), s.operations[op].org, batch)
  }

  lemma CleanupFrame(s: State, op: nat, batch: set<nat>)
    requires DueOperation(s, op)
    ensures var t := Cleanup(s, op, batch);
            && t.now == s.now && t.issued == s.issued && t.nextToken == s.nextToken && t.cursor == s.cursor
            && t.nextId == s.nextId
  {
    var s1 := MarkRunning(s, op);
    var stage := StageOf(s, s.operations[op].org);
    if stage.Canceling? {
      assert Cleanup(s, op, batch) == CancelBatch(s1, batch);
    } else if stage.DeletingDeliveries? {
      assert Cleanup(s, op, batch) == DeleteDeliveries(s1, batch);
    } else if stage.DeletingEvents? {
      assert Cleanup(s, op, batch) == DeleteEvents(s1, batch);
    } else if stage.DeletingOrganization? {
      assert Cleanup(s, op, batch) == DeleteOrganization(s1, s.operations[op].org);
    } else {
      assert Cleanup(s, op, batch) == s1;
    }
  }

  /** Outside the two delivery stages a run leaves the delivery table alone. */
  lemma QuietCleanup(s: State, op: nat, batch: set<nat>)
    requires DueOperation(s, op)
    requires var stage := StageOf(s, s.operations[op].org); !stage.Canceling? && !stage.DeletingDeliveries?
    ensures Cleanup(s, op, batch).deliveries == s.deliveries
    ensures Cleanup(s, op, batch).nextId == s.nextId && Cleanup(s, op, batch).now == s.now
    ensures Cleanup(s, op, batch).issued == s.issued && Cleanup(s, op, batch).nextToken == s.nextToken
  {
    var s1 := MarkRunning(s, op);
    var stage := StageOf(s, s.operations[op].org);
    if stage.DeletingEvents? {
      assert Cleanup(s, op, batch) == DeleteEvents(s1, batch);
    } else if stage.DeletingOrganization? {
      assert Cleanup(s, op, batch) == DeleteOrganization(s1, s.operations[op].org);
    } else {
      assert Cleanup(s, op, batch) == s1;
    }
  }

  /** Only the last stage touches projects, endpoints and secrets. */
  lemma CleanupKeepsProjects(s: State, op: nat, batch: set<nat>)
    requires DueOperation(s, op) && !StageOf(s, s.operations[op].org).DeletingOrganization?
    ensures var t := Cleanup(s, op, batch);
            t.projects == s.projects && t.orgs == s.orgs && t.endpoints == s.endpoints && t.versions == s.versions
  {
    var stage := StageOf(s, s.operations[op].org);
    StageKeepsProjects(MarkRunning(s, op), stage, s.operations[op].org, batch);
  }

  lemma StageKeepsProjects(s: State, stage: Stage, org: nat, batch: set<nat>)
    requires !stage.DeletingOrganization?
    ensures var t := RunStage(s, stage, org, batch);
            t.projects == s.projects && t.orgs == s.orgs && t.endpoints == s.endpoints && t.versions == s.versions
  {
  }
}
