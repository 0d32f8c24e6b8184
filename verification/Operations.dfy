/** What replays, operator actions, retention and deletion requests mean, written
    out field by field. */
module Operations {
  import opened Base
  import opened Types
  import opened TokenBucket
  import opened Platform
  import opened Admission
  import opened Lifecycle

  // ---- cancel --------------------------------------------------------------------------

  /** Exactly a pending or scheduled delivery is canceled; a canceled probe opens
      its circuit, with the next probe allowed at once. Nothing else changes. */
  lemma CancelMeans(s: State, id: nat)
    ensures var t := Cancel(s, id);
            if id in s.deliveries && (s.deliveries[id].status == Pending || s.deliveries[id].status == RetryScheduled) then
              var d, ep := s.deliveries[id], s.deliveries[id].endpoint;
              && t.deliveries == s.deliveries[id := d.(status := Canceled, nextAttemptAt := s.now, updatedAt := s.now)]
              && (if ep in s.runtime && s.runtime[ep].probe == Some(id)
                  then t.runtime == s.runtime[ep := s.runtime[ep].(circuit := Open, openUntil := Some(s.now), probe := None)]
                  else t.runtime == s.runtime)
              && t == s.(deliveries := t.deliveries, runtime := t.runtime)
            else
              t == s
  {
  }

  // ---- replay ----------------------------------------------------------------------------

  /** A source that can be replayed in a project: its payload and envelope are
      still there, its signing version exists and has not retired, and a bulk
      replay takes dead deliveries only. */
  predicate CanReplay(s: State, project: nat, deadOnly: bool, id: nat) {
    && id in s.deliveries && s.deliveries[id].event in s.events
    && var d := s.deliveries[id];
       var ev, v := s.events[d.event], (d.endpoint, d.snapshot.secretVersion);
       && ev.project == project && ev.payload.Some? && ev.envelope.Some? && ev.purgedAt.None?
       && v in s.versions && (s.versions[v].retireAt.Some? ==> s.now < s.versions[v].retireAt.value)
       && (deadOnly ==> d.status == Dead)
  }

  /** A fresh delivery that repeats its source. */
  predicate Repeats(d: Delivery, source: nat, original: Delivery, now: real) {
    && d.org == original.org && d.event == original.event && d.endpoint == original.endpoint
    && d.snapshot == original.snapshot && d.replayOf == Some(source)
    && d.status.Pending? && d.attemptCount == 0 && d.attempts == [] && d.deadReason.None?
    && d.leaseToken.None? && d.leaseExpiresAt.None?
    && d.nextAttemptAt == now && d.createdAt == now && d.updatedAt == now
  }

  /** Every source has one new row, in order, and old rows stay. */
  ghost predicate CopiedInto(s: State, t: State, sources: seq<nat>) {
    && t.nextId == s.nextId + |sources|
    && (forall id :: id in t.deliveries <==> id in s.deliveries || s.nextId <= id < s.nextId + |sources|)
    && (forall id :: id in s.deliveries ==> t.deliveries[id] == s.deliveries[id])
    && (forall i {:trigger sources[i]} :: 0 <= i < |sources| ==>
          && s.nextId + i in t.deliveries && sources[i] in s.deliveries
          && Repeats(t.deliveries[s.nextId + i], sources[i], s.deliveries[sources[i]], s.now))
    && t == s.(tenants := t.tenants, deliveries := t.deliveries, nextId := t.nextId)
  }

  ghost predicate AllCanReplay(s: State, project: nat, deadOnly: bool, sources: seq<nat>) {
    Distinct(sources) && forall id :: id in sources ==> CanReplay(s, project, deadOnly, id)
  }

  lemma SourcesIff(s: State, project: nat, deadOnly: bool, sources: seq<nat>)
    ensures AllSources(s, project, deadOnly, sources) <==> AllCanReplay(s, project, deadOnly, sources)
  {
    forall id | id in sources ensures IsSource(s, project, deadOnly, id) <==> CanReplay(s, project, deadOnly, id) {}
  }

  /** A replay happens exactly when the project exists, every source can be
      replayed, none is named twice, and admission allows it; then every source
      gets one new delivery, and no other row changes. Otherwise nothing does. */
  lemma ReplayMeans(c: Settings, s: State, project: nat, sources: seq<nat>, deadOnly: bool)
    requires ValidSettings(c) && IdsBelow(s.deliveries, s.nextId)
    ensures if && project in s.projects && AllCanReplay(s, project, deadOnly, sources)
               && AdmitReplays(c, s, s.projects[project], |sources|).Admitted?
            then CopiedInto(s, Replay(c, s, project, sources, deadOnly), sources)
            else Replay(c, s, project, sources, deadOnly) == s
  {
    SourcesIff(s, project, deadOnly, sources);
    if && project in s.projects && AllCanReplay(s, project, deadOnly, sources)
       && AdmitReplays(c, s, s.projects[project], |sources|).Admitted?
    {
      CopiesRepeat(s, sources, s.projects[project], AdmitReplays(c, s, s.projects[project], |sources|).tenant);
    }
  }

  lemma CopiesRepeat(s: State, sources: seq<nat>, org: nat, tenant: Tenant)
    requires AllRows(s, sources) && IdsBelow(s.deliveries, s.nextId)
    ensures CopiedInto(s, CopySources(s, sources, org, tenant), sources)
  {
    ReplayedAt(s, sources, |sources|);
    forall i | 0 <= i < |sources|
      ensures s.nextId + i in Replayed(s, sources, |sources|) && sources[i] in s.deliveries
      ensures Repeats(Replayed(s, sources, |sources|)[s.nextId + i], sources[i], s.deliveries[sources[i]], s.now)
    {
      ReplayedRow(s, sources, |sources|, i);
    }
  }

  // ---- retention ------------------------------------------------------------------------------

  /** The event has something to purge, nothing open still needs it, and its
      organization's retention is over. */
  ghost predicate PayloadOver(s: State, id: nat) {
    && id in s.events
    && var ev := s.events[id];
       && ev.purgedAt.None? && (ev.payload.Some? || ev.envelope.Some?)
       && (forall x :: x in s.deliveries && s.deliveries[x].event == id ==>
             s.deliveries[x].status == Succeeded || s.deliveries[x].status == Dead || s.deliveries[x].status == Canceled)
       && ev.project in s.projects && s.projects[ev.project] in s.orgs
       && ev.createdAt + s.orgs[s.projects[ev.project]].payloadRetention <= s.now
  }

  /** A purge takes payload and envelope from exactly those events of its batch,
      and changes nothing else. */
  lemma PayloadPurge(s: State, batch: set<nat>, id: nat)
    requires id in s.events
    ensures var t := PurgePayloads(s, batch);
            && t == s.(events := t.events) && id in t.events && t.events.Keys == s.events.Keys
            && t.events[id] == (if id in batch && PayloadOver(s, id)
                                then s.events[id].(payload := None, envelope := None, purgedAt := Some(s.now))
                                else s.events[id])
  {
  }

  /** A row is deleted exactly if it is in the batch, terminal and unchanged for
      the retention time; what referred to it no longer does. */
  lemma RowPurge(c: Settings, s: State, batch: set<nat>, id: nat)
    requires id in s.deliveries
    ensures var t := PurgeDeliveries(c, s, batch);
            var d := s.deliveries[id];
            && (id !in t.deliveries <==>
                  && id in batch && (d.status == Succeeded || d.status == Dead || d.status == Canceled)
                  && d.updatedAt + c.deliveryRetention <= s.now)
            && (id in t.deliveries ==>
                  t.deliveries[id] == d.(replayOf := if d.replayOf.Some? && d.replayOf.value in s.deliveries
                                                        && d.replayOf.value !in t.deliveries
                                                     then None else d.replayOf))
  {
  }

  /** A deleted row stops being a probe; nothing else of an endpoint changes. */
  lemma ProbesPurged(c: Settings, s: State, batch: set<nat>, ep: nat)
    requires ep in s.runtime
    ensures var t := PurgeDeliveries(c, s, batch);
            && ep in t.runtime
            && (var gone := s.runtime[ep].probe.Some? && s.runtime[ep].probe.value in s.deliveries
                            && s.runtime[ep].probe.value !in t.deliveries;
                t.runtime[ep] == s.runtime[ep].(probe := if gone then None else s.runtime[ep].probe))
  {
  }

  // ---- deletion requests --------------------------------------------------------------------------

  /** A request schedules a deletion after the grace period exactly if none is
      pending or running. */
  lemma RequestMeans(c: Settings, s: State, org: nat)
    ensures var t := RequestDeletion(c, s, org);
            if && org in s.orgs
               && (forall op :: op in s.operations && s.operations[op].org == org ==>
                     s.operations[op].status == OpCompleted || s.operations[op].status == OpCanceled)
            then
              && t.operations == s.operations[s.nextId := Operation(org, OpPending, s.now + c.deletionGrace, s.now)]
              && t.orgs == s.orgs[org := s.orgs[org].(lifecycle := DeletionPending)]
              && t == s.(operations := t.operations, orgs := t.orgs, nextId := s.nextId + 1)
            else
              t == s
  {
    ActiveIff(s, org);
  }

  lemma ActiveIff(s: State, org: nat)
    ensures ActiveOperations(s, org) == {} <==>
              forall op :: op in s.operations && s.operations[op].org == org ==>
                s.operations[op].status == OpCompleted || s.operations[op].status == OpCanceled
  {
    forall op | op in s.operations && s.operations[op].org == org
      ensures op in ActiveOperations(s, org) <==>
                !(s.operations[op].status == OpCompleted || s.operations[op].status == OpCanceled)
    {}
  }

  /** Until cleanup begins, canceling takes a request back: the organization is
      active again and nothing is scheduled for it. */
  lemma CancelTakesBack(c: Settings, s: State, org: nat, later: real)
    requires org in s.orgs && (forall op :: op in s.operations ==> op < s.nextId)
    requires forall op :: op in s.operations && s.operations[op].org == org ==>
               s.operations[op].status == OpCompleted || s.operations[op].status == OpCanceled
    ensures var t := CancelDeletion(RequestDeletion(c, s, org).(now := later), org);
            && t.orgs == s.orgs[org := s.orgs[org].(lifecycle := Active)]
            && forall op :: op in t.operations && t.operations[op].org == org ==>
                 t.operations[op].status == OpCompleted || t.operations[op].status == OpCanceled
  {
    RequestMeans(c, s, org);
    var r := RequestDeletion(c, s, org).(now := later);
    assert s.nextId in ActiveOperations(r, org);
    forall op | op in ActiveOperations(r, org) ensures op == s.nextId {}
  }

  // ---- cleanup, stage by stage --------------------------------------------------------------------

  /** Queued, or processing without a lease that lasts. */
  predicate OpenUnheld(d: Delivery, now: real) {
    || d.status == Pending || d.status == RetryScheduled
    || (d.status == Processing && (d.leaseExpiresAt.None? || d.leaseExpiresAt.value <= now))
  }

  predicate HeldRow(d: Delivery, now: real) {
    d.status == Processing && d.leaseExpiresAt.Some? && now < d.leaseExpiresAt.value
  }

  ghost predicate SomeUnheld(s: State, org: nat) {
    exists id :: id in s.deliveries && s.deliveries[id].org == org && OpenUnheld(s.deliveries[id], s.now)
  }

  ghost predicate SomeHeld(s: State, org: nat) {
    exists id :: id in s.deliveries && s.deliveries[id].org == org && HeldRow(s.deliveries[id], s.now)
  }

  ghost predicate SomeDelivery(s: State, org: nat) { exists id :: id in s.deliveries && s.deliveries[id].org == org }

  /** An event of one of the organization's projects. */
  predicate OwnEvent(s: State, org: nat, e: nat) {
    e in s.events && s.events[e].project in s.projects && s.projects[s.events[e].project] == org
  }

  ghost predicate SomeOrphan(s: State, org: nat) {
    exists e :: OwnEvent(s, org, e) && forall id :: id in s.deliveries ==> s.deliveries[id].event != e
  }

  ghost predicate SomeEvent(s: State, org: nat) { exists e :: OwnEvent(s, org, e) }

  lemma StageMeans(s: State, org: nat)
    ensures StageOf(s, org).Canceling? <==> SomeUnheld(s, org)
    ensures StageOf(s, org).Waiting? <==> !SomeUnheld(s, org) && SomeHeld(s, org)
    ensures StageOf(s, org).DeletingDeliveries? <==>
              !SomeUnheld(s, org) && !SomeHeld(s, org) && SomeDelivery(s, org)
    ensures StageOf(s, org).DeletingEvents? <==> !SomeDelivery(s, org) && SomeOrphan(s, org)
    ensures StageOf(s, org).DeletingOrganization? <==> !SomeDelivery(s, org) && !SomeEvent(s, org)
  {
    UnheldIff(s, org);
    HeldIff(s, org);
    OrphanIff(s, org);
    assert SomeDelivery(s, org) <==> DeliveriesOf(s, org) != {} by {
      if SomeDelivery(s, org) {
        var id :| id in s.deliveries && s.deliveries[id].org == org;
        assert id in DeliveriesOf(s, org);
      }
    }
  }

  lemma UnheldIff(s: State, org: nat)
    ensures SomeUnheld(s, org) <==> Cancellable(s, org) != {}
  {
    if SomeUnheld(s, org) {
      var id :| id in s.deliveries && s.deliveries[id].org == org && OpenUnheld(s.deliveries[id], s.now);
      assert id in Cancellable(s, org);
    }
    if Cancellable(s, org) != {} {
      var id :| id in Cancellable(s, org);
      assert OpenUnheld(s.deliveries[id], s.now);
    }
  }

  lemma HeldIff(s: State, org: nat)
    ensures SomeHeld(s, org) <==> LiveOfOrg(s, org) != {}
  {
    if SomeHeld(s, org) {
      var id :| id in s.deliveries && s.deliveries[id].org == org && HeldRow(s.deliveries[id], s.now);
      assert id in LiveOfOrg(s, org);
    }
    if LiveOfOrg(s, org) != {} {
      var id :| id in LiveOfOrg(s, org);
      assert HeldRow(s.deliveries[id], s.now);
    }
  }

  lemma OrphanIff(s: State, org: nat)
    ensures SomeOrphan(s, org) <==> Orphans(s, org) != {}
    ensures SomeEvent(s, org) <==> EventsOf(s, org) != {}
  {
    if SomeOrphan(s, org) {
      var e :| OwnEvent(s, org, e) && forall id :: id in s.deliveries ==> s.deliveries[id].event != e;
      assert e in Orphans(s, org);
    }
    if Orphans(s, org) != {} {
      var e :| e in Orphans(s, org);
      assert OwnEvent(s, org, e);
    }
    if SomeEvent(s, org) {
      var e :| OwnEvent(s, org, e);
      assert e in EventsOf(s, org);
    }
    if EventsOf(s, org) != {} {
      var e :| e in EventsOf(s, org);
      assert OwnEvent(s, org, e);
    }
  }

  /** While open work is not held by a lease, a run cancels the batch and changes
      nothing else; while the rest is held, it changes nothing. */
  lemma CleanupCancels(s: State, op: nat, batch: set<nat>)
    requires DueOperation(s, op)
    ensures var t, org := Cleanup(s, op, batch), s.operations[op].org;
            var running := s.(operations := s.operations[op := s.operations[op].(status := OpRunning)]);
            && (SomeUnheld(s, org) ==>
                  t == running.(deliveries := map id | id in s.deliveries ::
                      if id in batch
                    then s.deliveries[id].(status := Canceled, leaseToken := None, leaseExpiresAt := None, updatedAt := s.now)
                    else s.deliveries[id]))
            && (!SomeUnheld(s, org) && SomeHeld(s, org) ==> t == running)
  {
    var org := s.operations[op].org;
    StageMeans(s, org);
    var s1 := MarkRunning(s, op);
    if SomeUnheld(s, org) {
      assert Cleanup(s, op, batch) == CancelBatch(s1, batch);
      assert CancelBatch(s1, batch).deliveries == map id | id in s.deliveries ::
          if id in batch
        then s.deliveries[id].(status := Canceled, leaseToken := None, leaseExpiresAt := None, updatedAt := s.now)
        else s.deliveries[id];
    }
  }

  /** When no work is open, a run deletes the batch of deliveries. */
  lemma CleanupDeletesRows(s: State, op: nat, batch: set<nat>)
    requires DueOperation(s, op)
    requires var org := s.operations[op].org; !SomeUnheld(s, org) && !SomeHeld(s, org) && SomeDelivery(s, org)
    ensures var t := Cleanup(s, op, batch);
            && t.deliveries.Keys == s.deliveries.Keys - batch && t.events == s.events && t.orgs == s.orgs
            && (forall ep :: ep in s.runtime ==> ep in t.runtime && t.runtime[ep].circuit == s.runtime[ep].circuit)
            && (forall ep :: ep in t.runtime && t.runtime[ep].probe.Some? ==> t.runtime[ep].probe.value !in batch)
  {
    StageMeans(s, s.operations[op].org);
    assert Cleanup(s, op, batch) == DeleteDeliveries(MarkRunning(s, op), batch);
  }

  /** When no delivery is left, a run deletes the batch of events. */
  lemma CleanupDeletesEvents(s: State, op: nat, batch: set<nat>)
    requires DueOperation(s, op)
    requires var org := s.operations[op].org; !SomeDelivery(s, org) && SomeOrphan(s, org)
    ensures var t := Cleanup(s, op, batch);
            t.events == s.events - batch && t.deliveries == s.deliveries && t.orgs == s.orgs
  {
    StageMeans(s, s.operations[op].org);
    var t := DeleteEvents(MarkRunning(s, op), batch);
    assert Cleanup(s, op, batch) == t && t.events == s.events - batch;
  }

  /** An organization without deliveries and events goes, with its projects, their
      endpoints, secrets and quota row; everything of the others stays. */
  lemma OrganizationGoes(s: State, op: nat, batch: set<nat>)
    requires DueOperation(s, op) && !SomeDelivery(s, s.operations[op].org) && !SomeEvent(s, s.operations[op].org)
    ensures var t, org := Cleanup(s, op, batch), s.operations[op].org;
            && t.orgs == s.orgs - {org} && t.tenants == s.tenants - {org}
            && t.deliveries == s.deliveries && t.events == s.events
            && (forall p :: p in t.projects <==> p in s.projects && s.projects[p] != org)
            && (forall p :: p in t.projects ==> t.projects[p] == s.projects[p])
            && (forall e :: e in t.endpoints <==>
                  e in s.endpoints && s.endpoints[e].project in s.projects && s.projects[s.endpoints[e].project] != org)
            && (forall e :: e in t.endpoints ==> t.endpoints[e] == s.endpoints[e])
            && (forall e :: e in t.runtime <==> e in s.runtime && e in t.endpoints)
            && (forall e :: e in t.runtime ==> t.runtime[e] == s.runtime[e])
            && (forall v :: v in t.versions <==> v in s.versions && v.0 in t.endpoints)
            && (forall v :: v in t.versions ==> t.versions[v] == s.versions[v])
  {
    var org := s.operations[op].org;
    StageMeans(s, org);
    var s1 := MarkRunning(s, op);
    var t := DeleteOrganization(s1, org);
    assert Cleanup(s, op, batch) == t;
    assert t.orgs == s.orgs - {org} && t.tenants == s.tenants - {org};
  }
}
