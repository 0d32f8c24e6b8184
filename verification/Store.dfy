/** The services in their own form: a database object whose transactions read
    and write the tables step by step, each proved to be the transaction of the
    state machine. */
module Store {
  import opened Base
  import opened Types
  import opened TokenBucket
  import opened Scheduler
  import opened Platform
  import opened Admission
  import opened Lifecycle
  import opened Claims
  import opened FairSelector

  class Database {
    var now: real
    var orgs: map<nat, Organization>
    var projects: map<nat, nat>
    var endpoints: map<nat, Endpoint>
    var runtime: map<nat, Runtime>
    var versions: map<(nat, nat), SecretVersion>
    var tenants: map<nat, Tenant>
    var cursor: Option<nat>
    var events: map<nat, Event>
    var deliveries: map<nat, Delivery>
    var operations: map<nat, Operation>
    var issued: map<nat, Claim>
    var nextId: nat
    var nextToken: nat

    function View(): State
      reads this
    {
      State(now, orgs, projects, endpoints, runtime, versions, tenants, cursor, events, deliveries,
            operations, issued, nextId, nextToken)
    }

    constructor ()
      ensures View() == EMPTY
    {
      now := 0.0;
      orgs, projects, endpoints, runtime, versions := map[], map[], map[], map[], map[];
      tenants, cursor, events, deliveries, operations := map[], None, map[], map[], map[];
      issued, nextId, nextToken := map[], 0, 0;
    }

    // ---- delivery service ---------------------------------------------------------------

    method RenewLease(c: Settings, k: Claim) returns (renewed: bool)
      modifies this`deliveries
      ensures View() == Renew(c, old(View()), k) && renewed == HoldsLive(old(View()), k)
    {
      renewed := false;
      if k.id in deliveries {
        var d := deliveries[k.id];
        if d.status.Processing? && d.leaseToken == Some(k.token)
           && d.leaseExpiresAt.Some? && d.leaseExpiresAt.value > now
        {
          d := d.(leaseExpiresAt := Some(now + c.leaseSeconds));
          d := d.(updatedAt := now);
          deliveries := deliveries[k.id := d];
          renewed := true;
        }
      }
    }

    method ReleaseClaim(k: Claim) returns (released: bool)
      modifies this`deliveries
      ensures View() == Release(old(View()), k) && released == Holds(old(View()), k)
    {
      released := false;
      if k.id in deliveries {
        var d := deliveries[k.id];
        if d.status.Processing? && d.leaseToken == Some(k.token) {
          d := d.(status := RetryScheduled, nextAttemptAt := now);
          d := d.(leaseToken := None, leaseExpiresAt := None);
          d := d.(updatedAt := now);
          deliveries := deliveries[k.id := d];
          released := true;
        }
      }
    }

    /** The endpoint's half of a finished attempt. */
    method SettleEndpoint(c: Settings, ep: nat, id: nat, r: AttemptResult)
      requires ep in runtime
      modifies this`runtime
      ensures runtime == old(runtime)[ep := FinalizedRuntime(c, old(runtime)[ep], id, r, now)]
    {
      var e := runtime[ep];
      var isProbe := e.probe == Some(id);
      if r.succeeded {
        e := e.(retryTokens := MinReal(c.retryBurst as real, e.retryTokens + c.retrySuccessRefill as real));
        e := e.(retryRefilledAt := now);
        e := e.(circuit := Closed, failures := 0, openUntil := None, probe := None);
      } else if r.retryable {
        e := e.(failures := e.failures + 1);
        if isProbe || (e.circuit.Closed? && e.failures >= c.circuitThreshold) {
          e := e.(circuit := Open, openUntil := Some(now + c.circuitOpenSeconds), probe := None);
        }
      } else if isProbe && r.error == Some("max_delivery_age") {
        e := e.(circuit := Open, openUntil := Some(now), probe := None);
      } else if isProbe || r.error != Some("max_delivery_age") {
        e := e.(circuit := Closed, failures := 0, openUntil := None, probe := None);
      }
      runtime := runtime[ep := e];
    }

    /** The delivery's half of a finished attempt. */
    method SettleDelivery(c: Settings, k: Claim, r: AttemptResult, started: real, jitter: real)
      requires k.id in deliveries
      modifies this`deliveries
      ensures deliveries == old(deliveries)[k.id := FinalizedRow(c, old(deliveries)[k.id], k, r, now, started, jitter)]
    {
      var d := deliveries[k.id];
      var deadline := d.createdAt + c.maxAge;
      var ageExpired := now >= deadline;
      var outcome := Dead;
      if r.succeeded {
        outcome := Succeeded;
        d := d.(status := Succeeded, nextAttemptAt := now, deadReason := None);
      } else if r.retryable && k.attemptNumber < c.maxAttempts && !ageExpired {
        var delay := MaxReal(jitter, if r.retryAfter.Some? then r.retryAfter.value else 0.0);
        if now + delay < deadline {
          outcome := RetryScheduled;
          d := d.(status := RetryScheduled, nextAttemptAt := now + delay, deadReason := None);
        } else {
          d := d.(status := Dead, nextAttemptAt := now, deadReason := Some("max_delivery_age"));
        }
      } else {
        var reason := "non_retryable_failure";
        if ageExpired || r.error == Some("max_delivery_age") {
          reason := "max_delivery_age";
        } else if r.retryable && k.attemptNumber >= c.maxAttempts {
          reason := "max_attempts";
        } else if r.status.Some? && 400 <= r.status.value < 500 {
          reason := "non_retryable_http";
        } else if r.error.Some? && r.error.value != "" {
          reason := r.error.value;
        }
        assert |reason| <= 64 ==> reason[..|reason|] == reason;
        d := d.(status := Dead, nextAttemptAt := now, deadReason := Some(reason[..MinInt(64, |reason|)]));
      }
      d := d.(leaseToken := None, leaseExpiresAt := None, updatedAt := now);
      d := d.(attempts := d.attempts + [Attempt(k.attemptNumber, started, now, outcome)]);
      deliveries := deliveries[k.id := d];
    }

    method FinalizeAttempt(c: Settings, k: Claim, started: real, resp: Response, jitter: real) returns (recorded: bool)
      modifies this`deliveries, this`runtime
      ensures View() == Finalize(c, old(View()), k, started, resp, jitter)
      ensures recorded <==> HoldsLive(old(View()), k) && old(deliveries)[k.id].endpoint in old(runtime)
    {
      recorded := false;
      if k.id !in deliveries {
        return;
      }
      var d := deliveries[k.id];
      if !d.status.Processing? || d.leaseToken != Some(k.token) || d.leaseExpiresAt.None?
         || d.leaseExpiresAt.value <= now || d.endpoint !in runtime
      {
        return;
      }
      var r := PerformAttempt(c, k, started, resp);
      SettleEndpoint(c, d.endpoint, k.id, r);
      SettleDelivery(c, k, r, started, jitter);
      recorded := true;
    }

    /** Lease one row under the next token. */
    method LeaseRow(c: Settings, id: nat) returns (k: Claim)
      requires CanSend(View(), id)
      modifies this`deliveries, this`issued, this`nextToken
      ensures k == ClaimOf(old(View()), id, old(nextToken))
      ensures deliveries == old(deliveries)[id := ClaimedRow(c, old(deliveries)[id], now, old(nextToken))]
      ensures issued == old(issued)[old(nextToken) := k] && nextToken == old(nextToken) + 1
    {
      var d := deliveries[id];
      d := d.(status := Processing, attemptCount := d.attemptCount + 1);
      d := d.(leaseToken := Some(nextToken), leaseExpiresAt := Some(now + c.leaseSeconds), updatedAt := now);
      deliveries := deliveries[id := d];
      k := Claim(id, nextToken, d.attemptCount, now, d.createdAt, d.snapshot, events[d.event].envelope.value);
      issued := issued[nextToken := k];
      nextToken := nextToken + 1;
    }

    /** Lease row `i` of the selection after the rows before it. */
    method LeaseNext(c: Settings, s: State, sel: seq<Candidate>, i: nat, claims: seq<Claim>) returns (more: seq<Claim>)
      requires i < |sel| && AllCanSend(s, sel) && DistinctIds(sel)
      requires events == s.events && now == s.now && nextToken == s.nextToken + i && claims == ClaimsOf(s, sel, i)
      requires deliveries == ClaimedRows(c, s, sel, i) && issued == IssuedAfter(s, sel, i)
      modifies this`deliveries, this`issued, this`nextToken
      ensures deliveries == ClaimedRows(c, s, sel, i + 1) && issued == IssuedAfter(s, sel, i + 1)
      ensures nextToken == s.nextToken + i + 1 && more == ClaimsOf(s, sel, i + 1)
    {
      NotYetLeased(c, s, sel, i);
      assert sel[i] in sel;
      var k := LeaseRow(c, sel[i].id);
      more := claims + [k];
    }

    /** Lease the selected rows one by one. */
    method LeaseRows(c: Settings, sel: seq<Candidate>) returns (claims: seq<Claim>)
      requires AllCanSend(View(), sel) && DistinctIds(sel)
      modifies this`deliveries, this`issued, this`nextToken
      ensures deliveries == ClaimedRows(c, old(View()), sel, |sel|)
      ensures issued == IssuedAfter(old(View()), sel, |sel|)
      ensures nextToken == old(nextToken) + |sel| && claims == ClaimsOf(old(View()), sel, |sel|)
    {
      claims := [];
      var s := View();
      for i := 0 to |sel|
        invariant nextToken == s.nextToken + i && claims == ClaimsOf(s, sel, i)
        invariant deliveries == ClaimedRows(c, s, sel, i) && issued == IssuedAfter(s, sel, i)
      {
        claims := LeaseNext(c, s, sel, i, claims);
      }
    }

    /** Lease a selection and store what the selection loop changed. */
    method LeaseSelection(c: Settings, t: Sched) returns (claims: seq<Claim>)
      requires AllCanSend(View(), t.selected) && DistinctIds(t.selected)
      modifies this
      ensures View() == Lease(c, old(View()), t)
      ensures claims == ClaimsOf(old(View()), t.selected, |t.selected|)
    {
      var s := View();
      claims := LeaseRows(c, t.selected);
      runtime := t.runtime;
      tenants := t.tenants;
      cursor := t.cursor;
      LeaseIs(c, s, t, View());
    }

    /** Group the candidates by organization and endpoint. */
    method GroupCandidates(ids: seq<nat>) returns (queues: map<Key, seq<Candidate>>)
      requires AllRows(View(), ids)
      ensures queues == Grouped(View(), ids)
    {
      queues := map[];
      for i := 0 to |ids|
        invariant queues == Grouped(View(), ids[..i])
      {
        assert ids[..i + 1][..i] == ids[..i] && ids[i] in ids;
        var d := deliveries[ids[i]];
        var key := (d.org, d.endpoint);
        var queue := if key in queues then queues[key] else [];
        queues := queues[key := queue + [Candidate(ids[i], d.org, d.endpoint, d.attemptCount > 0)]];
      }
      assert ids[..|ids|] == ids;
    }

    /** Run the selection loop over the candidates. */
    method SelectFairDeliveries(c: Settings, limit: nat, ids: seq<nat>) returns (t: Sched)
      requires ValidSettings(c) && AllRows(View(), ids) && FreeSlots(c, View(), limit) > 0
      ensures t == Chosen(c, View(), limit, ids)
    {
      var queues := GroupCandidates(ids);
      var start := StartOf(c, View(), ids).(queues := queues);
      var order := RotateAfter(Sorted(OrgIds(View(), ids)), cursor);
      StartReady(c, View(), ids);
      var selector := new Selector(c, now, start);
      selector.Select(order, FreeSlots(c, View(), limit));
      t := selector.View();
    }

    /** Claim due work among the candidates. */
    method ClaimDueWork(c: Settings, limit: nat, ids: seq<nat>) returns (claims: seq<Claim>)
      requires ValidSettings(c) && AllRows(View(), ids) && Distinct(ids)
      modifies this
      ensures View() == ClaimDue(c, old(View()), limit, ids)
      ensures HandedOut(View(), claims, old(nextToken))
    {
      claims := [];
      if limit == 0 || FreeSlots(c, View(), limit) <= 0 || ids == [] {
        return;
      }
      var t := SelectFairDeliveries(c, limit, ids);
      ChosenRows(c, View(), limit, ids);
      if AllCanSend(View(), t.selected) {
        ghost var s := View();
        claims := LeaseSelection(c, t);
        LeaseHandsOut(c, s, t);
      }
    }

    // ---- admission and ingestion ------------------------------------------------------------

    /** Check every quota of an event and charge the tenant row if it fits. */
    method AdmitEventLocked(c: Settings, org: nat, count: nat, size: nat) returns (verdict: Verdict)
      requires ValidSettings(c)
      modifies this`tenants
      ensures verdict == AdmitEvent(c, old(View()), org, count, size)
      ensures tenants == if verdict.Admitted? then old(tenants)[org := verdict.tenant] else old(tenants)
    {
      var t := TenantRow(c, View(), org);
      if count > c.fanoutPerEvent {
        return Rejected(Fanout, Some(c.quotaRetryAfterMax));
      }
      var saturation := Saturated(c, View(), count);
      if saturation.Some? {
        return Rejected(saturation.value, None);
      }
      if Retained(View(), org) + size > c.retainedBytes {
        return Rejected(RetainedBytes, Some(c.quotaRetryAfterMax));
      }
      var event := EventBalance(c, t, now);
      var delivery := DeliveryBalance(c, t, count, now);
      if event.retryAfter.Some? {
        return Rejected(EventRate, event.retryAfter);
      }
      if delivery.retryAfter.Some? {
        return Rejected(DeliveryRate, delivery.retryAfter);
      }
      t := t.(eventTokens := event.tokens, eventRefilledAt := event.refilledAt);
      t := t.(deliveryTokens := delivery.tokens, deliveryRefilledAt := delivery.refilledAt);
      tenants := tenants[org := t];
      return Admitted(t);
    }

    method AdmitReplaysLocked(c: Settings, org: nat, count: nat) returns (verdict: Verdict)
      requires ValidSettings(c)
      modifies this`tenants
      ensures verdict == AdmitReplays(c, old(View()), org, count)
      ensures tenants == if verdict.Admitted? then old(tenants)[org := verdict.tenant] else old(tenants)
    {
      var t := TenantRow(c, View(), org);
      if count < 1 || count > c.bulkReplayMax {
        return Rejected(BulkReplaySize, Some(c.quotaRetryAfterMax));
      }
      var saturation := Saturated(c, View(), count);
      if saturation.Some? {
        return Rejected(saturation.value, None);
      }
      var replay := ReplayBalance(c, t, count, now);
      var delivery := DeliveryBalance(c, t, count, now);
      if replay.retryAfter.Some? {
        return Rejected(ReplayRate, replay.retryAfter);
      }
      if delivery.retryAfter.Some? {
        return Rejected(DeliveryRate, delivery.retryAfter);
      }
      t := t.(replayTokens := replay.tokens, replayRefilledAt := replay.refilledAt);
      t := t.(deliveryTokens := delivery.tokens, deliveryRefilledAt := delivery.refilledAt);
      tenants := tenants[org := t];
      return Admitted(t);
    }

    /** Add one pending delivery for each target. */
    method FanOut(s: State, org: nat, event: nat, targets: seq<nat>, base: nat)
      requires s.now == now && s.endpoints == endpoints && s.deliveries == deliveries
      requires forall e :: e in targets ==> e in endpoints
      modifies this`deliveries
      ensures deliveries == FannedOut(s, org, event, targets, base, |targets|)
    {
      for i := 0 to |targets|
        invariant deliveries == FannedOut(s, org, event, targets, base, i)
      {
        assert targets[i] in targets;
        var ep := endpoints[targets[i]];
        var snapshot := Snapshot(ep.publicId, ep.url, ep.active, ep.secretVersion, ep.scheme);
        deliveries := deliveries[base + i := NewDelivery(org, event, targets[i], None, snapshot, now)];
      }
    }

    /** The locked part of ingestion. */
    method IngestLocked(c: Settings, r: Request) returns (answer: Answer)
      requires ValidSettings(c)
      modifies this
      ensures (View(), answer) == Ingest(c, old(View()), r)
    {
      if r.project !in projects {
        return NoProject;
      }
      var existing := Lookup(View(), r);
      if existing.Some? {
        return existing.value;
      }
      var s := View();
      var org := projects[r.project];
      var targets := TargetList(s, r.project, r.eventType);
      var verdict := AdmitEventLocked(c, org, |targets|, |r.envelope|);
      if verdict.Rejected? {
        return Refused(verdict.reason, verdict.retryAfter);
      }
      AcceptLocked(s, r, verdict.tenant, targets);
      return Accepted(s.nextId);
    }

    ghost predicate OnlyTenantsChanged(s: State)
      reads this
    {
      && now == s.now && orgs == s.orgs && projects == s.projects && endpoints == s.endpoints
      && runtime == s.runtime && versions == s.versions && cursor == s.cursor
      && events == s.events && deliveries == s.deliveries && operations == s.operations
      && issued == s.issued && nextId == s.nextId && nextToken == s.nextToken
    }

    method AcceptLocked(s: State, r: Request, tenant: Tenant, targets: seq<nat>)
      requires OnlyTenantsChanged(s) && r.project in s.projects
      requires tenants == s.tenants[s.projects[r.project] := tenant]
      requires targets == TargetList(s, r.project, r.eventType)
      modifies this`events, this`deliveries, this`nextId
      ensures View() == Accept(s, r, tenant)
    {
      StoreEvent(s, r, projects[r.project], targets);
      AcceptIs(s, r, tenant, targets, View());
    }

    /** Store an admitted event with its deliveries. */
    method StoreEvent(s: State, r: Request, org: nat, targets: seq<nat>)
      requires s.now == now && s.endpoints == endpoints && s.deliveries == deliveries && s.nextId == nextId
      requires forall e :: e in targets ==> e in endpoints
      modifies this`events, this`deliveries, this`nextId
      ensures events == old(events)[s.nextId := NewEvent(r, s.now)]
      ensures deliveries == FannedOut(s, org, s.nextId, targets, s.nextId + 1, |targets|)
      ensures nextId == s.nextId + 1 + |targets|
    {
      var event := nextId;
      events := events[event := NewEvent(r, now)];
      FanOut(s, org, event, targets, event + 1);
      nextId := event + 1 + |targets|;
    }

    /** Copy replayable sources into fresh pending deliveries. */
    method ReplaySources(c: Settings, project: nat, sources: seq<nat>, deadOnly: bool) returns (done: bool)
      requires ValidSettings(c)
      modifies this
      ensures View() == Replay(c, old(View()), project, sources, deadOnly)
    {
      done := false;
      if project !in projects || !AllSources(View(), project, deadOnly, sources) {
        return;
      }
      var s := View();
      var org := projects[project];
      var verdict := AdmitReplaysLocked(c, org, |sources|);
      if verdict.Rejected? {
        return;
      }
      AddReplays(s, sources);
      assert View() == CopySources(s, sources, org, verdict.tenant);
      done := true;
    }

    /** Copy every source into a new row, numbered in order. */
    method AddReplays(s: State, sources: seq<nat>)
      requires AllRows(s, sources) && deliveries == s.deliveries && nextId == s.nextId && now == s.now
      modifies this`deliveries, this`nextId
      ensures deliveries == Replayed(s, sources, |sources|) && nextId == s.nextId + |sources|
    {
      for i := 0 to |sources|
        invariant deliveries == Replayed(s, sources, i) && nextId == s.nextId
      {
        assert sources[i] in sources;
        var d := s.deliveries[sources[i]];
        deliveries := deliveries[nextId + i :=
          NewDelivery(d.org, d.event, d.endpoint, Some(sources[i]), d.snapshot, now)];
      }
      nextId := nextId + |sources|;
    }

    // ---- operators -----------------------------------------------------------------------------

    method CancelDelivery(id: nat) returns (ok: bool)
      modifies this`deliveries, this`runtime
      ensures View() == Cancel(old(View()), id)
      ensures ok == (id in old(deliveries) && Queued(old(deliveries)[id].status))
    {
      ok := false;
      if id in deliveries && Queued(deliveries[id].status) {
        var d := deliveries[id];
        deliveries := deliveries[id := d.(status := Canceled, nextAttemptAt := now, updatedAt := now)];
        if d.endpoint in runtime && runtime[d.endpoint].probe == Some(id) {
          var e := runtime[d.endpoint];
          e := e.(circuit := Open, openUntil := Some(now), probe := None);
          runtime := runtime[d.endpoint := e];
        }
        ok := true;
      }
    }

    method PauseEndpoint(ep: nat)
      modifies this`runtime
      ensures View() == Pause(old(View()), ep)
    {
      if ep in runtime && runtime[ep].pausedAt.None? {
        runtime := runtime[ep := runtime[ep].(pausedAt := Some(now))];
      }
    }

    method ResumeEndpoint(ep: nat)
      modifies this`runtime
      ensures View() == Resume(old(View()), ep)
    {
      if ep in runtime {
        runtime := runtime[ep := runtime[ep].(pausedAt := None)];
      }
    }

    method RecoverCircuit(c: Settings, ep: nat)
      modifies this`runtime
      ensures View() == Recover(c, old(View()), ep)
    {
      if ep in runtime {
        var e := runtime[ep];
        e := e.(circuit := Closed, failures := 0, openUntil := None, probe := None);
        e := e.(retryTokens := c.retryBurst as real, retryRefilledAt := now);
        runtime := runtime[ep := e];
      }
    }

    method RotateEndpointSecret(c: Settings, ep: nat)
      modifies this`versions, this`endpoints
      ensures View() == RotateSecret(c, old(View()), ep)
    {
      if ep in endpoints && (ep, endpoints[ep].secretVersion) in versions {
        var v := endpoints[ep].secretVersion;
        var previous := versions[(ep, v)];
        versions := versions[(ep, v) := previous.(retireAt := Some(now + c.secretOverlap))];
        endpoints := endpoints[ep := endpoints[ep].(secretVersion := v + 1)];
        versions := versions[(ep, v + 1) := SecretVersion(now, None)];
      }
    }

    // ---- retention and deletion -----------------------------------------------------------------

    /** Null out payload and envelope of the given events. */
    method NullPayloads(rows: set<nat>)
      requires rows <= events.Keys
      modifies this`events
      ensures events == map id | id in old(events) ::
                          if id in rows then PurgedEvent(old(events)[id], now) else old(events)[id]
    {
      var before := events;
      var left := rows;
      while left != {}
        invariant left <= rows && events.Keys == before.Keys
        invariant forall id :: id in before ==>
                    events[id] == if id in rows && id !in left then PurgedEvent(before[id], now) else before[id]
        decreases |left|
      {
        var id :| id in left;
        events := events[id := events[id].(payload := None, envelope := None, purgedAt := Some(now))];
        left := left - {id};
      }
    }

    /** Purge the purgeable events of a batch. */
    method PurgeEventPayloads(batch: set<nat>)
      modifies this`events
      ensures View() == PurgePayloads(old(View()), batch)
    {
      var rows := set id | id in batch && Purgeable(View(), id);
      NullPayloads(rows);
    }

    method RequestOrganizationDeletion(c: Settings, org: nat) returns (ok: bool)
      modifies this`operations, this`orgs, this`nextId
      ensures View() == RequestDeletion(c, old(View()), org)
    {
      ok := org in orgs && ActiveOperations(View(), org) == {};
      if ok {
        operations := operations[nextId := Operation(org, OpPending, now + c.deletionGrace, now)];
        orgs := orgs[org := orgs[org].(lifecycle := DeletionPending)];
        nextId := nextId + 1;
      }
    }

    method CancelOrganizationDeletion(org: nat) returns (ok: bool)
      modifies this`operations, this`orgs
      ensures View() == CancelDeletion(old(View()), org)
    {
      ok := false;
      var active := ActiveOperations(View(), org);
      if org in orgs && active != {} {
        var op := Least(active);
        if !operations[op].status.OpRunning? {
          operations := operations[op := operations[op].(status := OpCanceled)];
          orgs := orgs[org := orgs[org].(lifecycle := Active)];
          ok := true;
        }
      }
    }

    /** Cancel the rows of a batch. */
    method CancelInactive(batch: set<nat>)
      requires batch <= deliveries.Keys
      modifies this`deliveries
      ensures View() == CancelBatch(old(View()), batch)
    {
      var s := View();
      var left := batch;
      while left != {}
        invariant left <= batch && deliveries.Keys == s.deliveries.Keys
        invariant forall id :: id in s.deliveries ==>
                    deliveries[id] == if id in batch && id !in left then CanceledByCleanup(s.deliveries[id], now) else s.deliveries[id]
        decreases |left|
      {
        var id :| id in left;
        var d := deliveries[id].(status := Canceled, leaseToken := None, leaseExpiresAt := None, updatedAt := now);
        deliveries := deliveries[id := d];
        left := left - {id};
      }
      assert deliveries == CancelBatch(s, batch).deliveries;
    }

    /** Which stage a cleanup run finds. */
    method DecideStage(org: nat) returns (stage: Stage)
      ensures stage == StageOf(View(), org)
    {
      if Cancellable(View(), org) != {} {
        return Canceling;
      }
      if LiveOfOrg(View(), org) != {} {
        return Waiting;
      }
      if DeliveriesOf(View(), org) != {} {
        return DeletingDeliveries;
      }
      if Orphans(View(), org) != {} {
        return DeletingEvents;
      }
      if EventsOf(View(), org) != {} {
        return Stuck;
      }
      return DeletingOrganization;
    }

    /** Work on a batch in the given stage. */
    method WorkOnStage(stage: Stage, org: nat, batch: set<nat>)
      requires stage.Canceling? ==> batch <= deliveries.Keys
      modifies this
      ensures View() == RunStage(old(View()), stage, org, batch)
    {
      match stage
      case Canceling => CancelInactive(batch);
      case Waiting =>
      case DeletingDeliveries => RemoveDeliveries(batch);
      case DeletingEvents => RemoveEvents(batch);
      case Stuck =>
      case DeletingOrganization => RemoveOrganization(org);
    }

    method RemoveDeliveries(batch: set<nat>)
      modifies this`deliveries, this`runtime
      ensures View() == DeleteDeliveries(old(View()), batch)
    {
      var t := DeleteDeliveries(View(), batch);
      deliveries, runtime := t.deliveries, t.runtime;
    }

    method RemoveEvents(batch: set<nat>)
      modifies this`events
      ensures View() == DeleteEvents(old(View()), batch)
    {
      events := map id | id in events && id !in batch :: events[id];
    }

    method RemoveOrganization(org: nat)
      modifies this`orgs, this`projects, this`endpoints, this`runtime, this`versions, this`tenants, this`operations
      ensures View() == DeleteOrganization(old(View()), org)
    {
      var t := DeleteOrganization(View(), org);
      orgs, projects, endpoints, runtime := t.orgs, t.projects, t.endpoints, t.runtime;
      versions, tenants, operations := t.versions, t.tenants, t.operations;
    }

    /** One run of the staged cleanup for a due operation. */
    method CleanupDueOrganization(op: nat, batch: set<nat>)
      requires DueOperation(View(), op) && batch <= CleanupTargets(View(), operations[op].org)
      modifies this
      ensures View() == Cleanup(old(View()), op, batch)
    {
      var org := operations[op].org;
      var stage := DecideStage(org);
      operations := operations[op := operations[op].(status := OpRunning)];
      WorkOnStage(stage, org, batch);
    }
  }

  lemma AcceptIs(s: State, r: Request, tenant: Tenant, targets: seq<nat>, t: State)
    requires r.project in s.projects && targets == TargetList(s, r.project, r.eventType)
    requires t.tenants == s.tenants[s.projects[r.project] := tenant]
    requires t.events == s.events[s.nextId := NewEvent(r, s.now)]
    requires t.deliveries == FannedOut(s, s.projects[r.project], s.nextId, targets, s.nextId + 1, |targets|)
    requires t.now == s.now && t.orgs == s.orgs && t.projects == s.projects && t.endpoints == s.endpoints
    requires t.runtime == s.runtime && t.versions == s.versions && t.cursor == s.cursor
    requires t.operations == s.operations && t.issued == s.issued && t.nextToken == s.nextToken
    requires t.nextId == s.nextId + 1 + |targets|
    ensures t == Accept(s, r, tenant)
  {
  }

  predicate DistinctIds(sel: seq<Candidate>) {
    forall i, j :: 0 <= i < j < |sel| ==> sel[i].id != sel[j].id
  }

  /** The claims for the first `n` selected rows, in order. */
  function ClaimsOf(s: State, sel: seq<Candidate>, n: nat): (claims: seq<Claim>)
    requires AllCanSend(s, sel) && n <= |sel|
    ensures |claims| == n
  {
    if n == 0 then []
    else
      assert sel[n - 1] in sel;
      ClaimsOf(s, sel, n - 1) + [ClaimOf(s, sel[n - 1].id, s.nextToken + n - 1)]
  }

  lemma {:induction false} ClaimIsIssued(s: State, sel: seq<Candidate>, n: nat, i: nat)
    requires AllCanSend(s, sel) && i < n <= |sel|
    ensures s.nextToken + i in IssuedAfter(s, sel, n)
    ensures ClaimsOf(s, sel, n)[i] == IssuedAfter(s, sel, n)[s.nextToken + i]
  {
    if i < n - 1 { ClaimIsIssued(s, sel, n - 1, i); }
  }

  /** The claims are those issued from token `first` on, in order. */
  ghost predicate HandedOut(s: State, claims: seq<Claim>, first: nat) {
    && |claims| == s.nextToken - first
    && forall i :: 0 <= i < |claims| ==> first + i in s.issued && claims[i] == s.issued[first + i]
  }

  lemma LeaseHandsOut(c: Settings, s: State, t: Sched)
    requires AllCanSend(s, t.selected)
    ensures HandedOut(Lease(c, s, t), ClaimsOf(s, t.selected, |t.selected|), s.nextToken)
  {
    IssuedInOrder(s, t.selected, Lease(c, s, t));
  }

  lemma IssuedInOrder(s: State, sel: seq<Candidate>, u: State)
    requires AllCanSend(s, sel) && u.issued == IssuedAfter(s, sel, |sel|) && u.nextToken == s.nextToken + |sel|
    ensures HandedOut(u, ClaimsOf(s, sel, |sel|), s.nextToken)
  {
    var claims := ClaimsOf(s, sel, |sel|);
    forall i | 0 <= i < |claims| ensures s.nextToken + i in u.issued && claims[i] == u.issued[s.nextToken + i] {
      ClaimIsIssued(s, sel, |sel|, i);
    }
  }

  lemma LeaseIs(c: Settings, s: State, t: Sched, u: State)
    requires AllCanSend(s, t.selected)
    requires u == s.(runtime := t.runtime, tenants := t.tenants, cursor := t.cursor,
                     deliveries := u.deliveries, issued := u.issued, nextToken := u.nextToken)
    requires u.deliveries == ClaimedRows(c, s, t.selected, |t.selected|)
    requires u.issued == IssuedAfter(s, t.selected, |t.selected|) && u.nextToken == s.nextToken + |t.selected|
    ensures u == Lease(c, s, t)
  {
  }

  /** A row selected once is still as it was when its turn comes. */
  lemma NotYetLeased(c: Settings, s: State, sel: seq<Candidate>, n: nat)
    requires n < |sel| && DistinctIds(sel) && forall d :: d in sel ==> d.id in s.deliveries
    ensures sel[n].id in s.deliveries && ClaimedRows(c, s, sel, n)[sel[n].id] == s.deliveries[sel[n].id]
  {
    assert sel[n] in sel;
    StillFree(c, s, sel, n, sel[n].id);
  }

  lemma {:induction false} StillFree(c: Settings, s: State, sel: seq<Candidate>, n: nat, id: nat)
    requires n <= |sel| && (forall d :: d in sel ==> d.id in s.deliveries) && id in s.deliveries
    requires forall i :: 0 <= i < n ==> sel[i].id != id
    ensures ClaimedRows(c, s, sel, n)[id] == s.deliveries[id]
  {
    if n > 0 { StillFree(c, s, sel, n - 1, id); }
  }
}
