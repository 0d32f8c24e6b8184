/** Admission control, ingestion and replay: `app/admission.py` and the event
    and replay operations of `app/services/webhook_service.py`. */
module Admission {
  import opened Base
  import opened Types
  import opened TokenBucket
  import opened Platform

  datatype Reason =
    | Fanout | GlobalBacklog | OldestDueAge | RetainedBytes | EventRate | DeliveryRate | BulkReplaySize | ReplayRate

  datatype Verdict = Admitted(tenant: Tenant) | Rejected(reason: Reason, retryAfter: Option<int>)

  // ---- quota checks ---------------------------------------------------------------

  function DueAt(d: Delivery): real {
    if d.status.Processing? && d.leaseExpiresAt.Some? then d.leaseExpiresAt.value else d.nextAttemptAt
  }

  predicate OverdueExists(c: Settings, s: State) {
    exists id :: id in s.deliveries && Due(s.deliveries[id], s.now)
                 && s.now - DueAt(s.deliveries[id]) >= c.oldestDueSeconds
  }

  /** Why the deployment as a whole cannot take `additional` deliveries. */
  function Saturated(c: Settings, s: State, additional: nat): Option<Reason> {
    if |Backlog(s)| + additional > c.maxBacklog then Some(GlobalBacklog)
    else if OverdueExists(c, s) then Some(OldestDueAge)
    else None
  }

  function EventBalance(c: Settings, t: Tenant, now: real): Balance
    requires ValidSettings(c)
  {
    ConsumeTokens(t.eventTokens, t.eventRefilledAt, c.eventRate, c.eventBurst, 1, now, c.quotaRetryAfterMax)
  }

  function DeliveryBalance(c: Settings, t: Tenant, count: nat, now: real): Balance
    requires ValidSettings(c)
  {
    ConsumeTokens(
      t.deliveryTokens, t.deliveryRefilledAt, c.deliveryRate, c.deliveryBurst, count, now, c.quotaRetryAfterMax)
  }

  function ReplayBalance(c: Settings, t: Tenant, count: nat, now: real): Balance
    requires ValidSettings(c)
  {
    ConsumeTokens(t.replayTokens, t.replayRefilledAt, c.replayRate, c.replayBurst, count, now, c.quotaRetryAfterMax)
  }

  function AdmitEvent(c: Settings, s: State, org: nat, count: nat, size: nat): Verdict
    requires ValidSettings(c)
  {
    var t := TenantRow(c, s, org);
    if count > c.fanoutPerEvent then Rejected(Fanout, Some(c.quotaRetryAfterMax))
    else if Saturated(c, s, count).Some? then Rejected(Saturated(c, s, count).value, None)
    else if Retained(s, org) + size > c.retainedBytes then Rejected(RetainedBytes, Some(c.quotaRetryAfterMax))
    else
      var eb := EventBalance(c, t, s.now);
      var db := DeliveryBalance(c, t, count, s.now);
      if eb.retryAfter.Some? then Rejected(EventRate, eb.retryAfter)
      else if db.retryAfter.Some? then Rejected(DeliveryRate, db.retryAfter)
      else Admitted(t.(eventTokens := eb.tokens, eventRefilledAt := eb.refilledAt,
                       deliveryTokens := db.tokens, deliveryRefilledAt := db.refilledAt))
  }

  function AdmitReplays(c: Settings, s: State, org: nat, count: nat): Verdict
    requires ValidSettings(c)
  {
    var t := TenantRow(c, s, org);
    if count < 1 || count > c.bulkReplayMax then Rejected(BulkReplaySize, Some(c.quotaRetryAfterMax))
    else if Saturated(c, s, count).Some? then Rejected(Saturated(c, s, count).value, None)
    else
      var rb := ReplayBalance(c, t, count, s.now);
      var db := DeliveryBalance(c, t, count, s.now);
      if rb.retryAfter.Some? then Rejected(ReplayRate, rb.retryAfter)
      else if db.retryAfter.Some? then Rejected(DeliveryRate, db.retryAfter)
      else Admitted(t.(replayTokens := rb.tokens, replayRefilledAt := rb.refilledAt,
                       deliveryTokens := db.tokens, deliveryRefilledAt := db.refilledAt))
  }

  /** No due delivery, queued or with a lease that is over, has waited as long as
      the admission limit. */
  predicate NoneOverdue(c: Settings, s: State) {
    forall id :: id in s.deliveries ==>
      && (s.deliveries[id].status == Pending || s.deliveries[id].status == RetryScheduled ==>
            s.now - s.deliveries[id].nextAttemptAt < c.oldestDueSeconds || s.now < s.deliveries[id].nextAttemptAt)
      && (s.deliveries[id].status == Processing && s.deliveries[id].leaseExpiresAt.Some? ==>
            || s.now - s.deliveries[id].leaseExpiresAt.value < c.oldestDueSeconds
            || s.now < s.deliveries[id].leaseExpiresAt.value)
  }

  /** The open deliveries: pending, leased or scheduled again. */
  function OpenIds(s: State): set<nat> {
    set id | id in s.deliveries &&
      (s.deliveries[id].status == Pending || s.deliveries[id].status == Processing || s.deliveries[id].status == RetryScheduled)
  }

  /** The deployment can take so many more deliveries: the backlog has room and
      nothing is overdue. */
  predicate RoomFor(c: Settings, s: State, count: nat) { |OpenIds(s)| + count <= c.maxBacklog && NoneOverdue(c, s) }

  lemma RoomIff(c: Settings, s: State, count: nat)
    ensures RoomFor(c, s, count) <==> Saturated(c, s, count).None?
    ensures |OpenIds(s)| + count > c.maxBacklog ==> Saturated(c, s, count) == Some(GlobalBacklog)
    ensures |OpenIds(s)| + count <= c.maxBacklog && !NoneOverdue(c, s) ==> Saturated(c, s, count) == Some(OldestDueAge)
  {
    OpenIsBacklog(s);
    OverdueIff(c, s);
  }

  lemma OpenIsBacklog(s: State)
    ensures OpenIds(s) == Backlog(s)
  {
  }

  lemma OverdueIff(c: Settings, s: State)
    ensures OverdueExists(c, s) <==> !NoneOverdue(c, s)
  {
    if !NoneOverdue(c, s) {
      var id :| id in s.deliveries && !(
        && (s.deliveries[id].status == Pending || s.deliveries[id].status == RetryScheduled ==>
              s.now - s.deliveries[id].nextAttemptAt < c.oldestDueSeconds || s.now < s.deliveries[id].nextAttemptAt)
        && (s.deliveries[id].status == Processing && s.deliveries[id].leaseExpiresAt.Some? ==>
              || s.now - s.deliveries[id].leaseExpiresAt.value < c.oldestDueSeconds
              || s.now < s.deliveries[id].leaseExpiresAt.value));
      assert Due(s.deliveries[id], s.now) && s.now - DueAt(s.deliveries[id]) >= c.oldestDueSeconds;
    }
  }

  /** What the three buckets of an organization hold now. */
  function EventsHeld(c: Settings, t: Tenant, now: real): real {
    Available(t.eventTokens, t.eventRefilledAt, c.eventRate, c.eventBurst, now)
  }

  function DeliveriesHeld(c: Settings, t: Tenant, now: real): real {
    Available(t.deliveryTokens, t.deliveryRefilledAt, c.deliveryRate, c.deliveryBurst, now)
  }

  function ReplaysHeld(c: Settings, t: Tenant, now: real): real {
    Available(t.replayTokens, t.replayRefilledAt, c.replayRate, c.replayBurst, now)
  }

  /** An event is admitted exactly when fanout, backlog, age, retained bytes and
      both buckets all allow it; then both buckets are charged and nothing else of
      the quota row changes. A refusal names the first check that failed. */
  lemma EventAdmittedIff(c: Settings, s: State, org: nat, count: nat, size: nat)
    requires ValidSettings(c)
    ensures var t, v := TenantRow(c, s, org), AdmitEvent(c, s, org, count, size);
            && (v.Admitted? <==>
                  && count <= c.fanoutPerEvent && RoomFor(c, s, count) && Retained(s, org) + size <= c.retainedBytes
                  && EventsHeld(c, t, s.now) >= 1.0 && DeliveriesHeld(c, t, s.now) >= count as real)
            && (v.Admitted? ==>
                  v.tenant == t.(eventTokens := EventsHeld(c, t, s.now) - 1.0, eventRefilledAt := s.now,
                                 deliveryTokens := DeliveriesHeld(c, t, s.now) - count as real, deliveryRefilledAt := s.now))
    ensures var t, v := TenantRow(c, s, org), AdmitEvent(c, s, org, count, size);
            v.Rejected? ==>
              v.reason ==
              if count > c.fanoutPerEvent then Fanout
              else if |OpenIds(s)| + count > c.maxBacklog then GlobalBacklog
              else if !NoneOverdue(c, s) then OldestDueAge
              else if Retained(s, org) + size > c.retainedBytes then RetainedBytes
              else if EventsHeld(c, t, s.now) < 1.0 then EventRate
              else DeliveryRate
  {
    RoomIff(c, s, count);
  }

  /** A replay of `count` deliveries is admitted exactly when its size, the
      backlog, the age limit and both buckets allow it; then both buckets are
      charged. A refusal names the first check that failed. */
  lemma ReplayAdmittedIff(c: Settings, s: State, org: nat, count: nat)
    requires ValidSettings(c)
    ensures var t, v := TenantRow(c, s, org), AdmitReplays(c, s, org, count);
            && (v.Admitted? <==>
                  && 1 <= count <= c.bulkReplayMax && RoomFor(c, s, count)
                  && ReplaysHeld(c, t, s.now) >= count as real && DeliveriesHeld(c, t, s.now) >= count as real)
            && (v.Admitted? ==>
                  v.tenant == t.(replayTokens := ReplaysHeld(c, t, s.now) - count as real, replayRefilledAt := s.now,
                                 deliveryTokens := DeliveriesHeld(c, t, s.now) - count as real, deliveryRefilledAt := s.now))
    ensures var t, v := TenantRow(c, s, org), AdmitReplays(c, s, org, count);
            v.Rejected? ==>
              v.reason ==
              if count < 1 || count > c.bulkReplayMax then BulkReplaySize
              else if |OpenIds(s)| + count > c.maxBacklog then GlobalBacklog
              else if !NoneOverdue(c, s) then OldestDueAge
              else if ReplaysHeld(c, t, s.now) < count as real then ReplayRate
              else DeliveryRate
  {
    RoomIff(c, s, count);
  }

  // ---- ingestion --------------------------------------------------------------------

  predicate EntryMatches(eventType: string, entry: Option<string>) {
    && entry.Some?
    && var p := entry.value;
       if |p| >= 2 && p[|p| - 2..] == ".*" then p[..|p| - 1] <= eventType else eventType == p
  }

  predicate TypeMatches(eventType: string, filter: Filter) {
    match filter
    case Everything => true
    case Patterns(entries) => exists i :: 0 <= i < |entries| && EntryMatches(eventType, entries[i])
    case Malformed => false
  }

  /** `order.*` accepts what starts with `order.`, and so neither `order` nor
      `orders.created`; any other entry accepts itself only. */
  lemma PatternMeaning(eventType: string, pattern: string)
    ensures EntryMatches(eventType, Some(pattern + ".*")) <==> pattern + "." <= eventType
    ensures !(|pattern| >= 2 && pattern[|pattern| - 2..] == ".*") ==>
              (EntryMatches(eventType, Some(pattern)) <==> eventType == pattern)
  {
    var p := pattern + ".*";
    assert p[|p| - 2..] == ".*" && p[..|p| - 1] == pattern + ".";
  }

  /** An ingestion call after validation, with the fingerprint of its content
      and the envelope it would store. */
  datatype Request = Request(
    project: nat, key: string, eventType: string, mode: Mode, payload: Bytes,
    fingerprint: Bytes, envelope: Bytes)

  datatype Answer =
    | Accepted(event: nat) | Existing(event: nat) | Conflict | Refused(reason: Reason, retryAfter: Option<int>)
    | NoProject

  predicate HasKey(s: State, id: nat, project: nat, key: string) {
    id in s.events && s.events[id].project == project && s.events[id].key == key
  }

  function EventIdsWith(s: State, project: nat, key: string): set<nat> {
    set id | id in s.events && HasKey(s, id, project, key)
  }

  predicate SameContent(ev: Event, r: Request) {
    ev.eventType == r.eventType && ev.mode == r.mode && ev.payloadHash == r.fingerprint
  }

  /** The idempotency check against the stored event, if there is one. */
  function Lookup(s: State, r: Request): Option<Answer> {
    var found := EventIdsWith(s, r.project, r.key);
    if found == {} then None
    else
      var id := Least(found);
      Some(if SameContent(s.events[id], r) then Existing(id) else Conflict)
  }

  /** Active endpoints of the project subscribed to the event type. */
  function Targets(s: State, project: nat, eventType: string): set<nat> {
    set e | e in s.endpoints && s.endpoints[e].project == project && s.endpoints[e].active
            && TypeMatches(eventType, s.endpoints[e].eventTypes)
  }

  function SnapshotOf(e: Endpoint): Snapshot {
    Snapshot(e.publicId, e.url, e.active, e.secretVersion, e.scheme)
  }

  function NewDelivery(
    org: nat, event: nat, ep: nat, replayOf: Option<nat>, snap: Snapshot, now: real
  ): Delivery {
    Delivery(org, event, ep, replayOf, snap, Pending, 0, now, None, None, now, now, None, [])
  }

  /** The delivery table after the first `n` targets got their row, with ids
      from `base` on. */
  function FannedOut(
    s: State, org: nat, event: nat, targets: seq<nat>, base: nat, n: nat
  ): map<nat, Delivery>
    requires n <= |targets| && forall e :: e in targets ==> e in s.endpoints
  {
    if n == 0 then s.deliveries
    else
      assert targets[n - 1] in targets;
      var ep := targets[n - 1];
      FannedOut(s, org, event, targets, base, n - 1)
        [base + n - 1 := NewDelivery(org, event, ep, None, SnapshotOf(s.endpoints[ep]), s.now)]
  }

  function NewEvent(r: Request, now: real): Event {
    Event(r.project, r.key, r.eventType, r.mode, r.fingerprint, Some(r.payload), Some(r.envelope), None, now)
  }

  /** The targets in ascending order. */
  function TargetList(s: State, project: nat, eventType: string): (r: seq<nat>)
    ensures Ascending(r) && |r| == |Targets(s, project, eventType)|
    ensures forall e :: e in r ==> e in s.endpoints
  {
    Sorted(Targets(s, project, eventType))
  }

  /** One transaction with the charged quota row, the event and its deliveries. */
  function StoreAccepted(s: State, r: Request, tenant: Tenant, targets: seq<nat>): State
    requires r.project in s.projects && forall e :: e in targets ==> e in s.endpoints
  {
    var org := s.projects[r.project];
    s.(tenants := s.tenants[org := tenant],
       events := s.events[s.nextId := NewEvent(r, s.now)],
       deliveries := FannedOut(s, org, s.nextId, targets, s.nextId + 1, |targets|),
       nextId := s.nextId + 1 + |targets|)
  }

  function Accept(s: State, r: Request, tenant: Tenant): State
    requires r.project in s.projects
  {
    StoreAccepted(s, r, tenant, TargetList(s, r.project, r.eventType))
  }

  /** The locked part of ingestion: second idempotency check, admission, then
      the transaction. */
  function Ingest(c: Settings, s: State, r: Request): (State, Answer)
    requires ValidSettings(c)
  {
    if r.project !in s.projects then (s, NoProject)
    else if Lookup(s, r).Some? then (s, Lookup(s, r).value)
    else
      var verdict := AdmitEvent(
        c, s, s.projects[r.project], |Targets(s, r.project, r.eventType)|, |r.envelope|);
      if verdict.Rejected? then (s, Refused(verdict.reason, verdict.retryAfter))
      else (Accept(s, r, verdict.tenant), Accepted(s.nextId))
  }

  lemma IngestOutcome(c: Settings, s: State, r: Request) returns (tenant: Tenant)
    requires ValidSettings(c)
    ensures var (t, answer) := Ingest(c, s, r);
            && (!answer.Accepted? ==> t == s)
            && (answer.Accepted? ==>
                  && r.project in s.projects && Lookup(s, r).None? && answer.event == s.nextId
                  && AdmitEvent(c, s, s.projects[r.project], |Targets(s, r.project, r.eventType)|, |r.envelope|)
                       == Admitted(tenant)
                  && t == Accept(s, r, tenant))
  {
    tenant := FreshTenant(c, s.now);
    if Ingest(c, s, r).1.Accepted? {
      tenant := AdmitEvent(
        c, s, s.projects[r.project], |Targets(s, r.project, r.eventType)|, |r.envelope|).tenant;
    }
  }

  // ---- replay -------------------------------------------------------------------------

  predicate Replayable(s: State, d: Delivery) {
    && d.event in s.events
    && s.events[d.event].payload.Some? && s.events[d.event].envelope.Some? && s.events[d.event].purgedAt.None?
    && var v := (d.endpoint, d.snapshot.secretVersion);
       && v in s.versions
       && (s.versions[v].retireAt.Some? ==> s.versions[v].retireAt.value > s.now)
  }

  predicate IsSource(s: State, project: nat, deadOnly: bool, id: nat) {
    && id in s.deliveries
    && s.deliveries[id].event in s.events && s.events[s.deliveries[id].event].project == project
    && (deadOnly ==> s.deliveries[id].status.Dead?)
    && Replayable(s, s.deliveries[id])
  }

  function ReplayCopy(id: nat, d: Delivery, now: real): Delivery {
    NewDelivery(d.org, d.event, d.endpoint, Some(id), d.snapshot, now)
  }

  function Replayed(s: State, sources: seq<nat>, n: nat): map<nat, Delivery>
    requires n <= |sources| && AllRows(s, sources)
  {
    if n == 0 then s.deliveries
    else
      assert sources[n - 1] in sources;
      Replayed(s, sources, n - 1)[s.nextId + n - 1 := ReplayCopy(sources[n - 1], s.deliveries[sources[n - 1]], s.now)]
  }

  function CopySources(s: State, sources: seq<nat>, org: nat, tenant: Tenant): State
    requires AllRows(s, sources)
  {
    s.(tenants := s.tenants[org := tenant],
       deliveries := Replayed(s, sources, |sources|),
       nextId := s.nextId + |sources|)
  }

  predicate AllSources(s: State, project: nat, deadOnly: bool, sources: seq<nat>) {
    Distinct(sources) && forall id :: id in sources ==> IsSource(s, project, deadOnly, id)
  }

  /** Copy the sources into fresh pending deliveries; bulk replay takes dead
      sources only. */
  function Replay(c: Settings, s: State, project: nat, sources: seq<nat>, deadOnly: bool): State
    requires ValidSettings(c)
  {
    if project !in s.projects || !AllSources(s, project, deadOnly, sources) then s
    else
      var org := s.projects[project];
      var verdict := AdmitReplays(c, s, org, |sources|);
      if verdict.Rejected? then s else CopySources(s, sources, org, verdict.tenant)
  }

  lemma ReplayOutcome(c: Settings, s: State, project: nat, sources: seq<nat>, deadOnly: bool)
    returns (tenant: Tenant)
    requires ValidSettings(c)
    ensures var t := Replay(c, s, project, sources, deadOnly);
            || t == s
            || (&& project in s.projects && AllSources(s, project, deadOnly, sources)
                && AdmitReplays(c, s, s.projects[project], |sources|) == Admitted(tenant)
                && t == CopySources(s, sources, s.projects[project], tenant))
  {
    tenant := FreshTenant(c, s.now);
    if project in s.projects && AllSources(s, project, deadOnly, sources) {
      var verdict := AdmitReplays(c, s, s.projects[project], |sources|);
      if verdict.Admitted? { tenant := verdict.tenant; }
    }
  }

  // ---- what the new rows are ------------------------------------------------------------

  predicate FreshRow(d: Delivery, now: real) {
    d == NewDelivery(d.org, d.event, d.endpoint, d.replayOf, d.snapshot, now)
  }

  /** The table gains exactly the ids from `lo` to `hi`, fresh and pending. */
  ghost predicate RowsAdded(ds: map<nat, Delivery>, es: map<nat, Delivery>, lo: nat, hi: nat, now: real) {
    && (forall id :: id in es <==> id in ds || lo <= id < hi)
    && (forall id :: id in ds ==> es[id] == ds[id])
    && (forall id :: lo <= id < hi ==> FreshRow(es[id], now))
  }

  ghost predicate IdsBelow(ds: map<nat, Delivery>, n: nat) { forall id :: id in ds ==> id < n }

  lemma OneMoreRow(ds: map<nat, Delivery>, es: map<nat, Delivery>, lo: nat, hi: nat, now: real, row: Delivery)
    requires lo <= hi && RowsAdded(ds, es, lo, hi, now) && IdsBelow(ds, lo) && FreshRow(row, now)
    ensures RowsAdded(ds, es[hi := row], lo, hi + 1, now)
  {
  }

  lemma {:induction false} FannedOutAt(s: State, org: nat, event: nat, targets: seq<nat>, base: nat, n: nat)
    requires n <= |targets| && (forall e :: e in targets ==> e in s.endpoints) && IdsBelow(s.deliveries, base)
    ensures RowsAdded(s.deliveries, FannedOut(s, org, event, targets, base, n), base, base + n, s.now)
  {
    if n > 0 {
      FannedOutAt(s, org, event, targets, base, n - 1);
      assert targets[n - 1] in targets;
      OneMoreRow(
        s.deliveries, FannedOut(s, org, event, targets, base, n - 1), base, base + n - 1, s.now,
        NewDelivery(org, event, targets[n - 1], None, SnapshotOf(s.endpoints[targets[n - 1]]), s.now));
    }
  }

  /** Row `base + i` is the delivery to target `i`. */
  lemma {:induction false} FannedOutRow(s: State, org: nat, event: nat, targets: seq<nat>, base: nat, n: nat, i: nat)
    requires i < n <= |targets| && (forall e :: e in targets ==> e in s.endpoints) && IdsBelow(s.deliveries, base)
    ensures targets[i] in s.endpoints
    ensures base + i in FannedOut(s, org, event, targets, base, n)
    ensures FannedOut(s, org, event, targets, base, n)[base + i] ==
              NewDelivery(org, event, targets[i], None, SnapshotOf(s.endpoints[targets[i]]), s.now)
  {
    assert targets[i] in targets;
    if i < n - 1 { FannedOutRow(s, org, event, targets, base, n - 1, i); }
  }

  lemma StoredRows(s: State, r: Request, tenant: Tenant, targets: seq<nat>)
    requires r.project in s.projects && (forall e :: e in targets ==> e in s.endpoints) && IdsBelow(s.deliveries, s.nextId)
    ensures var t := StoreAccepted(s, r, tenant, targets);
            RowsAdded(s.deliveries, t.deliveries, s.nextId + 1, t.nextId, s.now)
  {
    FannedOutAt(s, s.projects[r.project], s.nextId, targets, s.nextId + 1, |targets|);
  }

  /** The delivery of an accepted event to one endpoint. */
  function TargetDelivery(s: State, r: Request, ep: nat): Delivery
    requires r.project in s.projects && ep in s.endpoints
  {
    NewDelivery(s.projects[r.project], s.nextId, ep, None, SnapshotOf(s.endpoints[ep]), s.now)
  }

  lemma StoredRow(s: State, r: Request, tenant: Tenant, targets: seq<nat>, i: nat)
    requires r.project in s.projects && (forall e :: e in targets ==> e in s.endpoints) && IdsBelow(s.deliveries, s.nextId)
    requires i < |targets|
    ensures targets[i] in s.endpoints
    ensures var ds := StoreAccepted(s, r, tenant, targets).deliveries;
            s.nextId + 1 + i in ds && ds[s.nextId + 1 + i] == TargetDelivery(s, r, targets[i])
  {
    FannedOutRow(s, s.projects[r.project], s.nextId, targets, s.nextId + 1, |targets|, i);
  }

  /** Acceptance adds rows from the id after the event's on. */
  lemma AcceptedRows(s: State, r: Request, tenant: Tenant)
    requires r.project in s.projects && IdsBelow(s.deliveries, s.nextId)
    ensures var t := Accept(s, r, tenant); RowsAdded(s.deliveries, t.deliveries, s.nextId + 1, t.nextId, s.now)
  {
    StoredRows(s, r, tenant, TargetList(s, r.project, r.eventType));
  }

  /** Row `nextId + 1 + i` is the delivery to target `i`. */
  lemma AcceptedRow(s: State, r: Request, tenant: Tenant, i: nat)
    requires r.project in s.projects && IdsBelow(s.deliveries, s.nextId)
    requires i < |TargetList(s, r.project, r.eventType)|
    ensures TargetList(s, r.project, r.eventType)[i] in s.endpoints
    ensures var ds := Accept(s, r, tenant).deliveries;
            && s.nextId + 1 + i in ds
            && ds[s.nextId + 1 + i] == TargetDelivery(s, r, TargetList(s, r.project, r.eventType)[i])
  {
    StoredRow(s, r, tenant, TargetList(s, r.project, r.eventType), i);
  }

  lemma {:induction false} ReplayedAt(s: State, sources: seq<nat>, n: nat)
    requires n <= |sources| && AllRows(s, sources) && IdsBelow(s.deliveries, s.nextId)
    ensures RowsAdded(s.deliveries, Replayed(s, sources, n), s.nextId, s.nextId + n, s.now)
  {
    if n > 0 {
      ReplayedAt(s, sources, n - 1);
      assert sources[n - 1] in sources;
      var copy := ReplayCopy(sources[n - 1], s.deliveries[sources[n - 1]], s.now);
      assert FreshRow(copy, s.now);
      OneMoreRow(s.deliveries, Replayed(s, sources, n - 1), s.nextId, s.nextId + n - 1, s.now, copy);
    }
  }

  /** Row `nextId + i` copies source `i`. */
  lemma {:induction false} ReplayedRow(s: State, sources: seq<nat>, n: nat, i: nat)
    requires i < n <= |sources| && AllRows(s, sources) && IdsBelow(s.deliveries, s.nextId)
    ensures sources[i] in s.deliveries && s.nextId + i in Replayed(s, sources, n)
    ensures Replayed(s, sources, n)[s.nextId + i] == ReplayCopy(sources[i], s.deliveries[sources[i]], s.now)
  {
    assert sources[i] in sources;
    if i < n - 1 { ReplayedRow(s, sources, n - 1, i); }
  }
}
