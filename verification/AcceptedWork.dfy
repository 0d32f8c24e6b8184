/** What was accepted is what is sent: the bytes, the endpoint data and the signing
    version captured with an event never change, whatever happens to the endpoint
    or the event afterwards. */
module AcceptedWork {
  import opened Base
  import opened Types
  import opened Scheduler
  import opened Platform
  import opened Admission
  import opened Lifecycle
  import opened Machine
  import opened Claims
  import opened Rows
  import opened LeaseSafety
  import opened Integrity
  import opened Endpoints
  import opened Invariant
  import opened Secrets
  import Events

  // ---- the stored bytes ------------------------------------------------------------------

  /** Stored bytes stay what they are until they are purged for good. */
  ghost predicate BytesKept(s: State, t: State) {
    forall e :: e in s.events && e in t.events ==>
      t.events[e].envelope == s.events[e].envelope || t.events[e].envelope.None?
  }

  lemma StageBytes(s: State, stage: Stage, org: nat, batch: set<nat>)
    ensures BytesKept(s, RunStage(s, stage, org, batch))
  {
  }

  lemma UpkeepBytes(c: Settings, s: State, step: Upkeep)
    requires CanKeep(c, s, step)
    ensures BytesKept(s, ApplyUpkeep(c, s, step))
  {
    if step.CleanupRun? {
      StageBytes(MarkRunning(s, step.op), StageOf(s, s.operations[step.op].org), s.operations[step.op].org, step.batch);
    }
  }

  lemma IntakeBytes(c: Settings, s: State, step: Intake)
    requires ValidSettings(c) && Numbered(s)
    ensures BytesKept(s, ApplyIntake(c, s, step))
  {
    match step
    case IngestEvent(r) => var tenant := IngestOutcome(c, s, r);
    case ReplayDeliveries(p, sources, dead) => var tenant := ReplayOutcome(c, s, p, sources, dead);
  }

  lemma StepBytes(c: Settings, s: State, step: Step)
    requires ValidSettings(c) && Enabled(c, s, step) && Numbered(s)
    ensures BytesKept(s, Apply(c, s, step))
  {
    match step
    case Clock(_) =>
    case OnSetup(setup) => SetupFrame(c, s, setup);
    case OnIntake(intake) => IntakeBytes(c, s, intake);
    case OnWork(work) => WorkFrame(c, s, work);
    case OnOperator(operator) => OperatorFrame(c, s, operator);
    case OnUpkeep(upkeep) => UpkeepBytes(c, s, upkeep);
  }

  lemma OldEventsOnly(c: Settings, s: State, step: Step, e: nat)
    requires ValidSettings(c) && Enabled(c, s, step) && e !in s.events && e < s.nextId
    ensures e !in Apply(c, s, step).events
  {
    if step.OnIntake? && step.intake.IngestEvent? {
      var tenant := IngestOutcome(c, s, step.intake.request);
    } else {
      Events.StepEvents(c, s, step);
    }
  }

  // ---- the claims -------------------------------------------------------------------------

  /** A claim made from a row and its event as they stand. */
  ghost predicate MadeFrom(s: State, k: Claim) {
    exists id :: CanSend(s, id) && k == ClaimOf(s, id, k.token)
  }

  ghost predicate OldOrMade(s: State, issued: map<nat, Claim>, token: nat)
    requires token in issued
  {
    (token in s.issued && issued[token] == s.issued[token]) || MadeFrom(s, issued[token])
  }

  lemma IssuedSources(s: State, sel: seq<Candidate>, token: nat)
    requires AllCanSend(s, sel) && (forall u :: u in s.issued ==> u < s.nextToken) && token in IssuedAfter(s, sel, |sel|)
    ensures OldOrMade(s, IssuedAfter(s, sel, |sel|), token)
  {
    IssuedAfterAt(s, sel, |sel|);
    if token !in s.issued {
      var x := sel[token - s.nextToken];
      assert CanSend(s, x.id) && IssuedAfter(s, sel, |sel|)[token] == ClaimOf(s, x.id, token);
    }
  }

  lemma LeaseSources(c: Settings, s: State, t: Sched, token: nat)
    requires AllCanSend(s, t.selected) && (forall u :: u in s.issued ==> u < s.nextToken)
    requires token in Lease(c, s, t).issued
    ensures OldOrMade(s, Lease(c, s, t).issued, token)
  {
    IssuedSources(s, t.selected, token);
  }

  lemma ClaimSources(c: Settings, s: State, limit: nat, ids: seq<nat>, token: nat)
    requires ValidSettings(c) && AllRows(s, ids) && (forall u :: u in s.issued ==> u < s.nextToken)
    requires token in ClaimDue(c, s, limit, ids).issued
    ensures OldOrMade(s, ClaimDue(c, s, limit, ids).issued, token)
  {
    if ClaimCommits(c, s, limit, ids) {
      LeaseSources(c, s, Chosen(c, s, limit, ids), token);
    }
  }

  lemma StepClaims(c: Settings, s: State, step: Step, token: nat)
    requires ValidSettings(c) && Enabled(c, s, step) && Leases(c, s) && token in Apply(c, s, step).issued
    ensures OldOrMade(s, Apply(c, s, step).issued, token)
  {
    match step
    case Clock(_) =>
    case OnSetup(setup) => SetupFrame(c, s, setup);
    case OnIntake(intake) => IntakeFrame(c, s, intake);
    case OnWork(work) =>
      if work.ClaimWork? { ClaimSources(c, s, work.limit, work.candidates, token); } else { WorkFrame(c, s, work); }
    case OnOperator(operator) => OperatorFrame(c, s, operator);
    case OnUpkeep(upkeep) => UpkeepFrame(c, s, upkeep);
  }

  // ---- one delivery through a run ---------------------------------------------------------------

  predicate Carries(k: Claim, bytes: Bytes, snapshot: Snapshot, since: real) {
    k.envelope == bytes && k.snapshot == snapshot && k.createdAt == since
  }

  predicate RowKeeps(s: State, id: nat, event: nat, snapshot: Snapshot, since: real) {
    id in s.deliveries ==>
      s.deliveries[id].event == event && s.deliveries[id].snapshot == snapshot && s.deliveries[id].createdAt == since
  }

  predicate EventKeeps(s: State, event: nat, bytes: Bytes) {
    event in s.events ==> s.events[event].envelope == Some(bytes) || s.events[event].envelope.None?
  }

  ghost predicate ClaimsCarry(s: State, id: nat, bytes: Bytes, snapshot: Snapshot, since: real) {
    forall u :: u in s.issued && s.issued[u].id == id ==> Carries(s.issued[u], bytes, snapshot, since)
  }

  /** The delivery, its event and every claim of it are as they were captured. */
  ghost predicate AsCaptured(s: State, id: nat, event: nat, bytes: Bytes, snapshot: Snapshot, since: real) {
    && RowKeeps(s, id, event, snapshot, since) && EventKeeps(s, event, bytes)
    && ClaimsCarry(s, id, bytes, snapshot, since) && id < s.nextId && event < s.nextId
  }

  lemma RowStaysCaptured(c: Settings, s: State, t: State, claiming: bool, id: nat, event: nat, snapshot: Snapshot, since: real)
    requires Steps(c, s, t, claiming) && RowKeeps(s, id, event, snapshot, since) && id < s.nextId
    ensures RowKeeps(t, id, event, snapshot, since)
  {
    if id in s.deliveries && id in t.deliveries { assert Moves(c, s.now, s.deliveries[id], t.deliveries[id], claiming); }
  }

  lemma MadeCarries(s: State, k: Claim, event: nat, bytes: Bytes, snapshot: Snapshot, since: real)
    requires MadeFrom(s, k) && RowKeeps(s, k.id, event, snapshot, since) && EventKeeps(s, event, bytes)
    ensures Carries(k, bytes, snapshot, since)
  {
  }

  lemma StaysCaptured(
    c: Settings, s: State, step: Step, id: nat, event: nat, bytes: Bytes, snapshot: Snapshot, since: real)
    requires ValidSettings(c) && Enabled(c, s, step) && Leases(c, s) && Refs(s)
    requires AsCaptured(s, id, event, bytes, snapshot, since)
    ensures AsCaptured(Apply(c, s, step), id, event, bytes, snapshot, since)
  {
    var t := Apply(c, s, step);
    StepRows(c, s, step);
    RowStaysCaptured(c, s, t, IsClaim(step), id, event, snapshot, since);
    StepBytes(c, s, step);
    if event !in s.events { OldEventsOnly(c, s, step, event); }
    forall u | u in t.issued && t.issued[u].id == id ensures Carries(t.issued[u], bytes, snapshot, since) {
      StepClaims(c, s, step, u);
      if MadeFrom(s, t.issued[u]) { MadeCarries(s, t.issued[u], event, bytes, snapshot, since); }
    }
  }

  lemma {:induction false} CapturedForever(
    c: Settings, s: State, steps: seq<Step>, id: nat, event: nat, bytes: Bytes, snapshot: Snapshot, since: real)
    requires ValidSettings(c) && IsRun(c, s, steps) && Leases(c, s) && Refs(s)
    requires AsCaptured(s, id, event, bytes, snapshot, since)
    ensures AsCaptured(After(c, s, steps), id, event, bytes, snapshot, since)
    decreases |steps|
  {
    if steps != [] {
      StaysCaptured(c, s, steps[0], id, event, bytes, snapshot, since);
      StepKeepsLeases(c, s, steps[0]);
      StepKeepsRefs(c, s, steps[0]);
      CapturedForever(c, Apply(c, s, steps[0]), steps[1..], id, event, bytes, snapshot, since);
    }
  }

  // ---- from acceptance on --------------------------------------------------------------------------

  /** The endpoint as it was when the event was accepted. */
  predicate SnapshotTaken(snapshot: Snapshot, e: Endpoint) {
    && snapshot.endpointPublicId == e.publicId && snapshot.url == e.url && snapshot.active == e.active
    && snapshot.secretVersion == e.secretVersion && snapshot.scheme == e.scheme
  }

  lemma CapturedAtStart(s: State, r: Request, tenant: Tenant, id: nat)
    requires r.project in s.projects && IdsBelow(s.deliveries, s.nextId)
    requires forall u :: u in s.issued ==> s.issued[u].id < s.nextId
    requires id in Accept(s, r, tenant).deliveries && id !in s.deliveries
    ensures var t := Accept(s, r, tenant);
            && t.deliveries[id].endpoint in s.endpoints
            && SnapshotTaken(t.deliveries[id].snapshot, s.endpoints[t.deliveries[id].endpoint])
            && AsCaptured(t, id, s.nextId, r.envelope, t.deliveries[id].snapshot, s.now)
  {
    AcceptedRows(s, r, tenant);
    AcceptedRow(s, r, tenant, id - s.nextId - 1);
  }

  lemma CapturedByIngest(c: Settings, s: State, r: Request, id: nat)
    requires ValidSettings(c) && Leases(c, s) && id in Ingest(c, s, r).0.deliveries && id !in s.deliveries
    ensures var t := Ingest(c, s, r).0;
            && t.deliveries[id].endpoint in s.endpoints
            && SnapshotTaken(t.deliveries[id].snapshot, s.endpoints[t.deliveries[id].endpoint])
            && AsCaptured(t, id, s.nextId, r.envelope, t.deliveries[id].snapshot, s.now)
  {
    var tenant := IngestOutcome(c, s, r);
    CapturedAtStart(s, r, tenant, id);
  }

  lemma IngestKeeps(c: Settings, s: State, r: Request)
    requires ValidSettings(c) && Leases(c, s) && Refs(s)
    ensures Leases(c, Ingest(c, s, r).0) && Refs(Ingest(c, s, r).0)
  {
    var step := OnIntake(IngestEvent(r));
    StepKeepsLeases(c, s, step);
    StepKeepsRefs(c, s, step);
  }

  lemma SentLater(c: Settings, s: State, r: Request, after: seq<Step>, id: nat, token: nat)
    requires ValidSettings(c) && Leases(c, s) && Refs(s) && id in Ingest(c, s, r).0.deliveries && id !in s.deliveries
    requires IsRun(c, Ingest(c, s, r).0, after)
    requires var u := After(c, Ingest(c, s, r).0, after); token in u.issued && u.issued[token].id == id
    ensures var t, k := Ingest(c, s, r).0, After(c, Ingest(c, s, r).0, after).issued[token];
            && t.deliveries[id].endpoint in s.endpoints
            && k.envelope == r.envelope && k.createdAt == s.now
            && SnapshotTaken(k.snapshot, s.endpoints[t.deliveries[id].endpoint])
  {
    var t := Ingest(c, s, r).0;
    CapturedByIngest(c, s, r, id);
    IngestKeeps(c, s, r);
    CapturedForever(c, t, after, id, s.nextId, r.envelope, t.deliveries[id].snapshot, s.now);
  }

  /** Whatever happens before and after: every claim ever handed out for a delivery
      of an accepted event carries exactly the envelope of the request and the
      public id, address, active flag, secret version and scheme the endpoint had
      when the event was accepted. */
  lemma SentAsAccepted(c: Settings, before: seq<Step>, r: Request, after: seq<Step>, id: nat, token: nat)
    requires ValidSettings(c) && IsRun(c, EMPTY, before)
    requires var s := After(c, EMPTY, before);
             var t := Ingest(c, s, r).0;
             && id in t.deliveries && id !in s.deliveries && IsRun(c, t, after)
             && token in After(c, t, after).issued && After(c, t, after).issued[token].id == id
    ensures var s := After(c, EMPTY, before);
            var t := Ingest(c, s, r).0;
            var k := After(c, t, after).issued[token];
            && t.deliveries[id].endpoint in s.endpoints
            && k.envelope == r.envelope && k.createdAt == s.now
            && SnapshotTaken(k.snapshot, s.endpoints[t.deliveries[id].endpoint])
  {
    ReachableInv(c, before);
    SentLater(c, After(c, EMPTY, before), r, after, id, token);
  }
}
