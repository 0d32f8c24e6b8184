/** The rows of the delivery database (`app/models.py`) and the settings the
    protocol depends on (`app/config.py`). Times and token amounts are reals,
    row identities and lease tokens are naturals handed out in order. */
module Types {
  import opened Base

  datatype Settings = Settings(
    globalConcurrency: nat, tenantInFlight: nat, endpointConcurrency: nat,
    leaseSeconds: real,
    endpointRate: real, endpointBurst: nat,
    retryRate: real, retryBurst: nat, retrySuccessRefill: nat,
    circuitThreshold: nat, circuitOpenSeconds: real,
    maxAttempts: nat, backoffBase: real, backoffCap: real,
    retryAfterMax: nat, maxAge: real, finalizationMargin: real,
    secretOverlap: real,
    eventRate: real, eventBurst: nat,
    deliveryRate: real, deliveryBurst: nat,
    replayRate: real, replayBurst: nat, bulkReplayMax: nat,
    fanoutPerEvent: nat, retainedBytes: nat,
    maxBacklog: nat, oldestDueSeconds: real, quotaRetryAfterMax: nat,
    deliveryRetention: real, deletionGrace: real, cleanupBatch: nat)

  /** Field bounds and cross-field checks of the settings validator that the
      proofs rely on. */
  predicate ValidSettings(c: Settings) {
    && 1 <= c.endpointConcurrency <= c.tenantInFlight <= c.globalConcurrency
    && c.leaseSeconds > 0.0
    && c.endpointRate > 0.0 && c.endpointBurst >= 1
    && c.retryRate > 0.0 && 1 <= c.retrySuccessRefill <= c.retryBurst
    && c.circuitThreshold >= 1 && c.circuitOpenSeconds > 0.0
    && c.maxAttempts >= 1 && 0.0 < c.backoffBase <= c.backoffCap
    && c.maxAge > 0.0 && c.finalizationMargin > 0.0
    && c.retryAfterMax >= 1 && c.retryAfterMax as real <= c.maxAge
    && c.secretOverlap >= c.maxAge + c.finalizationMargin
    && c.eventRate > 0.0 && c.eventBurst >= 1
    && c.deliveryRate > 0.0 && c.fanoutPerEvent <= c.deliveryBurst
    && c.replayRate > 0.0 && c.replayBurst >= 1 && c.bulkReplayMax >= 1
    && c.maxBacklog >= 1 && c.oldestDueSeconds > 0.0 && c.quotaRetryAfterMax >= 1
    && c.deliveryRetention > 0.0 && c.deletionGrace > 0.0 && c.cleanupBatch >= 1
  }

  datatype Status = Pending | Processing | RetryScheduled | Succeeded | Dead | Canceled

  predicate Terminal(s: Status) { s.Succeeded? || s.Dead? || s.Canceled? }

  predicate Queued(s: Status) { s.Pending? || s.RetryScheduled? }

  datatype Scheme = Legacy | Standard

  /** What a delivery captured from its endpoint when its event was accepted. */
  datatype Snapshot = Snapshot(
    endpointPublicId: string, url: string, active: bool, secretVersion: nat, scheme: Scheme)

  datatype Attempt = Attempt(number: nat, startedAt: real, finishedAt: real, outcome: Status)

  /** A delivery row together with its attempt records, which the database
      deletes with it. */
  datatype Delivery = Delivery(
    org: nat, event: nat, endpoint: nat, replayOf: Option<nat>, snapshot: Snapshot,
    status: Status, attemptCount: nat, nextAttemptAt: real,
    leaseToken: Option<nat>, leaseExpiresAt: Option<real>,
    createdAt: real, updatedAt: real, deadReason: Option<string>,
    attempts: seq<Attempt>)

  datatype Circuit = Closed | Open | HalfOpen

  /** The scheduler's row for one endpoint: two token buckets, the circuit
      breaker and the pause switch. */
  datatype Runtime = Runtime(
    deliveryTokens: real, refilledAt: real, retryTokens: real, retryRefilledAt: real,
    circuit: Circuit, failures: nat, openUntil: Option<real>, probe: Option<nat>,
    pausedAt: Option<real>)

  function FreshRuntime(c: Settings, now: real): Runtime {
    Runtime(c.endpointBurst as real, now, c.retryBurst as real, now, Closed, 0, None, None, None)
  }

  /** The quota row of one organization, with its endpoint cursor. */
  datatype Tenant = Tenant(
    eventTokens: real, eventRefilledAt: real,
    deliveryTokens: real, deliveryRefilledAt: real,
    replayTokens: real, replayRefilledAt: real,
    endpointCursor: Option<nat>)

  function FreshTenant(c: Settings, now: real): Tenant {
    Tenant(c.eventBurst as real, now, c.deliveryBurst as real, now, c.replayBurst as real, now, None)
  }

  datatype Mode = Native | CloudEvents

  /** What an idempotency key is compared on. The payload stands for its
      canonical JSON bytes. */
  datatype Content = Content(eventType: string, mode: Mode, payload: Bytes)

  datatype Event = Event(
    project: nat, key: string, eventType: string, mode: Mode, payloadHash: Bytes,
    payload: Option<Bytes>, envelope: Option<Bytes>, purgedAt: Option<real>, createdAt: real)

  datatype Lifecycle = Active | DeletionPending

  datatype Organization = Organization(lifecycle: Lifecycle, payloadRetention: real)

  datatype OperationStatus = OpPending | OpRunning | OpCompleted | OpCanceled

  datatype Operation = Operation(org: nat, status: OperationStatus, scheduledAt: real, createdAt: real)

  /** A stored subscription list; an entry that is not a string is `None`. */
  datatype Filter = Everything | Patterns(entries: seq<Option<string>>) | Malformed

  datatype Endpoint = Endpoint(
    project: nat, publicId: string, url: string, active: bool,
    eventTypes: Filter, secretVersion: nat, scheme: Scheme)

  datatype SecretVersion = SecretVersion(activatedAt: real, retireAt: Option<real>)

  /** What a worker holds after a claim. */
  datatype Claim = Claim(
    id: nat, token: nat, attemptNumber: nat, claimedAt: real, createdAt: real,
    snapshot: Snapshot, envelope: Bytes)

  predicate Live(d: Delivery, now: real) {
    d.status.Processing? && d.leaseExpiresAt.Some? && d.leaseExpiresAt.value > now
  }

  /** The due condition of the candidate query. */
  predicate Due(d: Delivery, now: real) {
    || (Queued(d.status) && d.nextAttemptAt <= now)
    || (d.status.Processing? && d.leaseExpiresAt.Some? && d.leaseExpiresAt.value <= now)
  }
}
