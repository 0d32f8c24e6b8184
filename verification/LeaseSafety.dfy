/** Lease safety over every interleaving: who holds a delivery, which claim may
    act on it, and what its attempt records look like. */
module LeaseSafety {
  import opened Base
  import opened Types
  import opened Scheduler
  import opened Platform
  import opened Admission
  import opened Lifecycle
  import opened Machine
  import opened Claims
  import opened Rows

  // ---- the invariant ---------------------------------------------------------------

  /** A token and an expiry exactly while processing, and then the token's claim
      is of this row and carries the current attempt number. */
  ghost predicate LeaseOk(issued: map<nat, Claim>, id: nat, d: Delivery) {
    && (d.leaseToken.Some? <==> d.status.Processing?)
    && (d.leaseExpiresAt.Some? <==> d.status.Processing?)
    && (d.status.Processing? ==>
          && d.leaseToken.value in issued
          && issued[d.leaseToken.value].id == id
          && issued[d.leaseToken.value].attemptNumber == d.attemptCount)
  }

  /** Attempt numbers ascend and stay within the attempt count, strictly below it
      while a lease is held; all but a last one that ended the delivery are
      below the maximum. */
  predicate AttemptsOk(c: Settings, d: Delivery) {
    var n := |d.attempts|;
    && (forall i, j :: 0 <= i < j < n ==> d.attempts[i].number < d.attempts[j].number)
    && (forall i :: 0 <= i < n ==> 1 <= d.attempts[i].number <= d.attemptCount)
    && (d.status.Processing? ==> forall i :: 0 <= i < n ==> d.attempts[i].number < d.attemptCount)
    && (forall i :: 0 <= i < n - 1 ==> d.attempts[i].number < c.maxAttempts)
    && (n > 0 && !Terminal(d.status) ==> d.attempts[n - 1].number < c.maxAttempts)
    && (d.deadReason.Some? <==> d.status.Dead?)
  }

  ghost predicate RowOk(c: Settings, issued: map<nat, Claim>, id: nat, d: Delivery) {
    LeaseOk(issued, id, d) && AttemptsOk(c, d)
  }

  ghost predicate RowsOk(c: Settings, issued: map<nat, Claim>, ds: map<nat, Delivery>) {
    forall id :: id in ds ==> RowOk(c, issued, id, ds[id])
  }

  /** Claims carry their own token and an attempt number from one up. */
  ghost predicate TokensOk(issued: map<nat, Claim>, nextToken: nat, nextId: nat, now: real) {
    forall t :: t in issued ==>
      && t < nextToken && issued[t].token == t
      && issued[t].id < nextId && issued[t].attemptNumber >= 1
      && issued[t].claimedAt <= now
  }

  /** Of two claims of one delivery the later has the higher number. */
  ghost predicate NumbersAscend(issued: map<nat, Claim>) {
    forall t, u :: t in issued && u in issued && t < u && issued[t].id == issued[u].id ==>
      issued[t].attemptNumber < issued[u].attemptNumber
  }

  /** A claim repeats what the row captured and is not ahead of its count. */
  ghost predicate Matches(k: Claim, d: Delivery) {
    k.attemptNumber <= d.attemptCount && k.createdAt == d.createdAt && k.snapshot == d.snapshot
  }

  ghost predicate ClaimsMatch(issued: map<nat, Claim>, ds: map<nat, Delivery>) {
    forall t :: t in issued && issued[t].id in ds ==> Matches(issued[t], ds[issued[t].id])
  }

  ghost predicate Leases(c: Settings, s: State) {
    && RowsOk(c, s.issued, s.deliveries)
    && IdsBelow(s.deliveries, s.nextId)
    && TokensOk(s.issued, s.nextToken, s.nextId, s.now)
    && NumbersAscend(s.issued)
    && ClaimsMatch(s.issued, s.deliveries)
  }

  // ---- one row at a time --------------------------------------------------------------

  /** Replacing one row by a good one of the same identity and count. */
  lemma RowReplaced(c: Settings, s: State, t: State, id: nat, e: Delivery)
    requires Leases(c, s) && id in s.deliveries
    requires t.deliveries == s.deliveries[id := e] && t.issued == s.issued
    requires t.nextId == s.nextId && t.nextToken == s.nextToken && t.now == s.now
    requires RowOk(c, s.issued, id, e)
    requires SameIdentity(s.deliveries[id], e) && e.attemptCount == s.deliveries[id].attemptCount
    ensures Leases(c, t)
  {
    assert RowsOk(c, t.issued, t.deliveries);
    assert ClaimsMatch(t.issued, t.deliveries);
  }

  lemma FinalizedRowOk(
    c: Settings, issued: map<nat, Claim>, d: Delivery, k: Claim, r: AttemptResult, now: real, started: real, jitter: real)
    requires RowOk(c, issued, k.id, d) && d.status.Processing? && k.attemptNumber == d.attemptCount
    requires d.attemptCount >= 1
    ensures RowOk(c, issued, k.id, FinalizedRow(c, d, k, r, now, started, jitter))
  {
    var e := FinalizedRow(c, d, k, r, now, started, jitter);
    var n := |d.attempts|;
    assert forall i :: 0 <= i < n ==> e.attempts[i] == d.attempts[i];
    assert e.attempts[n].number == d.attemptCount;
  }

  // ---- every step keeps it ---------------------------------------------------------------

  lemma SetupKeeps(c: Settings, s: State, step: Setup)
    requires Leases(c, s)
    ensures Leases(c, ApplySetup(c, s, step))
  {
  }

  lemma RenewKeeps(c: Settings, s: State, k: Claim)
    requires Leases(c, s)
    ensures Leases(c, Renew(c, s, k))
  {
    if HoldsLive(s, k) {
      var t := Renew(c, s, k);
      RowReplaced(c, s, t, k.id, t.deliveries[k.id]);
    }
  }

  lemma ReleaseKeeps(c: Settings, s: State, k: Claim)
    requires Leases(c, s)
    ensures Leases(c, Release(s, k))
  {
    if Holds(s, k) {
      var t := Release(s, k);
      RowReplaced(c, s, t, k.id, t.deliveries[k.id]);
    }
  }

  lemma FinalizeKeeps(c: Settings, s: State, k: Claim, started: real, resp: Response, jitter: real)
    requires Leases(c, s) && k.token in s.issued && s.issued[k.token] == k
    ensures Leases(c, Finalize(c, s, k, started, resp, jitter))
  {
    if HoldsLive(s, k) && s.deliveries[k.id].endpoint in s.runtime {
      var t := Finalize(c, s, k, started, resp, jitter);
      var r := PerformAttempt(c, k, started, resp);
      assert RowOk(c, s.issued, k.id, s.deliveries[k.id]);
      FinalizedRowOk(c, s.issued, s.deliveries[k.id], k, r, s.now, started, jitter);
      RowReplaced(c, s, t, k.id, t.deliveries[k.id]);
    }
  }

  lemma CancelKeeps(c: Settings, s: State, id: nat)
    requires Leases(c, s)
    ensures Leases(c, Cancel(s, id))
  {
    if id in s.deliveries && Queued(s.deliveries[id].status) {
      var t := Cancel(s, id);
      assert RowOk(c, s.issued, id, s.deliveries[id]);
      RowReplaced(c, s, t, id, t.deliveries[id]);
    }
  }

  /** Dropping rows and replacing others by good rows of the same identity. */
  lemma RowsShrunk(c: Settings, s: State, t: State)
    requires Leases(c, s) && t.issued == s.issued && t.nextToken == s.nextToken && t.now == s.now
    requires s.nextId <= t.nextId
    requires forall id :: id in t.deliveries ==>
               && id in s.deliveries && RowOk(c, s.issued, id, t.deliveries[id])
               && SameIdentity(s.deliveries[id], t.deliveries[id])
               && t.deliveries[id].attemptCount == s.deliveries[id].attemptCount
    ensures Leases(c, t)
  {
    assert IdsBelow(t.deliveries, t.nextId);
    assert ClaimsMatch(t.issued, t.deliveries);
  }

  /** Adding fresh pending rows with new ids. */
  lemma RowsGrown(c: Settings, s: State, t: State, lo: nat)
    requires Leases(c, s) && s.nextId <= lo <= t.nextId
    requires t.issued == s.issued && t.nextToken == s.nextToken && t.now == s.now
    requires RowsAdded(s.deliveries, t.deliveries, lo, t.nextId, s.now)
    ensures Leases(c, t)
  {
    forall id | id in t.deliveries ensures id < t.nextId && RowOk(c, t.issued, id, t.deliveries[id]) {
      if id in s.deliveries { assert RowOk(c, s.issued, id, s.deliveries[id]); }
    }
    forall k | k in t.issued && t.issued[k].id in t.deliveries
      ensures Matches(t.issued[k], t.deliveries[t.issued[k].id])
    {
      assert t.issued[k].id in s.deliveries;
    }
  }

  lemma IngestKeeps(c: Settings, s: State, r: Request)
    requires ValidSettings(c) && Leases(c, s)
    ensures Leases(c, Ingest(c, s, r).0)
  {
    var tenant := IngestOutcome(c, s, r);
    if Ingest(c, s, r).1.Accepted? { AcceptKeeps(c, s, r, tenant); }
  }

  lemma AcceptKeeps(c: Settings, s: State, r: Request, tenant: Tenant)
    requires r.project in s.projects && Leases(c, s)
    ensures Leases(c, Accept(s, r, tenant))
  {
    AcceptedRows(s, r, tenant);
    RowsGrown(c, s, Accept(s, r, tenant), s.nextId + 1);
  }

  lemma ReplayKeeps(c: Settings, s: State, project: nat, sources: seq<nat>, deadOnly: bool)
    requires ValidSettings(c) && Leases(c, s)
    ensures Leases(c, Replay(c, s, project, sources, deadOnly))
  {
    var tenant := ReplayOutcome(c, s, project, sources, deadOnly);
    if Replay(c, s, project, sources, deadOnly) != s { CopyKeeps(c, s, sources, s.projects[project], tenant); }
  }

  lemma CopyKeeps(c: Settings, s: State, sources: seq<nat>, org: nat, tenant: Tenant)
    requires AllRows(s, sources) && Leases(c, s)
    ensures Leases(c, CopySources(s, sources, org, tenant))
  {
    ReplayedAt(s, sources, |sources|);
    RowsGrown(c, s, CopySources(s, sources, org, tenant), s.nextId);
  }

  /** Rows go, lose a reference, or are canceled while not leased. */
  ghost predicate OnlyUpkeep(s: State, t: State) {
    && t.issued == s.issued && t.nextToken == s.nextToken && t.now == s.now && s.nextId <= t.nextId
    && forall id :: id in t.deliveries ==>
         && id in s.deliveries
         && (Stays(s.deliveries[id], t.deliveries[id]) || IsCanceled(s.now, s.deliveries[id], t.deliveries[id]))
  }

  lemma QuietRowOk(c: Settings, issued: map<nat, Claim>, id: nat, now: real, d: Delivery, e: Delivery)
    requires RowOk(c, issued, id, d) && (Stays(d, e) || IsCanceled(now, d, e))
    ensures RowOk(c, issued, id, e) && SameIdentity(d, e) && e.attemptCount == d.attemptCount
  {
  }

  lemma OnlyUpkeepKeeps(c: Settings, s: State, t: State)
    requires Leases(c, s) && OnlyUpkeep(s, t)
    ensures Leases(c, t)
  {
    forall id | id in t.deliveries
      ensures RowOk(c, s.issued, id, t.deliveries[id]) && SameIdentity(s.deliveries[id], t.deliveries[id])
      ensures t.deliveries[id].attemptCount == s.deliveries[id].attemptCount
    {
      QuietRowOk(c, s.issued, id, s.now, s.deliveries[id], t.deliveries[id]);
    }
    RowsShrunk(c, s, t);
  }

  lemma UpkeepKeeps(c: Settings, s: State, step: Upkeep)
    requires CanKeep(c, s, step) && Leases(c, s)
    ensures Leases(c, ApplyUpkeep(c, s, step))
  {
    UpkeepMoves(c, s, step);
    OnlyUpkeepKeeps(c, s, ApplyUpkeep(c, s, step));
  }

  lemma UpkeepMoves(c: Settings, s: State, step: Upkeep)
    requires CanKeep(c, s, step)
    ensures OnlyUpkeep(s, ApplyUpkeep(c, s, step))
  {
    if step.CleanupRun? { CleanupMoves(s, step.op, step.batch); }
  }

  lemma CleanupMoves(s: State, op: nat, batch: set<nat>)
    requires DueOperation(s, op) && batch <= CleanupTargets(s, s.operations[op].org)
    ensures OnlyUpkeep(s, Cleanup(s, op, batch))
  {
    var stage := StageOf(s, s.operations[op].org);
    if stage.Canceling? {
      CancelingMoves(s, op, batch);
    } else if stage.DeletingDeliveries? {
      DeletingMoves(s, op, batch);
    } else {
      QuietCleanup(s, op, batch);
    }
  }

  lemma DeletingMoves(s: State, op: nat, batch: set<nat>)
    requires DueOperation(s, op) && StageOf(s, s.operations[op].org).DeletingDeliveries?
    ensures OnlyUpkeep(s, Cleanup(s, op, batch))
  {
    assert Cleanup(s, op, batch) == DeleteDeliveries(MarkRunning(s, op), batch);
  }

  lemma CancelingMoves(s: State, op: nat, batch: set<nat>)
    requires DueOperation(s, op) && batch <= Cancellable(s, s.operations[op].org)
    requires StageOf(s, s.operations[op].org).Canceling?
    ensures OnlyUpkeep(s, Cleanup(s, op, batch))
  {
    assert Cleanup(s, op, batch) == CancelBatch(MarkRunning(s, op), batch);
  }

  // ---- the claim step ---------------------------------------------------------------------

  lemma ClaimKeeps(c: Settings, s: State, limit: nat, ids: seq<nat>)
    requires ValidSettings(c) && CanWork(c, s, ClaimWork(limit, ids)) && Leases(c, s)
    ensures Leases(c, ClaimDue(c, s, limit, ids))
  {
    if ClaimCommits(c, s, limit, ids) {
      ChosenRows(c, s, limit, ids);
      LeaseKeeps(c, s, ids, Chosen(c, s, limit, ids));
    }
  }

  lemma LeaseKeeps(c: Settings, s: State, ids: seq<nat>, t: Sched)
    requires Leases(c, s) && AllRows(s, ids) && AllCanSend(s, t.selected) && SelectedRows(s, ids, t.selected)
    requires forall id :: id in ids ==> Due(s.deliveries[id], s.now)
    ensures Leases(c, Lease(c, s, t))
  {
    IssuedAfterAt(s, t.selected, |t.selected|);
    LeaseRowsOk(c, s, ids, t);
    LeaseTokensOk(c, s, ids, t);
    LeaseClaimsMatch(c, s, ids, t);
  }

  lemma LeasedRowOk(
    c: Settings, old_: map<nat, Claim>, issued: map<nat, Claim>, id: nat, d: Delivery, now: real, token: nat)
    requires RowOk(c, old_, id, d) && Due(d, now)
    requires token in issued && issued[token].id == id && issued[token].attemptNumber == d.attemptCount + 1
    ensures RowOk(c, issued, id, ClaimedRow(c, d, now, token))
  {
  }

  lemma LeaseRowsOk(c: Settings, s: State, ids: seq<nat>, t: Sched)
    requires Leases(c, s) && AllRows(s, ids) && AllCanSend(s, t.selected) && SelectedRows(s, ids, t.selected)
    requires forall id :: id in ids ==> Due(s.deliveries[id], s.now)
    ensures var e := Lease(c, s, t); RowsOk(c, e.issued, e.deliveries)
  {
    var e := Lease(c, s, t);
    forall id | id in e.deliveries ensures RowOk(c, e.issued, id, e.deliveries[id]) {
      LeaseRowOk(c, s, ids, t.selected, id);
    }
  }

  lemma LeaseRowOk(c: Settings, s: State, ids: seq<nat>, sel: seq<Candidate>, id: nat)
    requires RowsOk(c, s.issued, s.deliveries) && TokensOk(s.issued, s.nextToken, s.nextId, s.now)
    requires AllRows(s, ids) && AllCanSend(s, sel) && SelectedRows(s, ids, sel) && id in s.deliveries
    requires forall x :: x in ids ==> Due(s.deliveries[x], s.now)
    ensures RowOk(c, IssuedAfter(s, sel, |sel|), id, ClaimedRows(c, s, sel, |sel|)[id])
  {
    assert RowOk(c, s.issued, id, s.deliveries[id]);
    ClaimedRowsAt(c, s, ids, sel, |sel|, id);
    if i :| 0 <= i < |sel| && SelectedAt(sel, i, id) {
      assert sel[i] in sel;
      LeasedAt(c, s, sel, i);
    } else {
      OldClaims(s, sel);
      UntouchedRowOk(c, s.issued, IssuedAfter(s, sel, |sel|), id, s.deliveries[id]);
    }
  }

  lemma LeasedAt(c: Settings, s: State, sel: seq<Candidate>, i: nat)
    requires AllCanSend(s, sel) && i < |sel| && sel[i].id in s.deliveries
    requires forall t :: t in s.issued ==> t < s.nextToken
    requires RowOk(c, s.issued, sel[i].id, s.deliveries[sel[i].id]) && Due(s.deliveries[sel[i].id], s.now)
    ensures RowOk(c, IssuedAfter(s, sel, |sel|), sel[i].id,
                  ClaimedRow(c, s.deliveries[sel[i].id], s.now, s.nextToken + i))
  {
    NewestClaim(s, sel, i);
    LeasedRowOk(c, s.issued, IssuedAfter(s, sel, |sel|), sel[i].id, s.deliveries[sel[i].id], s.now, s.nextToken + i);
  }

  lemma NewestClaim(s: State, sel: seq<Candidate>, i: nat)
    requires AllCanSend(s, sel) && i < |sel| && sel[i].id in s.deliveries
    requires forall t :: t in s.issued ==> t < s.nextToken
    ensures var m := IssuedAfter(s, sel, |sel|);
            && s.nextToken + i in m && m[s.nextToken + i].id == sel[i].id
            && m[s.nextToken + i].attemptNumber == s.deliveries[sel[i].id].attemptCount + 1
  {
    IssuedAfterAt(s, sel, |sel|);
    assert CanSend(s, sel[i].id);
  }

  lemma OldClaims(s: State, sel: seq<Candidate>)
    requires AllCanSend(s, sel) && forall t :: t in s.issued ==> t < s.nextToken
    ensures forall t :: t in s.issued ==>
              t in IssuedAfter(s, sel, |sel|) && IssuedAfter(s, sel, |sel|)[t] == s.issued[t]
  {
    IssuedAfterAt(s, sel, |sel|);
  }

  lemma UntouchedRowOk(c: Settings, old_: map<nat, Claim>, issued: map<nat, Claim>, id: nat, d: Delivery)
    requires RowOk(c, old_, id, d) && forall t :: t in old_ ==> t in issued && issued[t] == old_[t]
    ensures RowOk(c, issued, id, d)
  {
  }

  /** A claim handed out by this call is of the row selected at its place. */
  lemma NewClaim(s: State, ids: seq<nat>, sel: seq<Candidate>, u: nat)
    requires AllCanSend(s, sel) && SelectedRows(s, ids, sel)
    requires forall t :: t in s.issued ==> t < s.nextToken
    requires u in IssuedAfter(s, sel, |sel|) && u >= s.nextToken
    ensures u - s.nextToken < |sel| && CanSend(s, sel[u - s.nextToken].id)
    ensures IssuedAfter(s, sel, |sel|)[u] == ClaimOf(s, sel[u - s.nextToken].id, u)
  {
    IssuedAfterAt(s, sel, |sel|);
    assert sel[u - s.nextToken] in sel;
  }

  lemma LeaseTokensOk(c: Settings, s: State, ids: seq<nat>, t: Sched)
    requires Leases(c, s) && AllRows(s, ids) && AllCanSend(s, t.selected) && SelectedRows(s, ids, t.selected)
    ensures var e := Lease(c, s, t); TokensOk(e.issued, e.nextToken, e.nextId, e.now)
    ensures NumbersAscend(Lease(c, s, t).issued)
  {
    var sel := t.selected;
    var issued := IssuedAfter(s, sel, |sel|);
    IssuedAfterAt(s, sel, |sel|);
    forall u | u in issued
      ensures u < s.nextToken + |sel| && issued[u].token == u && issued[u].id < s.nextId
      ensures issued[u].attemptNumber >= 1 && issued[u].claimedAt <= s.now
    {
      if u >= s.nextToken { NewClaim(s, ids, sel, u); }
    }
    forall a, b | a in issued && b in issued && a < b && issued[a].id == issued[b].id
      ensures issued[a].attemptNumber < issued[b].attemptNumber
    {
      NumbersStillAscend(c, s, ids, sel, a, b);
    }
  }

  lemma NumbersStillAscend(c: Settings, s: State, ids: seq<nat>, sel: seq<Candidate>, a: nat, b: nat)
    requires TokensOk(s.issued, s.nextToken, s.nextId, s.now) && NumbersAscend(s.issued)
    requires ClaimsMatch(s.issued, s.deliveries)
    requires AllCanSend(s, sel) && SelectedRows(s, ids, sel)
    requires var m := IssuedAfter(s, sel, |sel|); a in m && b in m && a < b && m[a].id == m[b].id
    ensures var m := IssuedAfter(s, sel, |sel|); m[a].attemptNumber < m[b].attemptNumber
  {
    IssuedAfterAt(s, sel, |sel|);
    if b >= s.nextToken {
      NewClaim(s, ids, sel, b);
      if a >= s.nextToken {
        NewClaim(s, ids, sel, a);
      } else {
        assert Matches(s.issued[a], s.deliveries[s.issued[a].id]);
      }
    }
  }

  lemma LeaseClaimsMatch(c: Settings, s: State, ids: seq<nat>, t: Sched)
    requires Leases(c, s) && AllRows(s, ids) && AllCanSend(s, t.selected) && SelectedRows(s, ids, t.selected)
    ensures var e := Lease(c, s, t); ClaimsMatch(e.issued, e.deliveries)
  {
    var e := Lease(c, s, t);
    forall u | u in e.issued && e.issued[u].id in e.deliveries
      ensures Matches(e.issued[u], e.deliveries[e.issued[u].id])
    {
      ClaimStillMatches(c, s, ids, t.selected, u);
    }
  }

  lemma ClaimStillMatches(c: Settings, s: State, ids: seq<nat>, sel: seq<Candidate>, u: nat)
    requires ClaimsMatch(s.issued, s.deliveries) && (forall x :: x in s.issued ==> x < s.nextToken)
    requires AllCanSend(s, sel) && SelectedRows(s, ids, sel)
    requires var m := IssuedAfter(s, sel, |sel|); u in m && m[u].id in s.deliveries
    ensures var m := IssuedAfter(s, sel, |sel|); Matches(m[u], ClaimedRows(c, s, sel, |sel|)[m[u].id])
  {
    IssuedAfterAt(s, sel, |sel|);
    var id := IssuedAfter(s, sel, |sel|)[u].id;
    ClaimedRowsAt(c, s, ids, sel, |sel|, id);
    if u < s.nextToken {
      assert Matches(s.issued[u], s.deliveries[id]);
    } else {
      assert sel[u - s.nextToken] in sel;
      assert SelectedAt(sel, u - s.nextToken, id);
    }
  }

  // ---- every step, every run -----------------------------------------------------------------

  lemma WorkKeeps(c: Settings, s: State, step: Work)
    requires ValidSettings(c) && CanWork(c, s, step) && Leases(c, s)
    ensures Leases(c, ApplyWork(c, s, step))
  {
    match step
    case ClaimWork(limit, ids) => ClaimKeeps(c, s, limit, ids);
    case RenewLease(token) => RenewKeeps(c, s, s.issued[token]);
    case ReleaseClaim(token) => ReleaseKeeps(c, s, s.issued[token]);
    case FinishAttempt(token, started, resp, jitter) =>
      FinalizeKeeps(c, s, s.issued[token], started, resp, jitter);
  }

  lemma OperatorKeeps(c: Settings, s: State, step: Operator)
    requires Leases(c, s)
    ensures Leases(c, ApplyOperator(c, s, step))
  {
    if step.CancelDelivery? { CancelKeeps(c, s, step.id); }
  }

  lemma IntakeKeeps(c: Settings, s: State, step: Intake)
    requires ValidSettings(c) && Leases(c, s)
    ensures Leases(c, ApplyIntake(c, s, step))
  {
    match step
    case IngestEvent(r) => IngestKeeps(c, s, r);
    case ReplayDeliveries(p, sources, dead) => ReplayKeeps(c, s, p, sources, dead);
  }

  lemma StepKeepsLeases(c: Settings, s: State, step: Step)
    requires ValidSettings(c) && Enabled(c, s, step) && Leases(c, s)
    ensures Leases(c, Apply(c, s, step))
  {
    match step
    case Clock(_) =>
    case OnSetup(setup) => SetupKeeps(c, s, setup);
    case OnIntake(intake) => IntakeKeeps(c, s, intake);
    case OnWork(work) => WorkKeeps(c, s, work);
    case OnOperator(operator) => OperatorKeeps(c, s, operator);
    case OnUpkeep(upkeep) => UpkeepKeeps(c, s, upkeep);
  }

  lemma InitialLeases(c: Settings)
    ensures Leases(c, EMPTY)
  {
  }

  /** Only the newest claim of a delivery can hold it: its number is the
      delivery's current count and every other claim of it came earlier. */
  lemma OnlyNewestHolds(c: Settings, s: State, token: nat)
    requires Leases(c, s) && token in s.issued && Holds(s, s.issued[token])
    ensures var k := s.issued[token];
            && k.attemptNumber == s.deliveries[k.id].attemptCount
            && forall u :: u in s.issued && s.issued[u].id == k.id ==> u <= token
  {
    var k := s.issued[token];
    assert RowOk(c, s.issued, k.id, s.deliveries[k.id]);
    forall u | u in s.issued && s.issued[u].id == k.id ensures u <= token {
      assert Matches(s.issued[u], s.deliveries[k.id]);
    }
  }

  /** A claim that has been superseded changes nothing, whatever its holder
      tries. */
  lemma SupersededClaimIsInert(
    c: Settings, s: State, token: nat, later: nat, started: real, resp: Response, jitter: real)
    requires Leases(c, s) && token in s.issued && later in s.issued && token < later
    requires s.issued[token].id == s.issued[later].id
    ensures var k := s.issued[token];
            Renew(c, s, k) == s && Release(s, k) == s && Finalize(c, s, k, started, resp, jitter) == s
  {
    if Holds(s, s.issued[token]) { OnlyNewestHolds(c, s, token); }
  }

  /** No delivery ever has more attempt records than the maximum. */
  lemma AttemptsBounded(c: Settings, s: State, id: nat)
    requires ValidSettings(c) && Leases(c, s) && id in s.deliveries
    ensures |s.deliveries[id].attempts| <= c.maxAttempts
  {
    var a := s.deliveries[id].attempts;
    assert RowOk(c, s.issued, id, s.deliveries[id]);
    if |a| >= 2 { NumberAtLeast(a, |a| - 2); }
  }

  lemma {:induction false} NumberAtLeast(a: seq<Attempt>, i: int)
    requires 0 <= i < |a|
    requires forall j, k :: 0 <= j < k < |a| ==> a[j].number < a[k].number
    requires forall j :: 0 <= j < |a| ==> 1 <= a[j].number
    ensures a[i].number >= i + 1
  {
    if i > 0 { NumberAtLeast(a, i - 1); }
  }

  // ---- terminal rows -------------------------------------------------------------------------

  /** A terminal row stays as it is until it is deleted, through every run. */
  lemma {:induction false} TerminalForever(c: Settings, s: State, steps: seq<Step>, id: nat)
    requires ValidSettings(c) && IsRun(c, s, steps) && Leases(c, s)
    requires id < s.nextId && (id in s.deliveries ==> Terminal(s.deliveries[id].status))
    ensures var t := After(c, s, steps);
            id in t.deliveries ==> id in s.deliveries && Stays(s.deliveries[id], t.deliveries[id])
    decreases |steps|
  {
    if steps != [] {
      TerminalStep(c, s, steps[0], id);
      StepKeepsLeases(c, s, steps[0]);
      TerminalForever(c, Apply(c, s, steps[0]), steps[1..], id);
    }
  }

  lemma TerminalStays(c: Settings, s: State, t: State, claiming: bool, id: nat)
    requires Steps(c, s, t, claiming)
    requires id < s.nextId && (id in s.deliveries ==> Terminal(s.deliveries[id].status))
    ensures id < t.nextId
    ensures id in t.deliveries ==> id in s.deliveries && Stays(s.deliveries[id], t.deliveries[id])
  {
    if id in t.deliveries && id in s.deliveries {
      assert Moves(c, s.now, s.deliveries[id], t.deliveries[id], claiming);
    }
  }

  lemma TerminalStep(c: Settings, s: State, step: Step, id: nat)
    requires ValidSettings(c) && Enabled(c, s, step) && IdsBelow(s.deliveries, s.nextId)
    requires id < s.nextId && (id in s.deliveries ==> Terminal(s.deliveries[id].status))
    ensures var t := Apply(c, s, step);
            && id < t.nextId
            && (id in t.deliveries ==> id in s.deliveries && Stays(s.deliveries[id], t.deliveries[id]))
  {
    StepRows(c, s, step);
    TerminalStays(c, s, Apply(c, s, step), IsClaim(step), id);
  }

  // ---- retry times ------------------------------------------------------------------------------

  /** A retry scheduled by finalization lies strictly before the age deadline
      and within the larger of the backoff cap and the Retry-After cap. */
  lemma RetryTimeBounded(
    c: Settings, s: State, token: nat, started: real, resp: Response, jitter: real)
    requires ValidSettings(c) && CanWork(c, s, FinishAttempt(token, started, resp, jitter))
    requires HoldsLive(s, s.issued[token]) && s.deliveries[s.issued[token].id].endpoint in s.runtime
    ensures var k := s.issued[token];
            var e := Finalize(c, s, k, started, resp, jitter).deliveries[k.id];
            e.status.RetryScheduled? ==>
              && s.now <= e.nextAttemptAt < Deadline(c, s.deliveries[k.id])
              && e.nextAttemptAt <= s.now + MaxReal(c.backoffCap, c.retryAfterMax as real)
              && k.attemptNumber < c.maxAttempts
  {
  }
}
