/** What any step may do to the scheduler's row of an endpoint. */
module Endpoints {
  import opened Base
  import opened Types
  import opened TokenBucket
  import opened Scheduler
  import opened Selection
  import opened Platform
  import opened Admission
  import opened Lifecycle
  import opened Machine
  import opened Claims
  import opened Rows
  import opened LeaseSafety
  import opened Integrity

  // ---- what a step does to an endpoint ---------------------------------------------

  /** The candidates a step leases, in order. */
  function Leased(c: Settings, s: State, step: Step): seq<Candidate>
    requires ValidSettings(c) && Enabled(c, s, step)
  {
    if !IsClaim(step) then []
    else
      var limit, ids := step.work.limit, step.work.candidates;
      if ClaimCommits(c, s, limit, ids) then Chosen(c, s, limit, ids).selected else []
  }

  /** The step finishes a live attempt on the endpoint. */
  predicate Finalizes(s: State, step: Step, ep: nat) {
    && step.OnWork? && step.work.FinishAttempt? && step.work.token in s.issued
    && HoldsLive(s, s.issued[step.work.token])
    && s.deliveries[s.issued[step.work.token].id].endpoint == ep
  }

  function Result(c: Settings, s: State, step: Step, ep: nat): AttemptResult
    requires Finalizes(s, step, ep)
  {
    PerformAttempt(c, s.issued[step.work.token], step.work.started, step.work.response)
  }

  predicate Recovers(step: Step, ep: nat) { step == OnOperator(RecoverCircuit(ep)) }

  predicate Cancels(s: State, step: Step, id: nat) {
    step == OnOperator(CancelDelivery(id)) && id in s.deliveries && Queued(s.deliveries[id].status)
  }

  predicate Removes(c: Settings, s: State, step: Step, id: nat)
    requires ValidSettings(c) && Enabled(c, s, step)
  {
    step.OnUpkeep? && id in s.deliveries && id !in Apply(c, s, step).deliveries
  }

  /** The row after a claim: brought up to now if it was looked at, then charged
      for exactly what was leased. */
  ghost predicate ClaimChange(c: Settings, now: real, e0: Runtime, e: Runtime, sel: seq<Candidate>, ep: nat)
    requires ValidSettings(c)
  {
    exists base: Runtime, leases: nat ::
      && EndpointWithin(c, now, base, e, leases, sel, ep)
      && (base == Refilled(c, e0, now) || (base == e0 && EndpointPicks(sel, ep) == 0))
  }

  /** The row after any other step. */
  ghost predicate QuietChange(c: Settings, s: State, step: Step, ep: nat, e0: Runtime, e: Runtime)
    requires ValidSettings(c) && Enabled(c, s, step)
  {
    if Finalizes(s, step, ep) then
      e == FinalizedRuntime(c, e0, s.issued[step.work.token].id, Result(c, s, step, ep), s.now)
    else if Recovers(step, ep) then
      e == Recovered(c, e0, s.now)
    else
      || e == e0.(pausedAt := e.pausedAt)
      || (e == Opened(e0, s.now) && e0.probe.Some? && Cancels(s, step, e0.probe.value))
      || (e == e0.(probe := None) && e0.probe.Some? && Removes(c, s, step, e0.probe.value))
  }

  ghost predicate Changes(c: Settings, s: State, step: Step, ep: nat, e0: Runtime, e: Runtime)
    requires ValidSettings(c) && Enabled(c, s, step)
  {
    if IsClaim(step) then ClaimChange(c, s.now, e0, e, Leased(c, s, step), ep)
    else QuietChange(c, s, step, ep, e0, e)
  }

  // ---- claims ---------------------------------------------------------------------------

  lemma {:induction false} RetriesArePicks(sel: seq<Candidate>, ep: nat)
    ensures RetryPicks(sel, ep) <= EndpointPicks(sel, ep)
  {
    if sel != [] { RetriesArePicks(sel[..|sel| - 1], ep); }
  }

  lemma {:induction false} NonePicked(sel: seq<Candidate>, ep: nat)
    requires forall d :: d in sel ==> d.endpoint != ep
    ensures EndpointPicks(sel, ep) == 0 && RetryPicks(sel, ep) == 0
  {
    if sel != [] {
      var rest := sel[..|sel| - 1];
      forall d | d in rest ensures d.endpoint != ep { assert d in sel; }
      NonePicked(rest, ep);
      assert sel[|sel| - 1] in sel;
    }
  }

  lemma IdleClaim(c: Settings, now: real, e: Runtime, ep: nat)
    requires ValidSettings(c)
    ensures ClaimChange(c, now, e, e, [], ep)
  {
    assert EndpointWithin(c, now, e, e, 0, [], ep);
  }

  lemma ClaimedEndpoint(c: Settings, s: State, step: Step, ep: nat)
    requires ValidSettings(c) && Enabled(c, s, step) && IsClaim(step) && Refs(s) && ep in s.runtime
    ensures ep in Apply(c, s, step).runtime
    ensures Changes(c, s, step, ep, s.runtime[ep], Apply(c, s, step).runtime[ep])
  {
    var limit, ids := step.work.limit, step.work.candidates;
    if ClaimCommits(c, s, limit, ids) {
      ChosenChange(c, s, limit, ids, ep);
    } else {
      IdleClaim(c, s.now, s.runtime[ep], ep);
    }
  }

  lemma ChosenChange(c: Settings, s: State, limit: nat, ids: seq<nat>, ep: nat)
    requires ValidSettings(c) && AllRows(s, ids) && Distinct(ids) && FreeSlots(c, s, limit) > 0
    requires Refs(s) && ep in s.runtime
    ensures var t := Chosen(c, s, limit, ids);
            ep in t.runtime && ClaimChange(c, s.now, s.runtime[ep], t.runtime[ep], t.selected, ep)
  {
    var start := StartOf(c, s, ids);
    var t := Chosen(c, s, limit, ids);
    ChosenWithin(c, s, limit, ids);
    assert ep in start.runtime;
    var base := start.runtime[ep];
    var leases := Get(t.endpointCount, ep);
    assert EndpointWithin(c, s.now, base, t.runtime[ep], leases, t.selected, ep);
    if ep !in EndpointIds(s, ids) {
      ChosenRows(c, s, limit, ids);
      NonePicked(t.selected, ep);
    }
  }

  // ---- the other steps --------------------------------------------------------------------

  lemma FinalizedAt(c: Settings, s: State, k: Claim, started: real, resp: Response, jitter: real, ep: nat)
    requires ep in s.runtime
    ensures var t := Finalize(c, s, k, started, resp, jitter);
            && ep in t.runtime
            && t.runtime[ep] ==
                 if HoldsLive(s, k) && s.deliveries[k.id].endpoint == ep
                 then FinalizedRuntime(c, s.runtime[ep], k.id, PerformAttempt(c, k, started, resp), s.now)
                 else s.runtime[ep]
  {
  }

  lemma CanceledAt(s: State, id: nat, ep: nat)
    requires ep in s.runtime
    ensures var t := Cancel(s, id);
            && ep in t.runtime
            && (|| t.runtime[ep] == s.runtime[ep]
                || (&& id in s.deliveries && Queued(s.deliveries[id].status)
                    && s.runtime[ep].probe == Some(id) && t.runtime[ep] == Opened(s.runtime[ep], s.now)))
  {
  }

  lemma DeletedAt(s: State, gone: set<nat>, ep: nat)
    requires ep in s.runtime && gone <= s.deliveries.Keys
    ensures var e0, t := s.runtime[ep], DeleteDeliveries(s, gone);
            && ep in t.runtime
            && (|| t.runtime[ep] == e0
                || (&& t.runtime[ep] == e0.(probe := None) && e0.probe.Some?
                    && e0.probe.value in s.deliveries && e0.probe.value !in t.deliveries))
  {
  }

  lemma FinishEndpoint(c: Settings, s: State, step: Step, ep: nat)
    requires ep in s.runtime && step.OnWork? && step.work.FinishAttempt? && step.work.token in s.issued
    ensures var w := step.work;
            var t := Finalize(c, s, s.issued[w.token], w.started, w.response, w.jitter);
            && ep in t.runtime
            && t.runtime[ep] ==
                 if Finalizes(s, step, ep)
                 then FinalizedRuntime(c, s.runtime[ep], s.issued[w.token].id, Result(c, s, step, ep), s.now)
                 else s.runtime[ep]
  {
    var w := step.work;
    FinalizedAt(c, s, s.issued[w.token], w.started, w.response, w.jitter, ep);
  }

  lemma Untouched(c: Settings, s: State, step: Step, ep: nat, e: Runtime)
    requires ValidSettings(c) && Enabled(c, s, step) && !Finalizes(s, step, ep) && !Recovers(step, ep)
    ensures QuietChange(c, s, step, ep, e, e)
  {
  }

  lemma WorkEndpoint(c: Settings, s: State, step: Step, ep: nat)
    requires ValidSettings(c) && Enabled(c, s, step) && step.OnWork? && !IsClaim(step) && ep in s.runtime
    ensures ep in Apply(c, s, step).runtime
    ensures QuietChange(c, s, step, ep, s.runtime[ep], Apply(c, s, step).runtime[ep])
  {
    if step.work.FinishAttempt? { FinishEndpoint(c, s, step, ep); } else { RowFrame(c, s, s.issued[step.work.token]); }
    if !Finalizes(s, step, ep) { Untouched(c, s, step, ep, s.runtime[ep]); }
  }

  ghost predicate OperatorChange(c: Settings, s: State, step: Operator, ep: nat, e0: Runtime, e: Runtime) {
    if step == RecoverCircuit(ep) then
      e == Recovered(c, e0, s.now)
    else
      || e == e0.(pausedAt := e.pausedAt)
      || (e == Opened(e0, s.now) && e0.probe.Some? && Cancels(s, OnOperator(step), e0.probe.value))
  }

  lemma PauseAt(s: State, x: nat, ep: nat)
    requires ep in s.runtime
    ensures ep in Pause(s, x).runtime
    ensures var e0, e := s.runtime[ep], Pause(s, x).runtime[ep]; e == e0.(pausedAt := e.pausedAt)
  {
  }

  lemma ResumeAt(s: State, x: nat, ep: nat)
    requires ep in s.runtime
    ensures ep in Resume(s, x).runtime
    ensures var e0, e := s.runtime[ep], Resume(s, x).runtime[ep]; e == e0.(pausedAt := e.pausedAt)
  {
  }

  lemma RecoverAt(c: Settings, s: State, x: nat, ep: nat)
    requires ep in s.runtime
    ensures ep in Recover(c, s, x).runtime
    ensures Recover(c, s, x).runtime[ep] ==
              if x == ep then Recovered(c, s.runtime[ep], s.now) else s.runtime[ep]
  {
    if x in s.runtime {
      assert Recover(c, s, x).runtime == s.runtime[x := Recovered(c, s.runtime[x], s.now)];
    }
  }

  lemma OperatorAt(c: Settings, s: State, step: Operator, ep: nat)
    requires ep in s.runtime
    ensures var t := ApplyOperator(c, s, step);
            ep in t.runtime && OperatorChange(c, s, step, ep, s.runtime[ep], t.runtime[ep])
  {
    match step
    case CancelDelivery(id) => CanceledAt(s, id, ep);
    case PauseEndpoint(x) => PauseAt(s, x, ep);
    case ResumeEndpoint(x) => ResumeAt(s, x, ep);
    case RecoverCircuit(x) => RecoverAt(c, s, x, ep);
  }

  lemma OperatorEndpoint(c: Settings, s: State, step: Step, ep: nat)
    requires ValidSettings(c) && Enabled(c, s, step) && step.OnOperator? && ep in s.runtime
    ensures ep in Apply(c, s, step).runtime
    ensures QuietChange(c, s, step, ep, s.runtime[ep], Apply(c, s, step).runtime[ep])
  {
    assert Apply(c, s, step) == ApplyOperator(c, s, step.operator);
    OperatorAt(c, s, step.operator, ep);
  }

  ghost predicate Unprobes(s: State, t: State, ep: nat) {
    ep in t.runtime ==>
      && ep in s.runtime
      && (|| t.runtime[ep] == s.runtime[ep]
          || (&& t.runtime[ep] == s.runtime[ep].(probe := None) && s.runtime[ep].probe.Some?
              && s.runtime[ep].probe.value in s.deliveries && s.runtime[ep].probe.value !in t.deliveries))
  }

  lemma UpkeepEndpoint(c: Settings, s: State, step: Upkeep, ep: nat)
    requires CanKeep(c, s, step)
    ensures Unprobes(s, ApplyUpkeep(c, s, step), ep)
  {
    match step
    case PurgeEventPayloads(batch) => assert ApplyUpkeep(c, s, step).runtime == s.runtime;
    case PurgeTerminalDeliveries(batch) =>
      if ep in s.runtime { DeletedAt(s, (set id | id in batch && Retired(c, s, id)), ep); }
    case RequestOrgDeletion(org) => assert ApplyUpkeep(c, s, step).runtime == s.runtime;
    case CancelOrgDeletion(org) => assert ApplyUpkeep(c, s, step).runtime == s.runtime;
    case CleanupRun(op, batch) => CleanupEndpoint(s, op, batch, ep);
  }

  lemma CleanupEndpoint(s: State, op: nat, batch: set<nat>, ep: nat)
    requires DueOperation(s, op) && batch <= CleanupTargets(s, s.operations[op].org)
    ensures Unprobes(s, Cleanup(s, op, batch), ep)
  {
    var s1 := MarkRunning(s, op);
    var stage := StageOf(s, s.operations[op].org);
    if stage.DeletingDeliveries? {
      assert Cleanup(s, op, batch) == DeleteDeliveries(s1, batch);
      if ep in s.runtime { DeletedAt(s1, batch, ep); }
    } else {
      QuietRuntime(s, op, batch);
    }
  }

  lemma QuietRuntime(s: State, op: nat, batch: set<nat>)
    requires DueOperation(s, op) && !StageOf(s, s.operations[op].org).DeletingDeliveries?
    ensures forall ep :: ep in Cleanup(s, op, batch).runtime ==>
              ep in s.runtime && Cleanup(s, op, batch).runtime[ep] == s.runtime[ep]
  {
    var s1 := MarkRunning(s, op);
    var stage := StageOf(s, s.operations[op].org);
    if stage.DeletingOrganization? {
      assert Cleanup(s, op, batch) == DeleteOrganization(s1, s.operations[op].org);
    } else {
      assert Cleanup(s, op, batch).runtime == s.runtime;
    }
  }

  lemma SetupEndpoint(c: Settings, s: State, step: Setup, ep: nat)
    requires Numbered(s) && EndpointRefs(s.projects, s.endpoints, s.runtime)
    requires ep in ApplySetup(c, s, step).runtime
    ensures ep in s.runtime ==> ApplySetup(c, s, step).runtime[ep] == s.runtime[ep]
    ensures ep !in s.runtime ==> ApplySetup(c, s, step).runtime[ep] == FreshRuntime(c, s.now) && ep == s.nextId
  {
    match step
    case CreateOrganization(retention) =>
    case CreateProject(org) =>
    case CreateEndpoint(project, publicId, url, types, scheme) =>
    case UpdateEndpoint(x, url, active, types, scheme) =>
    case RotateEndpointSecret(x) =>
  }

  /** Every step, endpoint by endpoint. */
  lemma StepEndpoint(c: Settings, s: State, step: Step, ep: nat)
    requires ValidSettings(c) && Enabled(c, s, step) && Refs(s) && ep in Apply(c, s, step).runtime
    ensures ep !in s.runtime ==> ep == s.nextId && Apply(c, s, step).runtime[ep] == FreshRuntime(c, s.now)
    ensures ep in s.runtime ==> Changes(c, s, step, ep, s.runtime[ep], Apply(c, s, step).runtime[ep])
  {
    match step
    case Clock(_) =>
    case OnSetup(setup) => SetupEndpoint(c, s, setup, ep);
    case OnIntake(intake) => IntakeFrame(c, s, intake);
    case OnWork(work) =>
      WorkFrame(c, s, work);
      if work.ClaimWork? {
        ClaimTables(c, s, work.limit, work.candidates);
        ClaimedEndpoint(c, s, step, ep);
      } else {
        WorkEndpoint(c, s, step, ep);
      }
    case OnOperator(operator) =>
      OperatorFrame(c, s, operator);
      OperatorEndpoint(c, s, step, ep);
    case OnUpkeep(upkeep) => UpkeepEndpoint(c, s, upkeep, ep);
  }

  /** The claims a step hands out are those of the leased candidates. */
  lemma LeasedAreIssued(c: Settings, s: State, step: Step)
    requires ValidSettings(c) && Enabled(c, s, step) && Leases(c, s)
    ensures var t, sel := Apply(c, s, step), Leased(c, s, step);
            t.nextToken == s.nextToken + |sel| && Issues(s, t, sel)
  {
    if IsClaim(step) {
      ClaimIssues(c, s, step, step.work.limit, step.work.candidates);
    } else {
      TokensRest(c, s, step);
    }
  }

  lemma TokensRest(c: Settings, s: State, step: Step)
    requires ValidSettings(c) && Enabled(c, s, step) && !IsClaim(step)
    ensures Apply(c, s, step).nextToken == s.nextToken
  {
    match step
    case Clock(_) =>
    case OnSetup(setup) => SetupFrame(c, s, setup);
    case OnIntake(intake) => IntakeFrame(c, s, intake);
    case OnWork(work) => WorkFrame(c, s, work);
    case OnOperator(operator) => OperatorFrame(c, s, operator);
    case OnUpkeep(upkeep) => UpkeepFrame(c, s, upkeep);
  }

  /** Token `nextToken + i` went to candidate `i`. */
  ghost predicate Issues(s: State, t: State, sel: seq<Candidate>) {
    forall i {:trigger sel[i]} :: 0 <= i < |sel| ==>
      && sel[i].id in s.deliveries && sel[i] == CandidateOf(s, sel[i].id)
      && s.nextToken + i in t.issued && t.issued[s.nextToken + i].id == sel[i].id
  }

  lemma ClaimIssues(c: Settings, s: State, step: Step, limit: nat, ids: seq<nat>)
    requires ValidSettings(c) && step == OnWork(ClaimWork(limit, ids)) && Enabled(c, s, step)
    requires forall t :: t in s.issued ==> t < s.nextToken
    ensures var t, sel := ClaimDue(c, s, limit, ids), Leased(c, s, step);
            t.nextToken == s.nextToken + |sel| && Issues(s, t, sel)
  {
    if Leased(c, s, step) != [] {
      var t := Chosen(c, s, limit, ids);
      ChosenRows(c, s, limit, ids);
      LeaseIssues(c, s, ids, t);
      assert ClaimDue(c, s, limit, ids) == Lease(c, s, t);
    } else {
      IdleClaimIssues(c, s, step, limit, ids);
    }
  }

  lemma IdleClaimIssues(c: Settings, s: State, step: Step, limit: nat, ids: seq<nat>)
    requires ValidSettings(c) && step == OnWork(ClaimWork(limit, ids)) && Enabled(c, s, step)
    requires Leased(c, s, step) == []
    ensures ClaimDue(c, s, limit, ids).nextToken == s.nextToken
  {
  }

  lemma LeaseIssues(c: Settings, s: State, ids: seq<nat>, t: Sched)
    requires AllCanSend(s, t.selected) && SelectedRows(s, ids, t.selected)
    requires forall u :: u in s.issued ==> u < s.nextToken
    ensures Issues(s, Lease(c, s, t), t.selected)
  {
    var sel := t.selected;
    IssuedAfterAt(s, sel, |sel|);
    forall i | 0 <= i < |sel| ensures sel[i].id in s.deliveries && sel[i] == CandidateOf(s, sel[i].id) {
      assert sel[i] in sel;
    }
  }
}
