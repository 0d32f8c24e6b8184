/** The circuit breaker over all runs: consistency of every endpoint row, what
    can be claimed when, and the exclusiveness of a half-open probe. */
module CircuitBreaker {
  import opened Base
  import opened Types
  import opened TokenBucket
  import opened Scheduler
  import opened Selection
  import opened Platform
  import opened Admission
  import opened Machine
  import opened Claims
  import opened Rows
  import opened LeaseSafety
  import opened Integrity
  import opened Endpoints

  /** Open exactly with an end, a probe only while half-open, and closed only
      below the failure threshold. */
  predicate CircuitOk(c: Settings, e: Runtime) {
    && (e.circuit.Open? <==> e.openUntil.Some?)
    && (e.probe.Some? ==> e.circuit.HalfOpen?)
    && (e.circuit.Closed? ==> e.failures < c.circuitThreshold)
  }

  /** Balances within the burst and last refilled in the past. */
  predicate BucketsOk(c: Settings, now: real, e: Runtime) {
    && 0.0 <= e.deliveryTokens <= c.endpointBurst as real && e.refilledAt <= now
    && 0.0 <= e.retryTokens <= c.retryBurst as real && e.retryRefilledAt <= now
  }

  ghost predicate CircuitsOk(c: Settings, s: State) {
    forall ep :: ep in s.runtime ==> CircuitOk(c, s.runtime[ep]) && BucketsOk(c, s.now, s.runtime[ep])
  }

  // ---- one row ------------------------------------------------------------------------

  lemma FinalizedOk(c: Settings, e: Runtime, id: nat, r: AttemptResult, now: real)
    requires ValidSettings(c) && CircuitOk(c, e) && BucketsOk(c, now, e)
    ensures var f := FinalizedRuntime(c, e, id, r, now); CircuitOk(c, f) && BucketsOk(c, now, f)
  {
  }

  lemma RefilledOk(c: Settings, e: Runtime, now: real)
    requires ValidSettings(c) && CircuitOk(c, e) && BucketsOk(c, now, e)
    ensures CircuitOk(c, Refilled(c, e, now)) && BucketsOk(c, now, Refilled(c, e, now))
  {
  }

  lemma ClaimOk(c: Settings, now: real, e0: Runtime, e: Runtime, sel: seq<Candidate>, ep: nat)
    requires ValidSettings(c) && CircuitOk(c, e0) && BucketsOk(c, now, e0) && ClaimChange(c, now, e0, e, sel, ep)
    ensures CircuitOk(c, e) && BucketsOk(c, now, e)
  {
    var base: Runtime, leases: nat :|
      && EndpointWithin(c, now, base, e, leases, sel, ep)
      && (base == Refilled(c, e0, now) || (base == e0 && EndpointPicks(sel, ep) == 0));
    RefilledOk(c, e0, now);
    RetriesArePicks(sel, ep);
    assert CircuitMoved(now, base, e);
  }

  lemma QuietOk(c: Settings, s: State, step: Step, ep: nat, e0: Runtime, e: Runtime)
    requires ValidSettings(c) && Enabled(c, s, step) && QuietChange(c, s, step, ep, e0, e)
    requires CircuitOk(c, e0) && BucketsOk(c, s.now, e0)
    ensures CircuitOk(c, e) && BucketsOk(c, s.now, e)
  {
    if Finalizes(s, step, ep) {
      FinalizedOk(c, e0, s.issued[step.work.token].id, Result(c, s, step, ep), s.now);
    }
  }

  // ---- all rows, all runs ----------------------------------------------------------------

  lemma StepKeepsCircuits(c: Settings, s: State, step: Step)
    requires ValidSettings(c) && Enabled(c, s, step) && Refs(s) && CircuitsOk(c, s)
    ensures CircuitsOk(c, Apply(c, s, step))
  {
    var t := Apply(c, s, step);
    TimeMoves(c, s, step);
    forall ep | ep in t.runtime ensures CircuitOk(c, t.runtime[ep]) && BucketsOk(c, t.now, t.runtime[ep]) {
      StepEndpoint(c, s, step, ep);
      if ep in s.runtime { RowStaysOk(c, s, step, ep); }
    }
  }

  lemma RowStaysOk(c: Settings, s: State, step: Step, ep: nat)
    requires ValidSettings(c) && Enabled(c, s, step)
    requires ep in s.runtime && ep in Apply(c, s, step).runtime
    requires CircuitOk(c, s.runtime[ep]) && BucketsOk(c, s.now, s.runtime[ep])
    requires Changes(c, s, step, ep, s.runtime[ep], Apply(c, s, step).runtime[ep])
    ensures CircuitOk(c, Apply(c, s, step).runtime[ep]) && BucketsOk(c, s.now, Apply(c, s, step).runtime[ep])
  {
    if IsClaim(step) {
      ClaimOk(c, s.now, s.runtime[ep], Apply(c, s, step).runtime[ep], Leased(c, s, step), ep);
    } else {
      QuietOk(c, s, step, ep, s.runtime[ep], Apply(c, s, step).runtime[ep]);
    }
  }

  // ---- what can be claimed -------------------------------------------------------------------

  lemma LeasedEndpoint(c: Settings, s: State, step: Step, d: Candidate)
    requires ValidSettings(c) && Enabled(c, s, step) && Refs(s) && d in Leased(c, s, step)
    ensures d.id in s.deliveries && s.deliveries[d.id].endpoint == d.endpoint && d.endpoint in s.runtime
  {
    var limit, ids := step.work.limit, step.work.candidates;
    ChosenRows(c, s, limit, ids);
    assert RowRefs(s.projects, s.endpoints, s.events, s.deliveries[d.id]);
  }

  /** No claim comes from a paused endpoint or an open circuit whose time is not
      over; behind a recorded probe nothing else is claimed. */
  lemma ClaimNeedsClosedCircuit(c: Settings, s: State, step: Step, d: Candidate)
    requires ValidSettings(c) && Enabled(c, s, step) && Refs(s) && d in Leased(c, s, step)
    ensures d.endpoint in s.runtime
    ensures var e := s.runtime[d.endpoint];
            && e.pausedAt.None? && !OpenUnelapsed(e, s.now)
            && (e.circuit.HalfOpen? && e.probe.Some? ==> e.probe.value == d.id)
  {
    LeasedEndpoint(c, s, step, d);
    ClaimedEndpoint(c, s, step, d.endpoint);
    PickAllowed(c, s.now, s.runtime[d.endpoint], Apply(c, s, step).runtime[d.endpoint], Leased(c, s, step), d);
  }

  lemma PickAllowed(c: Settings, now: real, e0: Runtime, e: Runtime, sel: seq<Candidate>, d: Candidate)
    requires ValidSettings(c) && ClaimChange(c, now, e0, e, sel, d.endpoint) && d in sel
    ensures e0.pausedAt.None? && !OpenUnelapsed(e0, now)
    ensures e0.circuit.HalfOpen? && e0.probe.Some? ==> e0.probe.value == d.id
    ensures e.circuit.HalfOpen? ==> e.probe == Some(d.id)
  {
    var base: Runtime, leases: nat :|
      && EndpointWithin(c, now, base, e, leases, sel, d.endpoint)
      && (base == Refilled(c, e0, now) || (base == e0 && EndpointPicks(sel, d.endpoint) == 0));
    PickCounted(sel, d);
    assert CircuitMoved(now, base, e);
  }

  /** Pausing withholds an endpoint from every claim, and resuming brings back
      the state from before, even if it was paused twice. */
  lemma ResumeUndoesPause(c: Settings, s: State, ep: nat, limit: nat, ids: seq<nat>)
    requires ValidSettings(c) && Refs(s) && CanWork(c, s, ClaimWork(limit, ids)) && ep in s.runtime
    ensures Enabled(c, Pause(s, ep), OnWork(ClaimWork(limit, ids)))
    ensures forall d :: d in Leased(c, Pause(s, ep), OnWork(ClaimWork(limit, ids))) ==> d.endpoint != ep
    ensures Resume(Pause(s, ep), ep) == Resume(s, ep) && Resume(Pause(Pause(s, ep), ep), ep) == Resume(s, ep)
    ensures s.runtime[ep].pausedAt.None? ==> Resume(Pause(s, ep), ep) == s
  {
    PauseKeepsRefs(s, ep);
    PausedWithheld(c, Pause(s, ep), ep, OnWork(ClaimWork(limit, ids)));
    ResumedTable(s, ep);
  }

  lemma PauseKeepsRefs(s: State, ep: nat)
    requires Refs(s)
    ensures Refs(Pause(s, ep))
  {
  }

  lemma PausedWithheld(c: Settings, s: State, ep: nat, step: Step)
    requires ValidSettings(c) && Enabled(c, s, step) && Refs(s) && ep in s.runtime && s.runtime[ep].pausedAt.Some?
    ensures forall d :: d in Leased(c, s, step) ==> d.endpoint != ep
  {
    forall d | d in Leased(c, s, step) ensures d.endpoint != ep { ClaimNeedsClosedCircuit(c, s, step, d); }
  }

  lemma ResumedTable(s: State, ep: nat)
    requires ep in s.runtime
    ensures Resume(Pause(s, ep), ep) == Resume(s, ep) && Resume(Pause(Pause(s, ep), ep), ep) == Resume(s, ep)
    ensures s.runtime[ep].pausedAt.None? ==> Resume(s, ep) == s
  {
    assert Resume(Pause(s, ep), ep).runtime == Resume(s, ep).runtime;
    assert Resume(Pause(Pause(s, ep), ep), ep).runtime == Resume(s, ep).runtime;
    if s.runtime[ep].pausedAt.None? { assert Resume(s, ep).runtime == s.runtime; }
  }

  // ---- the probe of a half-open circuit ------------------------------------------------------

  /** Delivery `p` is the recorded probe of the half-open endpoint. */
  predicate Probing(s: State, ep: nat, p: nat) {
    ep in s.runtime && s.runtime[ep].circuit.HalfOpen? && s.runtime[ep].probe == Some(p)
  }

  /** The step neither finishes an attempt on the endpoint, nor recovers it, nor
      cancels or deletes the probe, nor deletes the endpoint. */
  predicate Undisturbed(c: Settings, s: State, step: Step, ep: nat, p: nat)
    requires ValidSettings(c) && Enabled(c, s, step)
  {
    && !Finalizes(s, step, ep) && !Recovers(step, ep) && !Cancels(s, step, p) && !Removes(c, s, step, p)
    && ep in Apply(c, s, step).runtime
  }

  predicate UndisturbedRun(c: Settings, s: State, steps: seq<Step>, ep: nat, p: nat)
    requires ValidSettings(c) && IsRun(c, s, steps)
    decreases |steps|
  {
    steps == [] ||
    (Undisturbed(c, s, steps[0], ep, p) && UndisturbedRun(c, Apply(c, s, steps[0]), steps[1..], ep, p))
  }

  function OnEndpoint(sel: seq<Candidate>, ep: nat): seq<nat> {
    if sel == [] then []
    else OnEndpoint(sel[..|sel| - 1], ep) + if sel[|sel| - 1].endpoint == ep then [sel[|sel| - 1].id] else []
  }

  /** The deliveries leased on an endpoint along a run. */
  function LeasedOn(c: Settings, s: State, steps: seq<Step>, ep: nat): seq<nat>
    requires ValidSettings(c) && IsRun(c, s, steps)
    decreases |steps|
  {
    if steps == [] then []
    else OnEndpoint(Leased(c, s, steps[0]), ep) + LeasedOn(c, Apply(c, s, steps[0]), steps[1..], ep)
  }

  lemma {:induction false} OnEndpointIs(sel: seq<Candidate>, ep: nat, p: nat)
    requires forall d :: d in sel && d.endpoint == ep ==> d.id == p
    ensures forall id :: id in OnEndpoint(sel, ep) ==> id == p
  {
    if sel != [] {
      var rest := sel[..|sel| - 1];
      assert sel == rest + [sel[|sel| - 1]];
      OnEndpointIs(rest, ep, p);
    }
  }

  lemma ProbeStays(c: Settings, s: State, step: Step, ep: nat, p: nat)
    requires ValidSettings(c) && Enabled(c, s, step) && Refs(s)
    requires Probing(s, ep, p) && Undisturbed(c, s, step, ep, p)
    ensures Probing(Apply(c, s, step), ep, p)
  {
    StepEndpoint(c, s, step, ep);
    if IsClaim(step) {
      ProbeUncharged(c, s.now, s.runtime[ep], Apply(c, s, step).runtime[ep], Leased(c, s, step), ep);
    }
  }

  lemma ProbeUncharged(c: Settings, now: real, e0: Runtime, e: Runtime, sel: seq<Candidate>, ep: nat)
    requires ValidSettings(c) && ClaimChange(c, now, e0, e, sel, ep) && e0.circuit.HalfOpen? && e0.probe.Some?
    ensures e.circuit.HalfOpen? && e.probe == e0.probe
  {
    var base: Runtime, leases: nat :|
      && EndpointWithin(c, now, base, e, leases, sel, ep)
      && (base == Refilled(c, e0, now) || (base == e0 && EndpointPicks(sel, ep) == 0));
    assert CircuitMoved(now, base, e);
  }

  /** While an endpoint is half-open with probe `p`, only `p` is claimed on it,
      however long the run, until something ends the probe. */
  lemma {:induction false} ProbeIsExclusive(c: Settings, s: State, steps: seq<Step>, ep: nat, p: nat)
    requires ValidSettings(c) && IsRun(c, s, steps) && Leases(c, s) && Refs(s)
    requires Probing(s, ep, p) && UndisturbedRun(c, s, steps, ep, p)
    ensures forall id :: id in LeasedOn(c, s, steps, ep) ==> id == p
    ensures Probing(After(c, s, steps), ep, p)
    decreases |steps|
  {
    if steps != [] {
      var sel := Leased(c, s, steps[0]);
      forall d | d in sel && d.endpoint == ep ensures d.id == p {
        ClaimNeedsClosedCircuit(c, s, steps[0], d);
      }
      OnEndpointIs(sel, ep, p);
      ProbeStays(c, s, steps[0], ep, p);
      StepKeepsLeases(c, s, steps[0]);
      StepKeepsRefs(c, s, steps[0]);
      ProbeIsExclusive(c, Apply(c, s, steps[0]), steps[1..], ep, p);
    }
  }

  // ---- pausing over runs --------------------------------------------------------------------

  /** The endpoint, if it is still there, is paused since the given time. */
  predicate PausedSince(s: State, ep: nat, since: real) {
    ep in s.runtime ==> s.runtime[ep].pausedAt == Some(since)
  }

  predicate NoResume(steps: seq<Step>, ep: nat) {
    forall i :: 0 <= i < |steps| ==> steps[i] != OnOperator(ResumeEndpoint(ep))
  }

  lemma OperatorKeepsPause(c: Settings, s: State, step: Operator, ep: nat, since: real)
    requires PausedSince(s, ep, since) && step != ResumeEndpoint(ep)
    ensures PausedSince(ApplyOperator(c, s, step), ep, since)
  {
  }

  lemma ClaimKeepsPause(c: Settings, now: real, e0: Runtime, e: Runtime, sel: seq<Candidate>, ep: nat)
    requires ValidSettings(c) && ClaimChange(c, now, e0, e, sel, ep)
    ensures e.pausedAt == e0.pausedAt
  {
  }

  lemma FinishKeepsPause(c: Settings, e: Runtime, id: nat, r: AttemptResult, now: real)
    ensures FinalizedRuntime(c, e, id, r, now).pausedAt == e.pausedAt
  {
  }

  lemma WorkKeepsPause(c: Settings, s: State, step: Step, ep: nat)
    requires ValidSettings(c) && Enabled(c, s, step) && step.OnWork? && Refs(s) && ep in s.runtime
    ensures ep in Apply(c, s, step).runtime && Apply(c, s, step).runtime[ep].pausedAt == s.runtime[ep].pausedAt
  {
    if IsClaim(step) {
      ClaimedEndpoint(c, s, step, ep);
      ClaimKeepsPause(c, s.now, s.runtime[ep], Apply(c, s, step).runtime[ep], Leased(c, s, step), ep);
    } else if step.work.FinishAttempt? {
      FinishEndpoint(c, s, step, ep);
      if Finalizes(s, step, ep) {
        FinishKeepsPause(c, s.runtime[ep], s.issued[step.work.token].id, Result(c, s, step, ep), s.now);
      }
    } else {
      RowFrame(c, s, s.issued[step.work.token]);
    }
  }

  lemma StepKeepsPause(c: Settings, s: State, step: Step, ep: nat, since: real)
    requires ValidSettings(c) && Enabled(c, s, step) && Refs(s) && ep < s.nextId
    requires PausedSince(s, ep, since) && step != OnOperator(ResumeEndpoint(ep))
    ensures PausedSince(Apply(c, s, step), ep, since)
  {
    match step
    case Clock(_) =>
    case OnSetup(setup) => if ep in ApplySetup(c, s, setup).runtime { SetupEndpoint(c, s, setup, ep); }
    case OnIntake(intake) => IntakeFrame(c, s, intake);
    case OnWork(work) =>
      if ep in s.runtime { WorkKeepsPause(c, s, step, ep); } else { NoNewEndpoint(c, s, step, ep); }
    case OnOperator(operator) => OperatorKeepsPause(c, s, operator, ep, since);
    case OnUpkeep(upkeep) => UpkeepEndpoint(c, s, upkeep, ep);
  }

  lemma NoNewEndpoint(c: Settings, s: State, step: Step, ep: nat)
    requires ValidSettings(c) && Enabled(c, s, step) && Refs(s) && ep !in s.runtime && ep < s.nextId
    ensures ep !in Apply(c, s, step).runtime
  {
    if ep in Apply(c, s, step).runtime { StepEndpoint(c, s, step, ep); }
  }

  /** A paused endpoint stays paused since its first pause and leases nothing,
      however long the run, until it is resumed. */
  lemma {:induction false} PausedUntilResumed(c: Settings, s: State, steps: seq<Step>, ep: nat, since: real)
    requires ValidSettings(c) && IsRun(c, s, steps) && Leases(c, s) && Refs(s) && ep < s.nextId
    requires PausedSince(s, ep, since) && NoResume(steps, ep)
    ensures LeasedOn(c, s, steps, ep) == [] && PausedSince(After(c, s, steps), ep, since)
    decreases |steps|
  {
    if steps != [] {
      WithheldStep(c, s, steps[0], ep, since);
      NoneOnEndpoint(Leased(c, s, steps[0]), ep);
      StepKeepsPause(c, s, steps[0], ep, since);
      StepKeepsLeases(c, s, steps[0]);
      StepKeepsRefs(c, s, steps[0]);
      IdsGrow(c, s, steps[0]);
      PausedUntilResumed(c, Apply(c, s, steps[0]), steps[1..], ep, since);
    }
  }

  lemma IdsGrow(c: Settings, s: State, step: Step)
    requires ValidSettings(c) && Enabled(c, s, step) && IdsBelow(s.deliveries, s.nextId)
    ensures s.nextId <= Apply(c, s, step).nextId
  {
    StepRows(c, s, step);
  }

  lemma WithheldStep(c: Settings, s: State, step: Step, ep: nat, since: real)
    requires ValidSettings(c) && Enabled(c, s, step) && Refs(s) && PausedSince(s, ep, since)
    ensures forall d :: d in Leased(c, s, step) ==> d.endpoint != ep
  {
    forall d | d in Leased(c, s, step) ensures d.endpoint != ep { ClaimNeedsClosedCircuit(c, s, step, d); }
  }

  lemma {:induction false} NoneOnEndpoint(sel: seq<Candidate>, ep: nat)
    requires forall d :: d in sel ==> d.endpoint != ep
    ensures OnEndpoint(sel, ep) == []
  {
    if sel != [] {
      var rest := sel[..|sel| - 1];
      assert sel[|sel| - 1] in sel && forall d :: d in rest ==> d in sel;
      NoneOnEndpoint(rest, ep);
    }
  }
}
