/** Rate laws over any window of any run: what leaves a token bucket is bounded
    by its burst, its rate and the time that passed. Each law follows the credit
    of one bucket, which only time and the refills named in the law can raise. */
module RateLaws {
  import opened Base
  import opened Types
  import opened TokenBucket
  import opened Scheduler
  import opened Selection
  import opened Platform
  import opened Admission
  import opened Machine
  import opened Rows
  import opened Integrity
  import opened Endpoints
  import opened CircuitBreaker
  import opened Tenants
  import opened Lifecycle
  import opened Claims
  import opened Deletion
  import opened Invariant

  // ---- counting along a run -----------------------------------------------------------

  type Counter = (State, Step) -> nat
  type Gain = (State, Step) -> real
  type Credit = State -> real

  function Count(c: Settings, s: State, steps: seq<Step>, f: Counter): nat
    requires ValidSettings(c) && IsRun(c, s, steps)
    decreases |steps|
  {
    if steps == [] then 0 else f(s, steps[0]) + Count(c, Apply(c, s, steps[0]), steps[1..], f)
  }

  function Sum(c: Settings, s: State, steps: seq<Step>, g: Gain): real
    requires ValidSettings(c) && IsRun(c, s, steps)
    decreases |steps|
  {
    if steps == [] then 0.0 else g(s, steps[0]) + Sum(c, Apply(c, s, steps[0]), steps[1..], g)
  }

  /** In any step from a reachable state, spending lowers the credit one for one
      and nothing raises it beyond the gain. */
  ghost predicate Accounts(c: Settings, credit: Credit, spent: Counter, gain: Gain)
    requires ValidSettings(c)
  {
    forall s, step :: Inv(c, s) && Enabled(c, s, step) ==>
      credit(Apply(c, s, step)) + spent(s, step) as real <= credit(s) + gain(s, step)
  }

  lemma {:induction false} Telescope(
    c: Settings, s: State, steps: seq<Step>, credit: Credit, spent: Counter, gain: Gain)
    requires ValidSettings(c) && IsRun(c, s, steps) && Inv(c, s) && Accounts(c, credit, spent, gain)
    ensures credit(After(c, s, steps)) + Count(c, s, steps, spent) as real <= credit(s) + Sum(c, s, steps, gain)
    decreases |steps|
  {
    if steps != [] {
      StepKeepsInv(c, s, steps[0]);
      Telescope(c, Apply(c, s, steps[0]), steps[1..], credit, spent, gain);
      assert credit(Apply(c, s, steps[0])) + spent(s, steps[0]) as real <= credit(s) + gain(s, steps[0]);
    }
  }

  /** With credit between zero and the burst, spending is at most the burst and
      the gains. */
  lemma WithinGains(
    c: Settings, s: State, steps: seq<Step>, credit: Credit, spent: Counter, gain: Gain, burst: nat)
    requires ValidSettings(c) && IsRun(c, s, steps) && Inv(c, s) && Accounts(c, credit, spent, gain)
    requires forall x :: Inv(c, x) ==> 0.0 <= credit(x) <= burst as real
    ensures Count(c, s, steps, spent) as real <= burst as real + Sum(c, s, steps, gain)
  {
    Telescope(c, s, steps, credit, spent, gain);
    RunKeepsInv(c, s, steps);
    assert 0.0 <= credit(After(c, s, steps)) && credit(s) <= burst as real;
  }

  /** Time that passes in a step. */
  function Tick(): Gain { (s: State, step: Step) => if step.Clock? then step.to - s.now else 0.0 }

  lemma {:induction false} TicksAreElapsed(c: Settings, s: State, steps: seq<Step>)
    requires ValidSettings(c) && IsRun(c, s, steps)
    ensures Sum(c, s, steps, Tick()) == After(c, s, steps).now - s.now
    decreases |steps|
  {
    if steps != [] {
      TimeMoves(c, s, steps[0]);
      TicksAreElapsed(c, Apply(c, s, steps[0]), steps[1..]);
    }
  }

  function Scale(rate: real, x: real): real { rate * x }

  /** The tokens that time adds. */
  function Accrual(rate: real): Gain { (s: State, step: Step) => Scale(rate, Tick()(s, step)) }

  lemma ScaleAdds(rate: real, x: real, y: real)
    ensures Scale(rate, x + y) == Scale(rate, x) + Scale(rate, y) && Scale(rate, 0.0) == 0.0
  {
  }

  lemma {:induction false} AccrualScales(c: Settings, s: State, steps: seq<Step>, rate: real)
    requires ValidSettings(c) && IsRun(c, s, steps)
    ensures Sum(c, s, steps, Accrual(rate)) == Scale(rate, Sum(c, s, steps, Tick()))
    decreases |steps|
  {
    if steps == [] {
      ScaleAdds(rate, 0.0, 0.0);
    } else {
      var s1 := Apply(c, s, steps[0]);
      AccrualScales(c, s1, steps[1..], rate);
      ScaleAdds(rate, Tick()(s, steps[0]), Sum(c, s1, steps[1..], Tick()));
    }
  }

  lemma AccrualIsElapsed(c: Settings, s: State, steps: seq<Step>, rate: real)
    requires ValidSettings(c) && IsRun(c, s, steps)
    ensures Sum(c, s, steps, Accrual(rate)) == Scale(rate, After(c, s, steps).now - s.now)
  {
    AccrualScales(c, s, steps, rate);
    TicksAreElapsed(c, s, steps);
  }

  // ---- endpoints ----------------------------------------------------------------------------

  /** Claims on the endpoint. */
  function ClaimsOn(c: Settings, ep: nat): Counter
    requires ValidSettings(c)
  {
    (s: State, step: Step) => if Enabled(c, s, step) then EndpointPicks(Leased(c, s, step), ep) else 0
  }

  /** Claims of rows that were claimed before. */
  function Retries(c: Settings, ep: nat): Counter
    requires ValidSettings(c)
  {
    (s: State, step: Step) => if Enabled(c, s, step) then RetryPicks(Leased(c, s, step), ep) else 0
  }

  predicate Succeeds(c: Settings, s: State, step: Step, ep: nat) {
    Finalizes(s, step, ep) && Result(c, s, step, ep).succeeded
  }

  function Successes(c: Settings, ep: nat): Counter {
    (s: State, step: Step) => if Succeeds(c, s, step, ep) then 1 else 0
  }

  function Recoveries(ep: nat): Counter {
    (s: State, step: Step) => if Recovers(step, ep) then 1 else 0
  }

  function EndpointBalance(c: Settings, e: Runtime, now: real): real {
    Available(e.deliveryTokens, e.refilledAt, c.endpointRate, c.endpointBurst, now)
  }

  function RetryBalance(c: Settings, e: Runtime, now: real): real {
    Available(e.retryTokens, e.retryRefilledAt, c.retryRate, c.retryBurst, now)
  }

  /** What the endpoint could spend at once: its balance, a full burst if it is
      yet to be created, nothing if it is gone. */
  function DeliveryCredit(c: Settings, s: State, ep: nat): real {
    if ep in s.runtime then EndpointBalance(c, s.runtime[ep], s.now)
    else if ep < s.nextId then 0.0 else c.endpointBurst as real
  }

  function RetryCredit(c: Settings, s: State, ep: nat): real {
    if ep in s.runtime then RetryBalance(c, s.runtime[ep], s.now)
    else if ep < s.nextId then 0.0 else c.retryBurst as real
  }

  lemma EndpointCreditInRange(c: Settings, s: State, ep: nat)
    requires ValidSettings(c) && CircuitsOk(c, s)
    ensures 0.0 <= DeliveryCredit(c, s, ep) <= c.endpointBurst as real
    ensures 0.0 <= RetryCredit(c, s, ep) <= c.retryBurst as real
  {
    if ep in s.runtime {
      var e := s.runtime[ep];
      assert BucketsOk(c, s.now, e);
      AvailableInRange(e.deliveryTokens, e.refilledAt, c.endpointRate, c.endpointBurst, s.now);
      AvailableInRange(e.retryTokens, e.retryRefilledAt, c.retryRate, c.retryBurst, s.now);
    }
  }

  lemma RefillKeepsBalance(c: Settings, e: Runtime, now: real)
    requires ValidSettings(c)
    ensures EndpointBalance(c, Refilled(c, e, now), now) == EndpointBalance(c, e, now)
    ensures RetryBalance(c, Refilled(c, e, now), now) == RetryBalance(c, e, now)
  {
    SpendAccounting(e.deliveryTokens, e.refilledAt, c.endpointRate, c.endpointBurst, 0, now, c.quotaRetryAfterMax);
    SpendAccounting(e.retryTokens, e.retryRefilledAt, c.retryRate, c.retryBurst, 0, now, c.quotaRetryAfterMax);
  }

  /** A claim spends exactly one token a row, and one retry token a retry. */
  lemma ClaimSpends(c: Settings, now: real, e0: Runtime, e: Runtime, sel: seq<Candidate>, ep: nat)
    requires ValidSettings(c) && BucketsOk(c, now, e0) && ClaimChange(c, now, e0, e, sel, ep)
    ensures EndpointBalance(c, e, now) == EndpointBalance(c, e0, now) - EndpointPicks(sel, ep) as real
    ensures RetryBalance(c, e, now) == RetryBalance(c, e0, now) - RetryPicks(sel, ep) as real
  {
    var base: Runtime, leases: nat :|
      && EndpointWithin(c, now, base, e, leases, sel, ep)
      && (base == Refilled(c, e0, now) || (base == e0 && EndpointPicks(sel, ep) == 0));
    RetriesArePicks(sel, ep);
    RefillKeepsBalance(c, e0, now);
    if base == e0 && EndpointPicks(sel, ep) == 0 {
      assert e.deliveryTokens == e0.deliveryTokens && e.retryTokens == e0.retryTokens;
    } else {
      assert base.refilledAt == now && base.retryRefilledAt == now;
    }
  }

  lemma QuietSpends(c: Settings, s: State, step: Step, ep: nat, e0: Runtime, e: Runtime)
    requires ValidSettings(c) && Enabled(c, s, step) && BucketsOk(c, s.now, e0)
    requires QuietChange(c, s, step, ep, e0, e)
    ensures EndpointBalance(c, e, s.now) == EndpointBalance(c, e0, s.now)
    ensures RetryBalance(c, e, s.now) <= RetryBalance(c, e0, s.now)
              + (if Succeeds(c, s, step, ep) then c.retrySuccessRefill as real else 0.0)
              + (if Recovers(step, ep) then c.retryBurst as real else 0.0)
  {
    AvailableInRange(e0.retryTokens, e0.retryRefilledAt, c.retryRate, c.retryBurst, s.now);
    AvailableInRange(e0.deliveryTokens, e0.refilledAt, c.endpointRate, c.endpointBurst, s.now);
  }

  lemma UnknownNotLeased(c: Settings, s: State, step: Step, ep: nat)
    requires ValidSettings(c) && Enabled(c, s, step) && Refs(s) && ep !in s.runtime
    ensures EndpointPicks(Leased(c, s, step), ep) == 0 && RetryPicks(Leased(c, s, step), ep) == 0
  {
    forall d | d in Leased(c, s, step) ensures d.endpoint != ep { LeasedEndpoint(c, s, step, d); }
    NonePicked(Leased(c, s, step), ep);
  }

  /** Endpoint rows disappear only in upkeep. */
  lemma EndpointGone(c: Settings, s: State, step: Step, ep: nat)
    requires ValidSettings(c) && Enabled(c, s, step) && Refs(s)
    requires ep in s.runtime && ep !in Apply(c, s, step).runtime
    ensures step.OnUpkeep?
  {
    match step
    case Clock(_) =>
    case OnSetup(setup) => SetupKeepsRuntime(c, s, setup);
    case OnIntake(intake) => IntakeFrame(c, s, intake);
    case OnWork(work) =>
      WorkFrame(c, s, work);
      if work.ClaimWork? { ClaimTables(c, s, work.limit, work.candidates); }
    case OnOperator(operator) => OperatorFrame(c, s, operator);
    case OnUpkeep(upkeep) =>
  }

  lemma SetupKeepsRuntime(c: Settings, s: State, step: Setup)
    ensures s.runtime.Keys <= ApplySetup(c, s, step).runtime.Keys
  {
    match step
    case CreateOrganization(retention) =>
    case CreateProject(org) =>
    case CreateEndpoint(project, publicId, url, types, scheme) =>
    case UpdateEndpoint(x, url, active, types, scheme) =>
    case RotateEndpointSecret(x) =>
  }

  /** What a step that takes no time does to the two credits of an endpoint. */
  lemma InstantEndpointCredit(c: Settings, s: State, step: Step, ep: nat)
    requires ValidSettings(c) && Enabled(c, s, step) && Inv(c, s) && !step.Clock?
    ensures DeliveryCredit(c, Apply(c, s, step), ep) + EndpointPicks(Leased(c, s, step), ep) as real
              <= DeliveryCredit(c, s, ep)
    ensures RetryCredit(c, Apply(c, s, step), ep) + RetryPicks(Leased(c, s, step), ep) as real
              <= RetryCredit(c, s, ep) + (if Succeeds(c, s, step, ep) then c.retrySuccessRefill as real else 0.0)
                 + (if Recovers(step, ep) then c.retryBurst as real else 0.0)
  {
    TimeMoves(c, s, step);
    EndpointCreditInRange(c, s, ep);
    if ep !in Apply(c, s, step).runtime {
      GoneCredit(c, s, step, ep);
    } else {
      StepEndpoint(c, s, step, ep);
      if ep !in s.runtime {
        UnknownNotLeased(c, s, step, ep);
        FreshBalance(c, s.now);
      } else {
        KeptCredit(c, s, step, ep);
      }
    }
  }

  lemma GoneCredit(c: Settings, s: State, step: Step, ep: nat)
    requires ValidSettings(c) && Enabled(c, s, step) && Refs(s) && IdsBelow(s.deliveries, s.nextId)
    requires ep !in Apply(c, s, step).runtime
    ensures EndpointPicks(Leased(c, s, step), ep) == 0 && RetryPicks(Leased(c, s, step), ep) == 0
    ensures ep in s.runtime || ep < s.nextId ==> ep < Apply(c, s, step).nextId
  {
    NextIdGrows(c, s, step);
    if ep in s.runtime {
      EndpointGone(c, s, step, ep);
      NonePicked(Leased(c, s, step), ep);
      assert ep in s.endpoints;
    } else {
      UnknownNotLeased(c, s, step, ep);
    }
  }

  lemma FreshBalance(c: Settings, now: real)
    ensures EndpointBalance(c, FreshRuntime(c, now), now) == c.endpointBurst as real
    ensures RetryBalance(c, FreshRuntime(c, now), now) == c.retryBurst as real
  {
  }

  lemma KeptCredit(c: Settings, s: State, step: Step, ep: nat)
    requires ValidSettings(c) && Enabled(c, s, step) && CircuitsOk(c, s)
    requires ep in s.runtime && ep in Apply(c, s, step).runtime
    requires Changes(c, s, step, ep, s.runtime[ep], Apply(c, s, step).runtime[ep])
    ensures var e := Apply(c, s, step).runtime[ep];
            && EndpointBalance(c, e, s.now) + EndpointPicks(Leased(c, s, step), ep) as real
                 == EndpointBalance(c, s.runtime[ep], s.now)
            && RetryBalance(c, e, s.now) + RetryPicks(Leased(c, s, step), ep) as real
                 <= RetryBalance(c, s.runtime[ep], s.now)
                    + (if Succeeds(c, s, step, ep) then c.retrySuccessRefill as real else 0.0)
                    + (if Recovers(step, ep) then c.retryBurst as real else 0.0)
  {
    var e0, e := s.runtime[ep], Apply(c, s, step).runtime[ep];
    if IsClaim(step) {
      ClaimSpends(c, s.now, e0, e, Leased(c, s, step), ep);
    } else {
      QuietSpends(c, s, step, ep, e0, e);
    }
  }

  // ---- the endpoint laws ------------------------------------------------------------------------

  function DeliveryCredits(c: Settings, ep: nat): Credit { (s: State) => DeliveryCredit(c, s, ep) }

  function RetryCredits(c: Settings, ep: nat): Credit { (s: State) => RetryCredit(c, s, ep) }

  /** Time, successes and recoveries fill the retry budget. */
  function RetryGain(c: Settings, ep: nat): Gain {
    (s: State, step: Step) =>
      Accrual(c.retryRate)(s, step)
      + (if Succeeds(c, s, step, ep) then c.retrySuccessRefill as real else 0.0)
      + (if Recovers(step, ep) then c.retryBurst as real else 0.0)
  }

  lemma AccrualOnClock(rate: real, s: State, to: real)
    requires rate > 0.0 && s.now <= to
    ensures Accrual(rate)(s, Clock(to)) == rate * (to - s.now) && Accrual(rate)(s, Clock(to)) >= 0.0
  {
    assert Tick()(s, Clock(to)) == to - s.now;
  }

  lemma AccrualAtRest(rate: real, s: State, step: Step)
    requires !step.Clock?
    ensures Accrual(rate)(s, step) == 0.0
  {
    assert Tick()(s, step) == 0.0;
  }

  lemma DeliveryClock(c: Settings, s: State, to: real, ep: nat)
    requires ValidSettings(c) && s.now <= to
    ensures DeliveryCredit(c, s.(now := to), ep) <= DeliveryCredit(c, s, ep) + Accrual(c.endpointRate)(s, Clock(to))
  {
    AccrualOnClock(c.endpointRate, s, to);
    if ep in s.runtime {
      var e := s.runtime[ep];
      AvailableOverTime(e.deliveryTokens, e.refilledAt, c.endpointRate, c.endpointBurst, s.now, to);
    }
  }

  lemma RetryClock(c: Settings, s: State, to: real, ep: nat)
    requires ValidSettings(c) && s.now <= to
    ensures RetryCredit(c, s.(now := to), ep) <= RetryCredit(c, s, ep) + Accrual(c.retryRate)(s, Clock(to))
  {
    AccrualOnClock(c.retryRate, s, to);
    if ep in s.runtime {
      var e := s.runtime[ep];
      AvailableOverTime(e.retryTokens, e.retryRefilledAt, c.retryRate, c.retryBurst, s.now, to);
    }
  }

  lemma NoClaimOnClock(c: Settings, s: State, step: Step, ep: nat)
    requires ValidSettings(c) && Enabled(c, s, step) && step.Clock?
    ensures EndpointPicks(Leased(c, s, step), ep) == 0 && RetryPicks(Leased(c, s, step), ep) == 0
  {
  }

  lemma DeliveryStep(c: Settings, s: State, step: Step, ep: nat)
    requires ValidSettings(c) && Enabled(c, s, step) && Inv(c, s)
    ensures DeliveryCredits(c, ep)(Apply(c, s, step)) + ClaimsOn(c, ep)(s, step) as real
         <= DeliveryCredits(c, ep)(s) + Accrual(c.endpointRate)(s, step)
  {
    if step.Clock? {
      NoClaimOnClock(c, s, step, ep);
      DeliveryClock(c, s, step.to, ep);
    } else {
      AccrualAtRest(c.endpointRate, s, step);
      InstantEndpointCredit(c, s, step, ep);
    }
  }

  lemma RetryStep(c: Settings, s: State, step: Step, ep: nat)
    requires ValidSettings(c) && Enabled(c, s, step) && Inv(c, s)
    ensures RetryCredits(c, ep)(Apply(c, s, step)) + Retries(c, ep)(s, step) as real
         <= RetryCredits(c, ep)(s) + RetryGain(c, ep)(s, step)
  {
    if step.Clock? {
      NoClaimOnClock(c, s, step, ep);
      RetryClock(c, s, step.to, ep);
    } else {
      AccrualAtRest(c.retryRate, s, step);
      InstantEndpointCredit(c, s, step, ep);
    }
  }

  lemma DeliveryAccounts(c: Settings, ep: nat)
    requires ValidSettings(c)
    ensures Accounts(c, DeliveryCredits(c, ep), ClaimsOn(c, ep), Accrual(c.endpointRate))
  {
    forall s, step | Inv(c, s) && Enabled(c, s, step)
      ensures DeliveryCredits(c, ep)(Apply(c, s, step)) + ClaimsOn(c, ep)(s, step) as real
           <= DeliveryCredits(c, ep)(s) + Accrual(c.endpointRate)(s, step)
    {
      DeliveryStep(c, s, step, ep);
    }
  }

  lemma RetryAccounts(c: Settings, ep: nat)
    requires ValidSettings(c)
    ensures Accounts(c, RetryCredits(c, ep), Retries(c, ep), RetryGain(c, ep))
  {
    forall s, step | Inv(c, s) && Enabled(c, s, step)
      ensures RetryCredits(c, ep)(Apply(c, s, step)) + Retries(c, ep)(s, step) as real
           <= RetryCredits(c, ep)(s) + RetryGain(c, ep)(s, step)
    {
      RetryStep(c, s, step, ep);
    }
  }

  lemma DeliveryBounded(c: Settings, ep: nat)
    requires ValidSettings(c)
    ensures forall x :: Inv(c, x) ==> 0.0 <= DeliveryCredits(c, ep)(x) <= c.endpointBurst as real
  {
    forall x | Inv(c, x) ensures 0.0 <= DeliveryCredits(c, ep)(x) <= c.endpointBurst as real {
      EndpointCreditInRange(c, x, ep);
    }
  }

  lemma RetryBounded(c: Settings, ep: nat)
    requires ValidSettings(c)
    ensures forall x :: Inv(c, x) ==> 0.0 <= RetryCredits(c, ep)(x) <= c.retryBurst as real
  {
    forall x | Inv(c, x) ensures 0.0 <= RetryCredits(c, ep)(x) <= c.retryBurst as real {
      EndpointCreditInRange(c, x, ep);
    }
  }

  /** Claims on one endpoint between any two states of a run are at most
      burst + rate × elapsed. */
  lemma EndpointRateLaw(c: Settings, s: State, steps: seq<Step>, ep: nat)
    requires ValidSettings(c) && IsRun(c, s, steps) && Inv(c, s)
    ensures var t := After(c, s, steps);
            Count(c, s, steps, ClaimsOn(c, ep)) as real <= c.endpointBurst as real + Scale(c.endpointRate, t.now - s.now)
  {
    DeliveryAccounts(c, ep);
    DeliveryBounded(c, ep);
    WithinGains(c, s, steps, DeliveryCredits(c, ep), ClaimsOn(c, ep), Accrual(c.endpointRate), c.endpointBurst);
    AccrualIsElapsed(c, s, steps, c.endpointRate);
  }

  lemma {:induction false} RetryGainIs(c: Settings, s: State, steps: seq<Step>, ep: nat)
    requires ValidSettings(c) && IsRun(c, s, steps)
    ensures Sum(c, s, steps, RetryGain(c, ep))
         == Sum(c, s, steps, Accrual(c.retryRate))
            + Times(c.retrySuccessRefill, Count(c, s, steps, Successes(c, ep)))
            + Times(c.retryBurst, Count(c, s, steps, Recoveries(ep)))
    decreases |steps|
  {
    if steps != [] {
      var s1 := Apply(c, s, steps[0]);
      RetryGainIs(c, s1, steps[1..], ep);
      OneMore(c.retrySuccessRefill, Count(c, s1, steps[1..], Successes(c, ep)));
      OneMore(c.retryBurst, Count(c, s1, steps[1..], Recoveries(ep)));
    }
  }

  function Times(a: nat, n: nat): real { a as real * n as real }

  lemma OneMore(a: nat, n: nat)
    ensures Times(a, 1 + n) == a as real + Times(a, n) && Times(a, 0 + n) == Times(a, n)
  {
  }

  /** Retries dispatched to one endpoint are at most burst + rate × elapsed +
      refill × successful finalizations + burst × manual recoveries. */
  lemma RetryBudgetLaw(c: Settings, s: State, steps: seq<Step>, ep: nat)
    requires ValidSettings(c) && IsRun(c, s, steps) && Inv(c, s)
    ensures var t := After(c, s, steps);
            Count(c, s, steps, Retries(c, ep)) as real <=
              c.retryBurst as real + Scale(c.retryRate, t.now - s.now)
              + Times(c.retrySuccessRefill, Count(c, s, steps, Successes(c, ep)))
              + Times(c.retryBurst, Count(c, s, steps, Recoveries(ep)))
  {
    RetryAccounts(c, ep);
    RetryBounded(c, ep);
    WithinGains(c, s, steps, RetryCredits(c, ep), Retries(c, ep), RetryGain(c, ep), c.retryBurst);
    AccrualIsElapsed(c, s, steps, c.retryRate);
    RetryGainIs(c, s, steps, ep);
  }

  // ---- the tenant laws ----------------------------------------------------------------------------

  /** Cost admitted to an organization's bucket. */
  function Costs(c: Settings, org: nat, b: Bucket): Counter
    requires ValidSettings(c)
  {
    (s: State, step: Step) => Paid(c, s, step, org, b)
  }

  function TenantCredit(c: Settings, s: State, org: nat, b: Bucket): real {
    if org in s.tenants then Holding(c, s.tenants[org], b, s.now)
    else if org in s.orgs || org >= s.nextId then BurstOf(c, b) as real else 0.0
  }

  function TenantCredits(c: Settings, org: nat, b: Bucket): Credit { (s: State) => TenantCredit(c, s, org, b) }

  lemma BalanceInRange(c: Settings, t: Tenant, b: Bucket, now: real)
    requires ValidSettings(c) && TenantOk(c, t, now)
    ensures 0.0 <= Holding(c, t, b, now) <= BurstOf(c, b) as real
  {
    AvailableInRange(Level(t, b), Mark(t, b), RateOf(c, b), BurstOf(c, b), now);
  }

  lemma TenantCreditInRange(c: Settings, s: State, org: nat, b: Bucket)
    requires ValidSettings(c) && TenantsOk(c, s)
    ensures 0.0 <= TenantCredit(c, s, org, b) <= BurstOf(c, b) as real
  {
    if org in s.tenants { BalanceInRange(c, s.tenants[org], b, s.now); }
  }

  lemma FreshTenantBalance(c: Settings, b: Bucket, now: real)
    ensures Holding(c, FreshTenant(c, now), b, now) == BurstOf(c, b) as real
  {
  }

  /** A request is charged to an organization whose quota row it writes. */
  lemma PaidWrites(c: Settings, s: State, step: Step, org: nat, b: Bucket)
    requires ValidSettings(c) && Enabled(c, s, step) && org !in Apply(c, s, step).tenants
    ensures Paid(c, s, step, org, b) == 0
  {
    if ChargeOf(c, s, step).Some? { ChargeWrites(c, s, step); }
  }

  lemma ChargeWrites(c: Settings, s: State, step: Step)
    requires ValidSettings(c) && Enabled(c, s, step) && ChargeOf(c, s, step).Some?
    ensures ChargeOf(c, s, step).value.org in Apply(c, s, step).tenants
  {
    match step.intake
    case IngestEvent(r) => IngestWrites(c, s, r);
    case ReplayDeliveries(p, sources, dead) => ReplayWrites(c, s, p, sources, dead);
  }

  lemma IngestWrites(c: Settings, s: State, r: Request)
    requires ValidSettings(c) && Ingest(c, s, r).1.Accepted?
    ensures r.project in s.projects && s.projects[r.project] in Ingest(c, s, r).0.tenants
  {
    var tenant := IngestOutcome(c, s, r);
    assert Accept(s, r, tenant).tenants == s.tenants[s.projects[r.project] := tenant];
  }

  lemma ReplayWrites(c: Settings, s: State, p: nat, sources: seq<nat>, dead: bool)
    requires ValidSettings(c) && Replay(c, s, p, sources, dead) != s
    ensures p in s.projects && s.projects[p] in Replay(c, s, p, sources, dead).tenants
  {
    var tenant := ReplayOutcome(c, s, p, sources, dead);
    assert CopySources(s, sources, s.projects[p], tenant).tenants == s.tenants[s.projects[p] := tenant];
  }

  lemma InstantTenantCredit(c: Settings, s: State, step: Step, org: nat, b: Bucket)
    requires ValidSettings(c) && Enabled(c, s, step) && Inv(c, s) && !step.Clock?
    ensures TenantCredit(c, Apply(c, s, step), org, b) + Paid(c, s, step, org, b) as real <= TenantCredit(c, s, org, b)
  {
    TimeMoves(c, s, step);
    TenantCreditInRange(c, s, org, b);
    if org in Apply(c, s, step).tenants {
      StepTenant(c, s, step, org, b);
      FreshTenantBalance(c, b, s.now);
    } else {
      PaidWrites(c, s, step, org, b);
      RowlessCredit(c, s, step, org, b);
    }
  }

  lemma RowlessCredit(c: Settings, s: State, step: Step, org: nat, b: Bucket)
    requires ValidSettings(c) && Enabled(c, s, step) && Refs(s) && IdsBelow(s.deliveries, s.nextId) && TenantsOk(c, s)
    requires org !in Apply(c, s, step).tenants
    ensures TenantCredit(c, Apply(c, s, step), org, b) <= TenantCredit(c, s, org, b)
  {
    TenantCreditInRange(c, s, org, b);
    NextIdGrows(c, s, step);
    ProjectsFixed(c, s, step);
    if org in s.tenants { TenantGone(c, s, step, org); }
  }

  /** Quota rows disappear only with their organization. */
  lemma TenantGone(c: Settings, s: State, step: Step, org: nat)
    requires ValidSettings(c) && Enabled(c, s, step) && Numbered(s)
    requires org in s.tenants && org !in Apply(c, s, step).tenants
    ensures org !in Apply(c, s, step).orgs && org < s.nextId
  {
    match step
    case Clock(_) =>
    case OnSetup(setup) => SetupFrame(c, s, setup);
    case OnIntake(intake) => IntakeKeepsTenants(c, s, intake);
    case OnWork(work) =>
      WorkFrame(c, s, work);
      if work.ClaimWork? { ClaimKeepsTenants(c, s, work.limit, work.candidates); }
    case OnOperator(operator) => OperatorFrame(c, s, operator);
    case OnUpkeep(upkeep) => UpkeepTenantGone(c, s, upkeep, org);
  }

  lemma IntakeKeepsTenants(c: Settings, s: State, step: Intake)
    requires ValidSettings(c)
    ensures s.tenants.Keys <= ApplyIntake(c, s, step).tenants.Keys
  {
    match step
    case IngestEvent(r) => var tenant := IngestOutcome(c, s, r);
    case ReplayDeliveries(p, sources, dead) => var tenant := ReplayOutcome(c, s, p, sources, dead);
  }

  lemma ClaimKeepsTenants(c: Settings, s: State, limit: nat, ids: seq<nat>)
    requires ValidSettings(c) && CanWork(c, s, ClaimWork(limit, ids))
    ensures s.tenants.Keys <= ClaimDue(c, s, limit, ids).tenants.Keys
  {
    if ClaimCommits(c, s, limit, ids) {
      ChosenKeepsTenants(c, s, limit, ids);
      assert Lease(c, s, Chosen(c, s, limit, ids)).tenants == Chosen(c, s, limit, ids).tenants;
    } else {
      assert ClaimDue(c, s, limit, ids) == s;
    }
  }

  lemma ChosenKeepsTenants(c: Settings, s: State, limit: nat, ids: seq<nat>)
    requires ValidSettings(c) && AllRows(s, ids) && Distinct(ids) && FreeSlots(c, s, limit) > 0
    ensures s.tenants.Keys <= Chosen(c, s, limit, ids).tenants.Keys
  {
    ChosenWithin(c, s, limit, ids);
    assert s.tenants.Keys <= StartOf(c, s, ids).tenants.Keys;
  }

  lemma UpkeepTenantGone(c: Settings, s: State, step: Upkeep, org: nat)
    requires CanKeep(c, s, step) && org in s.tenants && Numbered(s)
    ensures var t := ApplyUpkeep(c, s, step); org in t.tenants || (org !in t.orgs && org < s.nextId)
  {
    if step.CleanupRun? {
      var cleaned := s.operations[step.op].org;
      StageTenantGone(MarkRunning(s, step.op), StageOf(s, cleaned), cleaned, step.batch, org);
    } else {
      QuietUpkeep(c, s, step);
    }
  }

  lemma StageTenantGone(s: State, stage: Stage, cleaned: nat, batch: set<nat>, org: nat)
    requires org in s.tenants
    ensures var t := RunStage(s, stage, cleaned, batch); org in t.tenants || (org == cleaned && org !in t.orgs)
  {
    if !stage.DeletingOrganization? { assert RunStage(s, stage, cleaned, batch).tenants == s.tenants; }
  }

  lemma HoldingOverTime(c: Settings, t: Tenant, b: Bucket, t0: real, t1: real)
    requires ValidSettings(c) && t0 <= t1
    ensures Holding(c, t, b, t1) <= Holding(c, t, b, t0) + RateOf(c, b) * (t1 - t0)
  {
    AvailableOverTime(Level(t, b), Mark(t, b), RateOf(c, b), BurstOf(c, b), t0, t1);
  }

  lemma CreditOverTime(c: Settings, s: State, to: real, org: nat, b: Bucket, gain: real)
    requires gain >= 0.0
    requires org in s.tenants ==> Holding(c, s.tenants[org], b, to) <= Holding(c, s.tenants[org], b, s.now) + gain
    ensures TenantCredit(c, s.(now := to), org, b) <= TenantCredit(c, s, org, b) + gain
  {
  }

  lemma TenantClock(c: Settings, s: State, to: real, org: nat, b: Bucket)
    requires ValidSettings(c) && s.now <= to
    ensures TenantCredit(c, s.(now := to), org, b) <= TenantCredit(c, s, org, b) + Accrual(RateOf(c, b))(s, Clock(to))
  {
    AccrualOnClock(RateOf(c, b), s, to);
    if org in s.tenants { HoldingOverTime(c, s.tenants[org], b, s.now, to); }
    CreditOverTime(c, s, to, org, b, Accrual(RateOf(c, b))(s, Clock(to)));
  }

  lemma TenantStep(c: Settings, s: State, step: Step, org: nat, b: Bucket)
    requires ValidSettings(c) && Enabled(c, s, step) && Inv(c, s)
    ensures TenantCredits(c, org, b)(Apply(c, s, step)) + Costs(c, org, b)(s, step) as real
         <= TenantCredits(c, org, b)(s) + Accrual(RateOf(c, b))(s, step)
  {
    if step.Clock? {
      TenantClock(c, s, step.to, org, b);
    } else {
      AccrualAtRest(RateOf(c, b), s, step);
      InstantTenantCredit(c, s, step, org, b);
    }
  }

  lemma TenantAccounts(c: Settings, org: nat, b: Bucket)
    requires ValidSettings(c)
    ensures Accounts(c, TenantCredits(c, org, b), Costs(c, org, b), Accrual(RateOf(c, b)))
  {
    forall s, step | Inv(c, s) && Enabled(c, s, step)
      ensures TenantCredits(c, org, b)(Apply(c, s, step)) + Costs(c, org, b)(s, step) as real
           <= TenantCredits(c, org, b)(s) + Accrual(RateOf(c, b))(s, step)
    {
      TenantStep(c, s, step, org, b);
    }
  }

  lemma TenantBounded(c: Settings, org: nat, b: Bucket)
    requires ValidSettings(c)
    ensures forall x :: Inv(c, x) ==> 0.0 <= TenantCredits(c, org, b)(x) <= BurstOf(c, b) as real
  {
    forall x | Inv(c, x) ensures 0.0 <= TenantCredits(c, org, b)(x) <= BurstOf(c, b) as real {
      TenantCreditInRange(c, x, org, b);
    }
  }

  /** The events, deliveries and replays admitted for one organization between
      any two states of a run each cost at most burst + rate × elapsed. */
  lemma TenantRateLaw(c: Settings, s: State, steps: seq<Step>, org: nat, b: Bucket)
    requires ValidSettings(c) && IsRun(c, s, steps) && Inv(c, s)
    ensures var t := After(c, s, steps);
            Count(c, s, steps, Costs(c, org, b)) as real <= BurstOf(c, b) as real + Scale(RateOf(c, b), t.now - s.now)
  {
    TenantAccounts(c, org, b);
    TenantBounded(c, org, b);
    WithinGains(c, s, steps, TenantCredits(c, org, b), Costs(c, org, b), Accrual(RateOf(c, b)), BurstOf(c, b));
    AccrualIsElapsed(c, s, steps, RateOf(c, b));
  }
}
