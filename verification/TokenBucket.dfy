/** The token arithmetic of `app/admission.py`: one refill-and-spend step, the
    facts that bound spending over any window, and the meaning of the
    Retry-After answer. Amounts and times are exact reals. */
module TokenBucket {
  import opened Base

  datatype Balance = Balance(tokens: real, refilledAt: real, retryAfter: Option<int>)

  /** What the bucket holds at `now`, after refilling at `rate` up to `capacity`. */
  function Available(tokens: real, refilledAt: real, rate: real, capacity: nat, now: real): real {
    var elapsed := MaxReal(0.0, now - refilledAt);
    MinReal(capacity as real, tokens + elapsed * rate)
  }

  function ConsumeTokens(
    tokens: real, refilledAt: real, rate: real, capacity: nat, cost: nat, now: real, retryCap: int
  ): (b: Balance)
    requires rate > 0.0
    ensures b.retryAfter.None? <==> Available(tokens, refilledAt, rate, capacity, now) >= cost as real
    ensures 0.0 <= tokens <= capacity as real ==> 0.0 <= b.tokens <= capacity as real
  {
    var available := Available(tokens, refilledAt, rate, capacity, now);
    AvailableInRange(tokens, refilledAt, rate, capacity, now);
    if available >= cost as real then
      Balance(available - cost as real, now, None)
    else
      var wait := Ceil((cost as real - available) / rate);
      Balance(available, now, Some(MinInt(retryCap, MaxInt(1, wait))))
  }

  lemma AvailableInRange(tokens: real, refilledAt: real, rate: real, capacity: nat, now: real)
    requires rate > 0.0
    ensures 0.0 <= tokens <= capacity as real ==>
              tokens <= Available(tokens, refilledAt, rate, capacity, now) <= capacity as real
  {
    var elapsed := MaxReal(0.0, now - refilledAt);
    assert elapsed * rate >= 0.0;
  }

  /** Waiting adds at most `rate` per second and never removes tokens. */
  lemma AvailableOverTime(
    tokens: real, refilledAt: real, rate: real, capacity: nat, t0: real, t1: real)
    requires rate > 0.0 && t0 <= t1
    ensures Available(tokens, refilledAt, rate, capacity, t0)
         <= Available(tokens, refilledAt, rate, capacity, t1)
         <= Available(tokens, refilledAt, rate, capacity, t0) + rate * (t1 - t0)
  {
    var e0 := MaxReal(0.0, t0 - refilledAt);
    var e1 := MaxReal(0.0, t1 - refilledAt);
    assert e0 <= e1 <= e0 + (t1 - t0);
    Earned(e0, e1, t1 - t0, rate);
    Product(t1 - t0, rate);
  }

  lemma Earned(e0: real, e1: real, elapsed: real, rate: real)
    requires rate > 0.0 && e0 <= e1 <= e0 + elapsed
    ensures e0 * rate <= e1 * rate <= e0 * rate + rate * elapsed
  {
    Product(e1 - e0, rate);
    Product(e0 + elapsed - e1, rate);
    assert e1 * rate == e0 * rate + (e1 - e0) * rate;
    assert (e0 + elapsed - e1) * rate == e0 * rate + rate * elapsed - e1 * rate;
  }

  lemma Product(x: real, rate: real)
    requires x >= 0.0 && rate > 0.0
    ensures x * rate >= 0.0 && rate * x >= 0.0
  {
  }

  /** A successful spend removes exactly its cost from what was available, and a
      refused one removes nothing. */
  lemma SpendAccounting(
    tokens: real, refilledAt: real, rate: real, capacity: nat, cost: nat, now: real, retryCap: int)
    requires rate > 0.0
    ensures var b := ConsumeTokens(tokens, refilledAt, rate, capacity, cost, now, retryCap);
            var before := Available(tokens, refilledAt, rate, capacity, now);
            Available(b.tokens, b.refilledAt, rate, capacity, now)
            == if b.retryAfter.None? then before - cost as real else before
  {
  }

  /** Whether a request of `cost` would be admitted `wait` whole seconds later,
      if nothing else touches the bucket. */
  predicate FitsAfter(
    tokens: real, refilledAt: real, rate: real, capacity: nat, cost: nat, now: real, wait: nat)
  {
    Available(tokens, refilledAt, rate, capacity, now + wait as real) >= cost as real
  }

  /** The Retry-After of a refused request is the least whole number of seconds
      after which it fits, exactly when the cost is at most the burst and the
      answer was not cut down to the cap; a cost above the burst never fits. */
  lemma RetryAfterIsLeastWait(
    tokens: real, refilledAt: real, rate: real, capacity: nat, cost: nat, now: real, retryCap: int)
    requires rate > 0.0 && refilledAt <= now && retryCap >= 1
    requires ConsumeTokens(tokens, refilledAt, rate, capacity, cost, now, retryCap).retryAfter.Some?
    ensures var available := Available(tokens, refilledAt, rate, capacity, now);
            var wait := Ceil((cost as real - available) / rate);
            var answer := ConsumeTokens(tokens, refilledAt, rate, capacity, cost, now, retryCap).retryAfter.value;
            && 1 <= answer <= retryCap
            && (cost > capacity ==>
                  forall w: nat :: !FitsAfter(tokens, refilledAt, rate, capacity, cost, now, w))
            && (cost <= capacity ==>
                  forall w: nat :: FitsAfter(tokens, refilledAt, rate, capacity, cost, now, w) <==> wait <= w)
            && (cost <= capacity ==>
                  (FitsAfter(tokens, refilledAt, rate, capacity, cost, now, answer) <==> wait <= retryCap))
            && (cost <= capacity && wait <= retryCap ==> answer == wait)
  {
    var available := Available(tokens, refilledAt, rate, capacity, now);
    var gap := (cost as real - available) / rate;
    assert gap > 0.0 by { assert gap * rate == cost as real - available; }
    forall w: nat
      ensures cost > capacity ==> !FitsAfter(tokens, refilledAt, rate, capacity, cost, now, w)
      ensures cost <= capacity ==>
                (FitsAfter(tokens, refilledAt, rate, capacity, cost, now, w) <==> Ceil(gap) <= w)
    {
      if cost <= capacity {
        WaitCovers(tokens, refilledAt, rate, capacity, cost, now, w);
      }
    }
  }

  lemma WaitCovers(
    tokens: real, refilledAt: real, rate: real, capacity: nat, cost: nat, now: real, w: nat)
    requires rate > 0.0 && refilledAt <= now && cost <= capacity
    requires Available(tokens, refilledAt, rate, capacity, now) < cost as real
    ensures FitsAfter(tokens, refilledAt, rate, capacity, cost, now, w)
       <==> Ceil((cost as real - Available(tokens, refilledAt, rate, capacity, now)) / rate) <= w
  {
    var available := tokens + (now - refilledAt) * rate;
    var gap := (cost as real - available) / rate;
    assert available == Available(tokens, refilledAt, rate, capacity, now);
    assert gap * rate == cost as real - available;
    var later := tokens + (now + w as real - refilledAt) * rate;
    assert later == available + w as real * rate;
    assert later >= cost as real <==> w as real * rate >= gap * rate;
    assert w as real * rate >= gap * rate <==> w as real >= gap by {
      if w as real >= gap {
        assert (w as real - gap) * rate >= 0.0;
      } else {
        assert (gap - w as real) * rate > 0.0;
      }
    }
    assert w as real >= gap <==> w >= Ceil(gap);
  }
}
