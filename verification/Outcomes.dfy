/** What a finished attempt means, written out by status, failure, age and header:
    when a delivery succeeds, is tried again, and when, or dies, and for which
    reason; and what becomes of its endpoint. */
module Outcomes {
  import opened Base
  import opened Types
  import opened Text
  import opened RetryPolicy
  import opened Platform

  // ---- reading a response -----------------------------------------------------------

  /** The request went out: the delivery was not too old and its endpoint was
      active when the event was accepted. */
  predicate WentOut(c: Settings, k: Claim, started: real) {
    started < k.createdAt + c.maxAge && k.snapshot.active
  }

  predicate Positive(r: Response) { r.status.Some? && 200 <= r.status.value <= 299 }

  /** Worth another try: a clean answer that asks for it or blames the server, a
      timeout, or a network error. */
  predicate Transient(r: Response) {
    || (&& r.failure == NoFailure && r.status.Some?
        && var n := r.status.value; n == 408 || n == 425 || n == 429 || (500 <= n && n < 600))
    || r.failure == TimedOut || r.failure.Network?
  }

  /** Exceptions are named after classes, never like the platform's own reason. */
  predicate NamesClass(r: Response) {
    && (r.failure.Network? ==> r.failure.name != "max_delivery_age")
    && (r.failure.BadValue? ==> r.failure.name != "max_delivery_age")
  }

  /** Seconds the answer asks to wait; nothing without an answer. */
  function AskedWait(c: Settings, r: Response): real {
    if r.status.None? then 0.0
    else
      var asked := ParseRetryAfter(r.retryAfter, r.date, c.retryAfterMax);
      if asked.Some? then asked.value else 0.0
  }

  /** A Retry-After in seconds asks for itself, up to the maximum; without the
      header, or without an answer, nothing is asked. */
  lemma AskedSeconds(c: Settings, r: Response, n: nat)
    requires n < FLOAT_OVERFLOW
    ensures r.status.Some? && r.retryAfter == Some(Decimal(n)) ==>
              AskedWait(c, r) == if n <= c.retryAfterMax then n as real else c.retryAfterMax as real
    ensures r.status.None? || r.retryAfter.None? ==> AskedWait(c, r) == 0.0
  {
    RetryAfterRoundTrip(n, r.date, c.retryAfterMax);
  }

  /** A date asks for the time until then, at least nothing and at most the
      maximum. */
  lemma AskedDate(c: Settings, r: Response, away: real)
    requires r.status.Some? && r.retryAfter.Some? && r.date == Some(away)
    requires Strip(r.retryAfter.value) != "" && !AllDigits(Strip(r.retryAfter.value))
    ensures away <= 0.0 ==> AskedWait(c, r) == 0.0
    ensures 0.0 <= away <= c.retryAfterMax as real ==> AskedWait(c, r) == away
    ensures away >= c.retryAfterMax as real ==> AskedWait(c, r) == c.retryAfterMax as real
  {
  }

  // ---- the delivery -------------------------------------------------------------------------

  /** Tried again: the attempt was transient, attempts are left, and both now and
      the time of the next attempt are before the age limit. */
  predicate TriedAgain(c: Settings, d: Delivery, k: Claim, started: real, r: Response, now: real, jitter: real) {
    && WentOut(c, k, started) && !Positive(r) && Transient(r) && k.attemptNumber < c.maxAttempts
    && now < d.createdAt + c.maxAge
    && now + jitter < d.createdAt + c.maxAge && now + AskedWait(c, r) < d.createdAt + c.maxAge
  }

  /** The row after the attempt: succeeded exactly on a positive answer, tried
      again exactly when that is possible, at the later of what was drawn and
      what was asked, and dead otherwise, with one more attempt record. */
  predicate RowAfter(
    c: Settings, d: Delivery, k: Claim, started: real, r: Response, now: real, jitter: real, e: Delivery)
  {
    && (e.status.Succeeded? <==> WentOut(c, k, started) && Positive(r))
    && (e.status.RetryScheduled? <==> TriedAgain(c, d, k, started, r, now, jitter))
    && (e.status.Succeeded? || e.status.RetryScheduled? || e.status.Dead?)
    && (e.status.RetryScheduled? ==>
          && e.nextAttemptAt >= now + jitter && e.nextAttemptAt >= now + AskedWait(c, r)
          && (e.nextAttemptAt == now + jitter || e.nextAttemptAt == now + AskedWait(c, r)))
    && (!e.status.RetryScheduled? ==> e.nextAttemptAt == now)
    && e == d.(status := e.status, nextAttemptAt := e.nextAttemptAt, deadReason := e.deadReason,
               leaseToken := None, leaseExpiresAt := None, updatedAt := now,
               attempts := d.attempts + [Attempt(k.attemptNumber, started, now, e.status)])
  }

  lemma RowOutcome(c: Settings, d: Delivery, k: Claim, started: real, r: Response, now: real, jitter: real)
    requires jitter >= 0.0
    ensures RowAfter(c, d, k, started, r, now, jitter,
                     FinalizedRow(c, d, k, PerformAttempt(c, k, started, r), now, started, jitter))
  {
  }

  /** Why a delivery died. */
  lemma DeathReason(c: Settings, d: Delivery, k: Claim, started: real, r: Response, now: real, jitter: real)
    requires jitter >= 0.0 && d.createdAt == k.createdAt && NamesClass(r)
    ensures var e := FinalizedRow(c, d, k, PerformAttempt(c, k, started, r), now, started, jitter);
            && (e.deadReason.Some? <==> e.status.Dead?)
            && (e.status.Dead? ==>
                  var tooOld := started >= d.createdAt + c.maxAge || now >= d.createdAt + c.maxAge;
                  && (tooOld ==> e.deadReason == Some("max_delivery_age"))
                  && (!tooOld && k.snapshot.active && Transient(r) ==>
                        e.deadReason == Some(if k.attemptNumber < c.maxAttempts then "max_delivery_age" else "max_attempts"))
                  && (!tooOld && k.snapshot.active && !Transient(r) && r.status.Some? && 400 <= r.status.value <= 499 ==>
                        e.deadReason == Some("non_retryable_http"))
                  && (!tooOld && !k.snapshot.active ==> e.deadReason == Some("endpoint_inactive_at_acceptance")))
  {
    var inactive := "endpoint_inactive_at_acceptance";
    assert inactive[..|inactive|] == inactive;
  }

  /** A final failure outside the 4xx range is recorded under its own name, cut to
      64 characters, and under a general one if it has none. */
  lemma NamedReason(c: Settings, d: Delivery, k: Claim, started: real, r: Response, now: real, jitter: real)
    requires WentOut(c, k, started) && now < d.createdAt + c.maxAge && NamesClass(r)
    requires !Positive(r) && !Transient(r) && !(r.status.Some? && 400 <= r.status.value <= 499)
    ensures var e := FinalizedRow(c, d, k, PerformAttempt(c, k, started, r), now, started, jitter);
            && e.status.Dead? && e.deadReason.Some?
            && (r.failure.NoFailure? ==>
                  e.deadReason.value == if r.status.Some? then "http_status" else "non_retryable_failure")
            && (r.failure.ProxyDenied? ==> e.deadReason.value == "egress_proxy_denied")
            && (r.failure.Unsafe? ==> e.deadReason.value == Cut("unsafe_webhook_url:" + r.failure.reason))
            && (r.failure.BadValue? && r.failure.name != "" ==> e.deadReason.value == Cut(r.failure.name))
  {
    var status, proxy := "http_status", "egress_proxy_denied";
    assert status[..|status|] == status && proxy[..|proxy|] == proxy;
  }

  function Cut(text: string): string { if |text| <= 64 then text else text[..64] }

  // ---- the endpoint --------------------------------------------------------------------------

  /** A positive answer closes the circuit and gives retry tokens back. */
  predicate Healed(c: Settings, e: Runtime, f: Runtime, now: real) {
    && f.circuit.Closed? && f.failures == 0 && f.openUntil.None? && f.probe.None?
    && f.retryRefilledAt == now
    && f.retryTokens == (if e.retryTokens + c.retrySuccessRefill as real <= c.retryBurst as real
                         then e.retryTokens + c.retrySuccessRefill as real else c.retryBurst as real)
  }

  /** A transient failure counts, and opens the circuit for the open time if it
      was the probe's or the last one a closed circuit bears. */
  predicate Hurt(c: Settings, e: Runtime, f: Runtime, id: nat, now: real) {
    && f.failures == e.failures + 1 && f.retryTokens == e.retryTokens && f.retryRefilledAt == e.retryRefilledAt
    && if e.probe == Some(id) || (e.circuit.Closed? && e.failures + 1 >= c.circuitThreshold)
       then f.circuit.Open? && f.openUntil == Some(now + c.circuitOpenSeconds) && f.probe.None?
       else f.circuit == e.circuit && f.openUntil == e.openUntil && f.probe == e.probe
  }

  /** Another answer says nothing bad about the endpoint: it closes the circuit. */
  predicate Cleared(e: Runtime, f: Runtime) {
    && f.circuit.Closed? && f.failures == 0 && f.openUntil.None? && f.probe.None?
    && f.retryTokens == e.retryTokens && f.retryRefilledAt == e.retryRefilledAt
  }

  /** The endpoint's row after the attempt. An attempt refused for age says
      nothing, but a refused probe lets the next one try at once. */
  predicate EndpointAfter(
    c: Settings, e: Runtime, id: nat, k: Claim, started: real, r: Response, now: real, f: Runtime)
  {
    && f.deliveryTokens == e.deliveryTokens && f.refilledAt == e.refilledAt && f.pausedAt == e.pausedAt
    && (WentOut(c, k, started) && Positive(r) ==> Healed(c, e, f, now))
    && (WentOut(c, k, started) && !Positive(r) && Transient(r) ==> Hurt(c, e, f, id, now))
    && (WentOut(c, k, started) && !Positive(r) && !Transient(r) && NamesClass(r) ==> Cleared(e, f))
    && (started < k.createdAt + c.maxAge && !k.snapshot.active ==> Cleared(e, f))
    && (started >= k.createdAt + c.maxAge ==>
          if e.probe == Some(id)
          then f == e.(circuit := Open, openUntil := Some(now), probe := None) else f == e)
  }

  lemma EndpointOutcome(c: Settings, e: Runtime, id: nat, k: Claim, started: real, r: Response, now: real)
    ensures EndpointAfter(c, e, id, k, started, r, now,
                          FinalizedRuntime(c, e, id, PerformAttempt(c, k, started, r), now))
  {
  }

  // ---- the transaction -------------------------------------------------------------------------

  /** The claim's lease is still its own and not over. */
  predicate StillHeld(s: State, k: Claim) {
    && k.id in s.deliveries && s.deliveries[k.id].status == Processing
    && s.deliveries[k.id].leaseToken == Some(k.token)
    && s.deliveries[k.id].leaseExpiresAt.Some? && s.now < s.deliveries[k.id].leaseExpiresAt.value
  }

  /** Finalization by the live holder changes its delivery and endpoint as the
      response says, and nothing else; any other finalization changes nothing. */
  lemma FinishedAttempt(c: Settings, s: State, k: Claim, started: real, r: Response, jitter: real)
    requires jitter >= 0.0
    ensures var t := Finalize(c, s, k, started, r, jitter);
            if StillHeld(s, k) && s.deliveries[k.id].endpoint in s.runtime then
              var ep := s.deliveries[k.id].endpoint;
              && k.id in t.deliveries && ep in t.runtime
              && RowAfter(c, s.deliveries[k.id], k, started, r, s.now, jitter, t.deliveries[k.id])
              && EndpointAfter(c, s.runtime[ep], k.id, k, started, r, s.now, t.runtime[ep])
              && t == s.(deliveries := s.deliveries[k.id := t.deliveries[k.id]], runtime := s.runtime[ep := t.runtime[ep]])
            else
              t == s
  {
    if StillHeld(s, k) && s.deliveries[k.id].endpoint in s.runtime {
      RowOutcome(c, s.deliveries[k.id], k, started, r, s.now, jitter);
      EndpointOutcome(c, s.runtime[s.deliveries[k.id].endpoint], k.id, k, started, r, s.now);
    }
  }

  /** A lease lasts: a renewed or newly claimed row is live for exactly the lease
      time and due from then on. */
  ghost predicate LeasedFor(d: Delivery, from: real, seconds: real) {
    forall later :: from <= later ==>
      (Live(d, later) <==> later < from + seconds) && (Due(d, later) <==> from + seconds <= later)
  }

  lemma ClaimLasts(c: Settings, d: Delivery, now: real, token: nat)
    ensures LeasedFor(ClaimedRow(c, d, now, token), now, c.leaseSeconds)
  {
  }

  /** Renewal by the live holder, and by nobody else, starts the lease again and
      changes nothing else. */
  lemma Renewal(c: Settings, s: State, k: Claim)
    ensures if StillHeld(s, k) then
              && k.id in Renew(c, s, k).deliveries
              && Renew(c, s, k) == s.(deliveries := s.deliveries[k.id := Renew(c, s, k).deliveries[k.id]])
              && Renewed(c, s.deliveries[k.id], s.now, Renew(c, s, k).deliveries[k.id])
            else
              Renew(c, s, k) == s
  {
    if StillHeld(s, k) {
      assert Renew(c, s, k).deliveries[k.id]
          == s.deliveries[k.id].(leaseExpiresAt := Some(s.now + c.leaseSeconds), updatedAt := s.now);
    }
  }

  predicate Renewed(c: Settings, d: Delivery, now: real, e: Delivery) {
    e == d.(leaseExpiresAt := Some(now + c.leaseSeconds), updatedAt := now)
  }

  lemma RenewalLasts(c: Settings, d: Delivery, now: real, e: Delivery)
    requires d.status.Processing? && Renewed(c, d, now, e)
    ensures LeasedFor(e, now, c.leaseSeconds)
  {
  }

  /** A released row is queued and due at once; only its holder can release it,
      expired or not. */
  lemma ReleasedAtOnce(s: State, k: Claim)
    ensures var held := k.id in s.deliveries && s.deliveries[k.id].status == Processing
                        && s.deliveries[k.id].leaseToken == Some(k.token);
            && (!held ==> Release(s, k) == s)
            && (held ==>
                  && k.id in Release(s, k).deliveries && Queued(Release(s, k).deliveries[k.id].status)
                  && !Holds(Release(s, k), k)
                  && Release(s, k).deliveries[k.id].attemptCount == s.deliveries[k.id].attemptCount
                  && forall later :: Due(Release(s, k).deliveries[k.id], later) <==> s.now <= later)
  {
  }
}
