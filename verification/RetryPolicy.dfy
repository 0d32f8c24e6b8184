/** `app/retry_policy.py`: which statuses retry, the backoff ceiling, and the
    Retry-After header. */
module RetryPolicy {
  import opened Base
  import opened Text

  function Pow2(n: nat): (p: nat)
    ensures p >= 1
  {
    if n == 0 then 1 else 2 * Pow2(n - 1)
  }

  predicate IsRetryableStatus(status: Option<int>) {
    status.Some? && (status.value in {408, 425, 429} || 500 <= status.value <= 599)
  }

  /** Upper end of the jitter range before attempt `n + 1`. */
  function BackoffCeiling(n: nat, base: real, cap: real): (r: real)
    requires base > 0.0 && cap > 0.0
    ensures 0.0 < r <= cap
  {
    var p := Pow2(MaxInt(0, n - 1)) as real;
    assert base * p >= base;
    MinReal(cap, base * p)
  }

  /** Integers from 2^1024 - 2^970 on do not convert to a double. */
  const FLOAT_OVERFLOW :=
    179769313486231580793728971405303415079934132710037826936173778980444968292764750946649017977587207096330286416692887910946555547851940402630657488671505820681908902000708383676273854845817711531764475730270069855571366959622842914819860834936475292719074168444365510704342711559699508093042880177904174497792

  /** The header value in seconds. `date` is what the HTTP-date parser makes of
      the text: the signed distance from now, or nothing. */
  function ParseRetryAfter(header: Option<string>, date: Option<real>, maximum: nat): (r: Option<real>)
    ensures r.Some? ==> 0.0 <= r.value <= maximum as real
  {
    if header.None? then None
    else
      var text := Strip(header.value);
      if text == "" then None
      else if AllDigits(text) then
        var n := ParseDecimal(text);
        if n >= FLOAT_OVERFLOW then None else Some(MinReal(maximum as real, n as real))
      else if date.None? then None
      else Some(MinReal(maximum as real, MaxReal(0.0, date.value)))
  }

  /** A printed number of seconds is read back as itself, up to the maximum. */
  lemma RetryAfterRoundTrip(n: nat, date: Option<real>, maximum: nat)
    requires n < FLOAT_OVERFLOW
    ensures ParseRetryAfter(Some(Decimal(n)), date, maximum) == Some(MinReal(maximum as real, n as real))
  {
    DecimalRoundTrip(n);
    StripNoSpace(Decimal(n));
  }

  /** Without the cap, each further attempt doubles the ceiling. */
  lemma BackoffDoubles(n: nat, base: real, cap: real)
    requires base > 0.0 && cap > 0.0 && n >= 1
    ensures BackoffCeiling(n + 1, base, cap) == MinReal(cap, 2.0 * BackoffCeiling(n, base, cap))
  {
    var p := Pow2(n - 1) as real;
    assert base * (2.0 * p) == 2.0 * (base * p);
  }

  /** The first retry waits at most the base, within the cap. */
  lemma FirstBackoff(n: nat, base: real, cap: real)
    requires base > 0.0 && cap > 0.0 && n <= 1
    ensures BackoffCeiling(n, base, cap) == if base <= cap then base else cap
  {
  }
}
