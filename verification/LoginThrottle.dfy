/** The login throttle (`app/login_throttle.py`) with the sweep that deletes its
    stale rows (`app/lifecycle.py`). Rows are keyed by account scope. */
module LoginThrottle {
  import opened Base

  datatype Limits = Limits(maxFailures: nat, window: real, lockout: real)

  predicate ValidLimits(l: Limits) { l.maxFailures >= 1 && l.window > 0.0 && l.lockout > 0.0 }

  datatype Throttle = Throttle(failures: nat, windowStart: real, lockedUntil: Option<real>, updatedAt: real)

  type Scopes = map<string, Throttle>

  datatype Answer = Allowed | Denied(retryAfter: int)

  // ---- transactions ------------------------------------------------------------------

  function RetryAfter(now: real, lockedUntil: real): int { MaxInt(1, Ceil(lockedUntil - now)) }

  function CheckRow(r: Throttle, now: real): Answer {
    if r.lockedUntil.Some? && r.lockedUntil.value > now then Denied(RetryAfter(now, r.lockedUntil.value)) else Allowed
  }

  function Check(rows: Scopes, scope: string, now: real): Answer {
    if scope !in rows then Allowed else CheckRow(rows[scope], now)
  }

  predicate LockOver(r: Throttle, now: real) { r.lockedUntil.Some? && r.lockedUntil.value <= now }

  /** A failed attempt on a row: a new window if the old one or the lock is over,
      one more failure otherwise, and a lock once the budget is spent. */
  function FailedRow(l: Limits, r: Throttle, now: real): Throttle {
    var counted :=
      if r.windowStart + l.window <= now || LockOver(r, now)
      then r.(failures := 1, windowStart := now, lockedUntil := None)
      else r.(failures := r.failures + 1);
    counted.(
      lockedUntil := if counted.failures >= l.maxFailures then Some(now + l.lockout) else counted.lockedUntil,
      updatedAt := now)
  }

  function FirstRow(now: real): Throttle { Throttle(0, now, None, now) }

  function Fail(l: Limits, rows: Scopes, scope: string, now: real): Scopes {
    rows[scope := FailedRow(l, if scope in rows then rows[scope] else FirstRow(now), now)]
  }

  function Succeed(rows: Scopes, scope: string): Scopes { rows - {scope} }

  predicate Stale(l: Limits, r: Throttle, now: real) {
    r.updatedAt <= now - l.window && (r.lockedUntil.None? || r.lockedUntil.value <= now)
  }

  /** Delete the stale rows of a batch. */
  function Purge(l: Limits, rows: Scopes, batch: set<string>, now: real): Scopes {
    map k | k in rows && !(k in batch && Stale(l, rows[k], now)) :: rows[k]
  }

  /** The shared table behind every replica. */
  class ThrottleTable {
    const limits: Limits
    var rows: Scopes

    constructor (limits: Limits)
      ensures this.limits == limits && rows == map[]
    {
      this.limits := limits;
      rows := map[];
    }

    method CheckLoginAllowed(scope: string, now: real) returns (answer: Answer)
      ensures answer == Check(rows, scope, now)
    {
      if scope !in rows || rows[scope].lockedUntil.None? {
        return Allowed;
      }
      var until := rows[scope].lockedUntil.value;
      if until > now {
        return Denied(RetryAfter(now, until));
      }
      return Allowed;
    }

    method RecordLoginFailure(scope: string, now: real)
      modifies this
      ensures rows == Fail(limits, old(rows), scope, now)
    {
      if scope !in rows {
        rows := rows[scope := Throttle(0, now, None, now)];
      }
      var row := rows[scope];
      var expiredLock := row.lockedUntil.Some? && row.lockedUntil.value <= now;
      if row.windowStart + limits.window <= now || expiredLock {
        row := row.(failures := 1, windowStart := now, lockedUntil := None);
      } else {
        row := row.(failures := row.failures + 1);
      }
      if row.failures >= limits.maxFailures {
        row := row.(lockedUntil := Some(now + limits.lockout));
      }
      rows := rows[scope := row.(updatedAt := now)];
    }

    method RecordLoginSuccess(scope: string)
      modifies this
      ensures rows == Succeed(old(rows), scope)
    {
      rows := rows - {scope};
    }

    method PurgeStale(batch: set<string>, now: real)
      modifies this
      ensures rows == Purge(limits, old(rows), batch, now)
      ensures forall k :: k in old(rows) ==>
                (k !in rows <==>
                   && k in batch && old(rows)[k].updatedAt <= now - limits.window
                   && (old(rows)[k].lockedUntil.None? || old(rows)[k].lockedUntil.value <= now))
    {
      var due := batch;
      ghost var start := rows;
      while due != {}
        invariant due <= batch
        invariant rows == Purge(limits, start, batch - due, now)
        decreases |due|
      {
        var scope :| scope in due;
        due := due - {scope};
        if scope in rows && Stale(limits, rows[scope], now) {
          rows := rows - {scope};
        }
      }
      assert batch - due == batch;
    }
  }

  // ---- runs --------------------------------------------------------------------------------

  datatype Step =
    | Tick(to: real)
    | Ask(scope: string)
    | FailLogin(scope: string)
    | LogIn(scope: string)
    | Sweep(batch: set<string>)

  predicate IsRun(now: real, steps: seq<Step>)
    decreases |steps|
  {
    steps == [] ||
    ((steps[0].Tick? ==> now <= steps[0].to) && IsRun(if steps[0].Tick? then steps[0].to else now, steps[1..]))
  }

  function After(l: Limits, rows: Scopes, now: real, step: Step): Scopes {
    match step
    case Tick(_) => rows
    case Ask(_) => rows
    case FailLogin(scope) => Fail(l, rows, scope, now)
    case LogIn(scope) => Succeed(rows, scope)
    case Sweep(batch) => Purge(l, rows, batch, now)
  }

  /** The answers a run gives, in order. */
  function Answers(l: Limits, rows: Scopes, now: real, steps: seq<Step>): seq<Answer>
    decreases |steps|
  {
    if steps == [] then []
    else
      (if steps[0].Ask? then [Check(rows, steps[0].scope, now)] else []) +
      Answers(l, After(l, rows, now, steps[0]), if steps[0].Tick? then steps[0].to else now, steps[1..])
  }

  /** The same run without its sweeps. */
  function Unswept(steps: seq<Step>): seq<Step> {
    if steps == [] then []
    else (if steps[0].Sweep? then [] else [steps[0]]) + Unswept(steps[1..])
  }

  // ---- sweeps are invisible ------------------------------------------------------------------

  predicate TimesOk(r: Throttle, now: real) { r.windowStart <= r.updatedAt <= now }

  /** The swept table lacks only rows that no longer matter. */
  ghost predicate Alike(l: Limits, swept: Scopes, full: Scopes, now: real) {
    && (forall k :: k in full ==> TimesOk(full[k], now))
    && (forall k :: k in swept ==> k in full && swept[k] == full[k])
    && (forall k :: k in full && k !in swept ==> Stale(l, full[k], now))
  }

  /** A stale row answers and counts like no row at all. */
  lemma StaleIsAbsent(l: Limits, r: Throttle, now: real)
    requires ValidLimits(l) && TimesOk(r, now) && Stale(l, r, now)
    ensures CheckRow(r, now) == Allowed && FailedRow(l, r, now) == FailedRow(l, FirstRow(now), now)
  {
  }

  lemma StepAlike(l: Limits, swept: Scopes, full: Scopes, now: real, step: Step)
    requires ValidLimits(l) && Alike(l, swept, full, now) && (step.Tick? ==> now <= step.to)
    ensures Alike(l, After(l, swept, now, step), if step.Sweep? then full else After(l, full, now, step),
                  if step.Tick? then step.to else now)
    ensures step.Ask? ==> Check(swept, step.scope, now) == Check(full, step.scope, now)
  {
    if (step.Ask? || step.FailLogin?) && step.scope in full && step.scope !in swept {
      StaleIsAbsent(l, full[step.scope], now);
    }
  }

  lemma {:induction false} AlikeRuns(l: Limits, swept: Scopes, full: Scopes, now: real, steps: seq<Step>)
    requires ValidLimits(l) && Alike(l, swept, full, now) && IsRun(now, steps)
    ensures Answers(l, swept, now, steps) == Answers(l, full, now, Unswept(steps))
    decreases |steps|
  {
    if steps != [] {
      var step := steps[0];
      var next := if step.Tick? then step.to else now;
      StepAlike(l, swept, full, now, step);
      if step.Sweep? {
        AlikeRuns(l, After(l, swept, now, step), full, now, steps[1..]);
        assert Unswept(steps) == Unswept(steps[1..]);
      } else {
        AlikeRuns(l, After(l, swept, now, step), After(l, full, now, step), next, steps[1..]);
        assert Unswept(steps) == [step] + Unswept(steps[1..]);
        assert Unswept(steps)[1..] == Unswept(steps[1..]);
      }
    }
  }

  /** Sweeping at any points of a run changes no allow, deny or Retry-After
      answer. */
  lemma SweepsAreInvisible(l: Limits, now: real, steps: seq<Step>)
    requires ValidLimits(l) && IsRun(now, steps)
    ensures Answers(l, map[], now, steps) == Answers(l, map[], now, Unswept(steps))
  {
    AlikeRuns(l, map[], map[], now, steps);
  }

  // ---- what a lock means --------------------------------------------------------------------------

  /** The Retry-After of a denial is the least whole number of seconds after
      which the same account is let in, if nobody touches it. */
  lemma RetryAfterIsLeastWait(rows: Scopes, scope: string, now: real, w: nat)
    requires Check(rows, scope, now).Denied?
    ensures Check(rows, scope, now + w as real).Allowed? <==> w >= Check(rows, scope, now).retryAfter
  {
  }

  /** The rows after failures of one account at the given times. */
  function FailAll(l: Limits, rows: Scopes, scope: string, times: seq<real>): Scopes {
    if times == [] then rows
    else Fail(l, FailAll(l, rows, scope, times[..|times| - 1]), scope, times[|times| - 1])
  }

  /** Times in order, all inside the window that the first one opens. */
  predicate OneWindow(l: Limits, times: seq<real>) {
    && (forall i, j :: 0 <= i <= j < |times| ==> times[i] <= times[j])
    && (forall i :: 0 <= i < |times| ==> times[i] < times[0] + l.window)
  }

  /** No lock has ended when a further failure comes. */
  predicate WithinLocks(l: Limits, times: seq<real>) {
    forall i :: 0 < i < |times| && l.maxFailures <= i ==> times[i] < times[i - 1] + l.lockout
  }

  /** The budget is exact: with fewer failures in one window a clean account is
      let in, with the full number it is locked for the whole lockout, and every
      failure during the lock starts the lockout again. */
  lemma {:induction false} BudgetIsExact(l: Limits, rows: Scopes, scope: string, times: seq<real>)
    requires ValidLimits(l) && scope !in rows && times != [] && OneWindow(l, times) && WithinLocks(l, times)
    ensures var n, last := |times|, times[|times| - 1];
            var t := FailAll(l, rows, scope, times);
            var lock := if n >= l.maxFailures then Some(last + l.lockout) else None;
            && scope in t && t[scope] == Throttle(n, times[0], lock, last)
            && (forall now :: Check(t, scope, now).Denied? <==> n >= l.maxFailures && now < last + l.lockout)
    decreases |times|
  {
    if |times| > 1 { BudgetIsExact(l, rows, scope, times[..|times| - 1]); }
  }

  /** The recorded lock or window is over. */
  predicate StartsOver(l: Limits, r: Throttle, now: real) {
    (r.lockedUntil.Some? && r.lockedUntil.value <= now) || r.windowStart + l.window <= now
  }

  lemma {:induction false} OverIsAbsent(l: Limits, rows: Scopes, scope: string, times: seq<real>)
    requires ValidLimits(l) && scope in rows && times != [] && StartsOver(l, rows[scope], times[0])
    ensures FailAll(l, rows, scope, times) == FailAll(l, rows - {scope}, scope, times)
    decreases |times|
  {
    var rest := times[..|times| - 1];
    if |times| == 1 {
      assert FailAll(l, rows, scope, []) == rows && FailAll(l, rows - {scope}, scope, []) == rows - {scope};
      assert FailAll(l, rows, scope, times) == FailAll(l, rows - {scope}, scope, times);
    } else {
      OverIsAbsent(l, rows, scope, rest);
    }
  }

  /** Once a lock or a window is over, the account is treated like a clean one:
      the next failures in one window lock it exactly when they use up a whole
      budget. */
  lemma OldLocksAreForgotten(l: Limits, rows: Scopes, scope: string, times: seq<real>)
    requires ValidLimits(l) && scope in rows && times != [] && StartsOver(l, rows[scope], times[0])
    requires OneWindow(l, times) && WithinLocks(l, times)
    ensures var t := FailAll(l, rows, scope, times);
            forall now ::
              Check(t, scope, now).Denied? <==>
                |times| >= l.maxFailures && now < times[|times| - 1] + l.lockout
  {
    OverIsAbsent(l, rows, scope, times);
    BudgetIsExact(l, rows - {scope}, scope, times);
  }

  /** A success forgets everything about its account and nothing else: whatever
      was recorded before, the account is let in, and the next failures are
      counted against a whole budget. */
  lemma SuccessRestoresBudget(l: Limits, rows: Scopes, scope: string, times: seq<real>)
    requires ValidLimits(l) && times != [] && OneWindow(l, times) && WithinLocks(l, times)
    ensures forall now :: Check(Succeed(rows, scope), scope, now).Allowed?
    ensures forall k, now :: k != scope ==> Check(Succeed(rows, scope), k, now) == Check(rows, k, now)
    ensures var t := FailAll(l, Succeed(rows, scope), scope, times);
            forall now ::
              Check(t, scope, now).Denied? <==>
                |times| >= l.maxFailures && now < times[|times| - 1] + l.lockout
  {
    BudgetIsExact(l, Succeed(rows, scope), scope, times);
  }
}
