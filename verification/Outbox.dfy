/** The transactional outbox of the Python SDK
    (`sdk/python/src/webhook_platform_sdk/outbox.py`): the table, the relay's
    transactions as functions on it, and the relay as a class. */
module Outbox {
  import opened Base
  import opened Types
  import opened RetryPolicy

  datatype Row = Row(
    content: Content, key: string, leaseToken: Option<nat>, lockedUntil: Option<real>,
    attemptCount: nat, nextAttemptAt: Option<real>, lastError: Option<string>,
    createdAt: real, sentAt: Option<real>, failedAt: Option<real>)

  type Table = map<nat, Row>

  datatype Message = Message(id: nat, content: Content, key: string, token: nat, attemptNumber: nat)

  datatype Policy = Policy(
    batchSize: nat, leaseSeconds: real, maxAttempts: nat, retryBase: real, retryCap: real)

  predicate ValidPolicy(p: Policy) {
    && 1 <= p.batchSize <= 1000 && p.leaseSeconds >= 1.0 && p.maxAttempts >= 1
    && 0.0 <= p.retryBase <= p.retryCap
  }

  /** What the producer call came back with. */
  datatype Reply =
    | Delivered
    | ApiError(status: int, code: string, retryAfter: Option<nat>)
    | ClientError(name: string)

  // ---- transactions -------------------------------------------------------------------

  predicate Finished(r: Row) { r.sentAt.Some? || r.failedAt.Some? }

  predicate KeyTaken(rows: Table, key: string) { exists id :: id in rows && rows[id].key == key }

  /** Insert a row; an empty type or a key in use is an error. */
  function Enqueue(rows: Table, id: nat, content: Content, key: string, now: real): Option<Table> {
    if content.eventType == "" || id in rows || KeyTaken(rows, key) then None
    else Some(rows[id := Row(content, key, None, None, 0, Some(now), None, now, None, None)])
  }

  predicate Claimable(r: Row, now: real) {
    && r.sentAt.None? && r.failedAt.None?
    && r.nextAttemptAt.Some? && r.nextAttemptAt.value <= now
    && (r.lockedUntil.None? || r.lockedUntil.value <= now)
  }

  predicate Claimables(rows: Table, ids: seq<nat>, now: real) {
    Distinct(ids) && forall id :: id in ids ==> id in rows && Claimable(rows[id], now)
  }

  function Locked(p: Policy, r: Row, now: real, token: nat): Row {
    r.(leaseToken := Some(token), lockedUntil := Some(now + p.leaseSeconds), attemptCount := r.attemptCount + 1)
  }

  /** The table after the first `n` rows of a batch are locked, with tokens from
      `base` on. */
  function Claimed(p: Policy, rows: Table, ids: seq<nat>, now: real, base: nat, n: nat): (t: Table)
    requires n <= |ids| && forall id :: id in ids ==> id in rows
    ensures t.Keys == rows.Keys
  {
    if n == 0 then rows
    else
      var t := Claimed(p, rows, ids, now, base, n - 1);
      assert ids[n - 1] in ids;
      t[ids[n - 1] := Locked(p, t[ids[n - 1]], now, base + n - 1)]
  }

  function MessageOf(rows: Table, id: nat, token: nat): Message
    requires id in rows
  {
    Message(id, rows[id].content, rows[id].key, token, rows[id].attemptCount + 1)
  }

  function MessagesOf(rows: Table, ids: seq<nat>, base: nat, n: nat): (ms: seq<Message>)
    requires n <= |ids| && forall id :: id in ids ==> id in rows
    ensures |ms| == n
  {
    if n == 0 then []
    else
      assert ids[n - 1] in ids;
      MessagesOf(rows, ids, base, n - 1) + [MessageOf(rows, ids[n - 1], base + n - 1)]
  }

  /** The guarded update that ends an attempt: only for the current token of a
      row that is not sent. */
  function Finish(
    rows: Table, m: Message, sent: bool, error: Option<string>, retryAt: Option<real>, terminal: bool, now: real
  ): Table {
    if m.id !in rows || rows[m.id].leaseToken != Some(m.token) || rows[m.id].sentAt.Some? then rows
    else
      var r := rows[m.id];
      rows[m.id := r.(
        leaseToken := None, lockedUntil := None, lastError := error, nextAttemptAt := retryAt,
        sentAt := if sent then Some(now) else r.sentAt,
        failedAt := if !sent && terminal then Some(now) else r.failedAt)]
  }

  function RelayDelay(p: Policy, jitter: real, retryAfter: Option<nat>): real {
    if retryAfter.None? then jitter else MaxReal(jitter, MinReal(retryAfter.value as real, p.retryCap))
  }

  function RecordFailure(
    p: Policy, rows: Table, m: Message, code: string, retryable: bool, retryAfter: Option<nat>, jitter: real, now: real
  ): Table {
    var terminal := !retryable || m.attemptNumber >= p.maxAttempts;
    Finish(rows, m, false, Some(code[..MinInt(64, |code|)]),
           if terminal then None else Some(now + RelayDelay(p, jitter, retryAfter)), terminal, now)
  }

  predicate Retryable(status: int) {
    status in {408, 425, 429, 503} || status >= 500
  }

  /** What the relay writes after a reply. */
  function Settle(p: Policy, rows: Table, m: Message, reply: Reply, jitter: real, now: real): Table {
    match reply
    case Delivered => Finish(rows, m, true, None, None, false, now)
    case ApiError(status, code, retryAfter) =>
      RecordFailure(p, rows, m, code, Retryable(status), retryAfter, jitter, now)
    case ClientError(name) => RecordFailure(p, rows, m, name, true, None, jitter, now)
  }

  /** The table after the first `n` messages of a batch got their replies, each
      at its own time. */
  function SettleAll(
    p: Policy, rows: Table, ms: seq<Message>, replies: seq<Reply>, jitters: seq<real>, times: seq<real>, n: nat
  ): Table
    requires n <= |ms| == |replies| == |jitters| == |times|
  {
    if n == 0 then rows
    else
      Settle(p, SettleAll(p, rows, ms, replies, jitters, times, n - 1),
             ms[n - 1], replies[n - 1], jitters[n - 1], times[n - 1])
  }

  function Deliveries(replies: seq<Reply>): nat {
    if replies == [] then 0
    else Deliveries(replies[..|replies| - 1]) + if replies[|replies| - 1].Delivered? then 1 else 0
  }

  // ---- the relay -------------------------------------------------------------------------

  /** A relay over its own view of the table. Other relays and the clock are the
      caller's business: every method is one transaction but `RunOnce`. */
  class OutboxRelay {
    const policy: Policy
    var rows: Table
    var nextToken: nat

    constructor (policy: Policy)
      requires ValidPolicy(policy)
      ensures this.policy == policy && rows == map[] && nextToken == 0
    {
      this.policy := policy;
      rows := map[];
      nextToken := 0;
    }

    method EnqueueOutbox(id: nat, content: Content, key: string, now: real) returns (ok: bool)
      modifies this`rows
      ensures ok == Enqueue(old(rows), id, content, key, now).Some?
      ensures rows == if ok then Enqueue(old(rows), id, content, key, now).value else old(rows)
    {
      ok := content.eventType != "" && id !in rows && !KeyTaken(rows, key);
      if ok {
        rows := rows[id := Row(content, key, None, None, 0, Some(now), None, now, None, None)];
      }
    }

    method Claim(ids: seq<nat>, now: real) returns (claimed: seq<Message>)
      requires Claimables(rows, ids, now) && |ids| <= policy.batchSize
      modifies this
      ensures rows == Claimed(policy, old(rows), ids, now, old(nextToken), |ids|)
      ensures claimed == MessagesOf(old(rows), ids, old(nextToken), |ids|)
      ensures nextToken == old(nextToken) + |ids|
    {
      claimed := [];
      ghost var start := rows;
      for i := 0 to |ids|
        invariant rows == Claimed(policy, start, ids, now, old(nextToken), i)
        invariant claimed == MessagesOf(start, ids, old(nextToken), i)
        invariant nextToken == old(nextToken) + i
      {
        assert ids[i] in ids;
        ClaimedLater(policy, start, ids, now, old(nextToken), i, ids[i]);
        var row := rows[ids[i]];
        claimed := claimed + [Message(ids[i], row.content, row.key, nextToken, row.attemptCount + 1)];
        rows := rows[ids[i] := row.(
          leaseToken := Some(nextToken), lockedUntil := Some(now + policy.leaseSeconds),
          attemptCount := row.attemptCount + 1)];
        nextToken := nextToken + 1;
      }
    }

    method FinishMessage(
      m: Message, sent: bool, error: Option<string>, retryAt: Option<real>, terminal: bool, now: real)
      modifies this`rows
      ensures rows == Finish(old(rows), m, sent, error, retryAt, terminal, now)
    {
      if m.id in rows && rows[m.id].leaseToken == Some(m.token) && rows[m.id].sentAt.None? {
        var row := rows[m.id].(leaseToken := None, lockedUntil := None, lastError := error, nextAttemptAt := retryAt);
        if sent {
          row := row.(sentAt := Some(now));
        } else if terminal {
          row := row.(failedAt := Some(now));
        }
        rows := rows[m.id := row];
      }
    }

    method RecordMessageFailure(
      m: Message, code: string, retryable: bool, retryAfter: Option<nat>, jitter: real, now: real)
      modifies this`rows
      ensures rows == RecordFailure(policy, old(rows), m, code, retryable, retryAfter, jitter, now)
    {
      var terminal := !retryable || m.attemptNumber >= policy.maxAttempts;
      var retryAt := None;
      if !terminal {
        var delay := jitter;
        if retryAfter.Some? {
          delay := MaxReal(delay, MinReal(retryAfter.value as real, policy.retryCap));
        }
        retryAt := Some(now + delay);
      }
      FinishMessage(m, false, Some(code[..MinInt(64, |code|)]), retryAt, terminal, now);
    }

    /** One bounded batch, claimed now, with the given producer replies and times. */
    method RunOnce(ids: seq<nat>, replies: seq<Reply>, jitters: seq<real>, now: real, times: seq<real>)
      returns (succeeded: nat, failed: nat)
      requires Claimables(rows, ids, now) && |ids| <= policy.batchSize && |ids| == |replies| == |jitters| == |times|
      modifies this
      ensures var claimed := Claimed(policy, old(rows), ids, now, old(nextToken), |ids|);
              var ms := MessagesOf(old(rows), ids, old(nextToken), |ids|);
              rows == SettleAll(policy, claimed, ms, replies, jitters, times, |ids|)
      ensures succeeded == Deliveries(replies) && succeeded + failed == |ids|
    {
      var messages := Claim(ids, now);
      succeeded, failed := 0, 0;
      ghost var claimed := rows;
      for i := 0 to |messages|
        invariant rows == SettleAll(policy, claimed, messages, replies, jitters, times, i)
        invariant succeeded == Deliveries(replies[..i]) && succeeded + failed == i
      {
        assert replies[..i + 1][..i] == replies[..i];
        match replies[i]
        case Delivered =>
          FinishMessage(messages[i], true, None, None, false, times[i]);
          succeeded := succeeded + 1;
        case ApiError(status, code, retryAfter) =>
          RecordMessageFailure(messages[i], code, Retryable(status), retryAfter, jitters[i], times[i]);
          failed := failed + 1;
        case ClientError(name) =>
          RecordMessageFailure(messages[i], name, true, None, jitters[i], times[i]);
          failed := failed + 1;
      }
      assert replies[..|messages|] == replies;
    }
  }

  /** Rows of a batch are untouched until their turn. */
  lemma {:induction false} ClaimedLater(p: Policy, rows: Table, ids: seq<nat>, now: real, base: nat, n: nat, id: nat)
    requires n <= |ids| && (forall x :: x in ids ==> x in rows)
    requires id in rows && forall i :: 0 <= i < n ==> ids[i] != id
    ensures Claimed(p, rows, ids, now, base, n)[id] == rows[id]
  {
    if n > 0 { ClaimedLater(p, rows, ids, now, base, n - 1, id); }
  }

  // ---- what every transaction keeps ------------------------------------------------------------

  /** Leased only while unfinished, never both sent and failed, and scheduled
      exactly while unfinished. */
  predicate RelayRowOk(r: Row) {
    && (r.leaseToken.Some? ==> !Finished(r))
    && !(r.sentAt.Some? && r.failedAt.Some?)
    && (r.nextAttemptAt.Some? <==> !Finished(r))
  }

  ghost predicate KeysDistinct(rows: Table) {
    forall a, b :: a in rows && b in rows && rows[a].key == rows[b].key ==> a == b
  }

  ghost predicate TableOk(rows: Table) {
    KeysDistinct(rows) && forall id :: id in rows ==> RelayRowOk(rows[id])
  }

  /** Contents and keys never change, rows stay, and what is sent stays sent. */
  ghost predicate TableGrows(rows: Table, t: Table) {
    forall id :: id in rows ==>
      && id in t && t[id].content == rows[id].content && t[id].key == rows[id].key
      && (rows[id].sentAt.Some? ==> t[id].sentAt == rows[id].sentAt)
      && (rows[id].failedAt.Some? ==> t[id].failedAt == rows[id].failedAt)
  }

  lemma EnqueueKeeps(rows: Table, id: nat, content: Content, key: string, now: real)
    requires TableOk(rows) && Enqueue(rows, id, content, key, now).Some?
    ensures var t := Enqueue(rows, id, content, key, now).value;
            TableOk(t) && TableGrows(rows, t) && t.Keys == rows.Keys + {id} && t[id].sentAt.None?
  {
  }

  /** Claiming changes only locks and counts. */
  ghost predicate OnlyLocks(rows: Table, t: Table, id: nat) {
    && id in rows && id in t
    && t[id] == rows[id].(leaseToken := t[id].leaseToken, lockedUntil := t[id].lockedUntil,
                          attemptCount := t[id].attemptCount)
    && (t[id].leaseToken != rows[id].leaseToken ==> !Finished(rows[id]))
    && rows[id].attemptCount <= t[id].attemptCount
  }

  lemma {:induction false} ClaimedRowAt(p: Policy, rows: Table, ids: seq<nat>, now: real, base: nat, n: nat, id: nat)
    requires Claimables(rows, ids, now) && n <= |ids| && id in rows
    ensures OnlyLocks(rows, Claimed(p, rows, ids, now, base, n), id)
  {
    if n > 0 { ClaimedRowAt(p, rows, ids, now, base, n - 1, id); }
  }

  lemma ClaimKeeps(p: Policy, rows: Table, ids: seq<nat>, now: real, base: nat)
    requires TableOk(rows) && Claimables(rows, ids, now)
    ensures var t := Claimed(p, rows, ids, now, base, |ids|); TableOk(t) && TableGrows(rows, t) && t.Keys == rows.Keys
    ensures forall id :: id in rows ==> Claimed(p, rows, ids, now, base, |ids|)[id].sentAt == rows[id].sentAt
    ensures forall id :: id in rows ==> rows[id].attemptCount <= Claimed(p, rows, ids, now, base, |ids|)[id].attemptCount
  {
    var t := Claimed(p, rows, ids, now, base, |ids|);
    forall id | id in rows ensures OnlyLocks(rows, t, id) { ClaimedRowAt(p, rows, ids, now, base, |ids|, id); }
  }

  /** A finished attempt leaves the row sent, failed, or scheduled again. */
  lemma FinishKeeps(
    rows: Table, m: Message, sent: bool, error: Option<string>, retryAt: Option<real>, terminal: bool, now: real)
    requires TableOk(rows) && (retryAt.None? <==> sent || terminal)
    ensures var t := Finish(rows, m, sent, error, retryAt, terminal, now);
            && TableOk(t) && TableGrows(rows, t) && t.Keys == rows.Keys
            && (forall id :: id in rows && t[id].sentAt != rows[id].sentAt ==> sent && id == m.id)
            && (forall id :: id in rows ==> t[id].attemptCount == rows[id].attemptCount)
  {
  }

  lemma SettleKeeps(p: Policy, rows: Table, m: Message, reply: Reply, jitter: real, now: real)
    requires TableOk(rows)
    ensures var t := Settle(p, rows, m, reply, jitter, now);
            && TableOk(t) && TableGrows(rows, t) && t.Keys == rows.Keys
            && (forall id :: id in rows && t[id].sentAt != rows[id].sentAt ==> reply.Delivered? && id == m.id)
            && (forall id :: id in rows ==> t[id].attemptCount == rows[id].attemptCount)
  {
    match reply
    case Delivered => FinishKeeps(rows, m, true, None, None, false, now);
    case ApiError(status, code, retryAfter) =>
      FailureKeeps(p, rows, m, code, Retryable(status), retryAfter, jitter, now);
    case ClientError(name) => FailureKeeps(p, rows, m, name, true, None, jitter, now);
  }

  lemma FailureKeeps(
    p: Policy, rows: Table, m: Message, code: string, retryable: bool, retryAfter: Option<nat>, jitter: real, now: real)
    requires TableOk(rows)
    ensures var t := RecordFailure(p, rows, m, code, retryable, retryAfter, jitter, now);
            && TableOk(t) && TableGrows(rows, t) && t.Keys == rows.Keys
            && (forall id :: id in rows ==> t[id].sentAt == rows[id].sentAt)
            && (forall id :: id in rows ==> t[id].attemptCount == rows[id].attemptCount)
  {
    var terminal := !retryable || m.attemptNumber >= p.maxAttempts;
    var error := Some(code[..MinInt(64, |code|)]);
    var retryAt := if terminal then None else Some(now + RelayDelay(p, jitter, retryAfter));
    assert RecordFailure(p, rows, m, code, retryable, retryAfter, jitter, now)
        == Finish(rows, m, false, error, retryAt, terminal, now);
    FinishKeeps(rows, m, false, error, retryAt, terminal, now);
  }

  /** When an unfinished row is free to be claimed, if nobody touches it. */
  function FreeAt(r: Row): real
    requires r.nextAttemptAt.Some?
  {
    if r.lockedUntil.Some? then MaxReal(r.nextAttemptAt.value, r.lockedUntil.value) else r.nextAttemptAt.value
  }

  /** An unfinished row can always be claimed again, from a time on; a finished
      one never. */
  lemma ClaimableAgain(r: Row, now: real)
    requires RelayRowOk(r)
    ensures if Finished(r) then !Claimable(r, now) else r.nextAttemptAt.Some? && (Claimable(r, now) <==> now >= FreeAt(r))
  {
  }

  // ---- what each transaction means for a row ----------------------------------------------

  /** A row is taken into the table exactly for a type that is not empty under a
      key nobody uses; it is unfinished, untried and free from now on. */
  lemma EnqueuedRow(rows: Table, id: nat, content: Content, key: string, now: real)
    requires id !in rows
    ensures Enqueue(rows, id, content, key, now).Some? <==>
              content.eventType != "" && forall x :: x in rows ==> rows[x].key != key
    ensures Enqueue(rows, id, content, key, now).Some? ==>
              var t := Enqueue(rows, id, content, key, now).value;
              && id in t && t - {id} == rows
              && t[id].content == content && t[id].key == key && t[id].attemptCount == 0
              && t[id].sentAt.None? && t[id].failedAt.None?
              && forall later :: Claimable(t[id], later) <==> now <= later
  {
    if Enqueue(rows, id, content, key, now).Some? {
      assert Enqueue(rows, id, content, key, now).value - {id} == rows;
    }
  }

  /** A claimed row belongs to one token for one lease: nobody else can claim it
      before the lease is over, and anybody can afterwards. Its message carries
      the row's content, key, token and attempt number. */
  lemma ClaimedForALease(p: Policy, rows: Table, ids: seq<nat>, now: real, base: nat, i: nat)
    requires ValidPolicy(p) && Claimables(rows, ids, now) && i < |ids|
    ensures ids[i] in rows && ids[i] in Claimed(p, rows, ids, now, base, |ids|)
    ensures var r, t := rows[ids[i]], Claimed(p, rows, ids, now, base, |ids|)[ids[i]];
            && t.leaseToken == Some(base + i) && t.attemptCount == r.attemptCount + 1
            && (forall later :: now <= later ==> (Claimable(t, later) <==> now + p.leaseSeconds <= later))
            && MessagesOf(rows, ids, base, |ids|)[i] == Message(ids[i], r.content, r.key, base + i, r.attemptCount + 1)
  {
    assert ids[i] in ids;
    LockedAt(p, rows, ids, now, base, |ids|, i);
    MessageAt(rows, ids, base, |ids|, i);
  }

  lemma {:induction false} LockedAt(p: Policy, rows: Table, ids: seq<nat>, now: real, base: nat, n: nat, i: nat)
    requires Distinct(ids) && (forall id :: id in ids ==> id in rows) && i < n <= |ids| && ids[i] in rows
    ensures Claimed(p, rows, ids, now, base, n)[ids[i]] == Locked(p, rows[ids[i]], now, base + i)
  {
    if i < n - 1 {
      LockedAt(p, rows, ids, now, base, n - 1, i);
    } else {
      ClaimedLater(p, rows, ids, now, base, n - 1, ids[i]);
    }
  }

  lemma {:induction false} MessageAt(rows: Table, ids: seq<nat>, base: nat, n: nat, i: nat)
    requires (forall id :: id in ids ==> id in rows) && i < n <= |ids| && ids[i] in rows
    ensures MessagesOf(rows, ids, base, n)[i] == MessageOf(rows, ids[i], base + i)
  {
    if i < n - 1 { MessageAt(rows, ids, base, n - 1, i); }
  }

  /** The reply ends the row for good: the last attempt is used up, or the API
      refused it with a status below 500 that is not worth another try. */
  predicate EndsRow(p: Policy, m: Message, reply: Reply) {
    || m.attemptNumber >= p.maxAttempts
    || (reply.ApiError? && reply.status < 500 && reply.status != 408 && reply.status != 425 && reply.status != 429)
  }

  /** For the current token of an unfinished row: an accepted message marks it
      sent, an ending reply marks it failed, and any other leaves it unfinished
      until the larger of the drawn delay and the Retry-After, cut to the cap. */
  lemma SettledRow(p: Policy, rows: Table, m: Message, reply: Reply, jitter: real, now: real)
    requires m.id in rows && rows[m.id].leaseToken == Some(m.token) && !Finished(rows[m.id])
    ensures m.id in Settle(p, rows, m, reply, jitter, now)
    ensures var t := Settle(p, rows, m, reply, jitter, now)[m.id];
            && t.leaseToken.None? && t.lockedUntil.None?
            && t.sentAt == (if reply.Delivered? then Some(now) else None)
            && t.failedAt == (if !reply.Delivered? && EndsRow(p, m, reply) then Some(now) else None)
            && t.content == rows[m.id].content && t.key == rows[m.id].key && t.attemptCount == rows[m.id].attemptCount
            && (reply.ApiError? ==> t.lastError == Some(reply.code[..MinInt(64, |reply.code|)]))
            && (reply.ClientError? ==> t.lastError == Some(reply.name[..MinInt(64, |reply.name|)]))
    ensures var t := Settle(p, rows, m, reply, jitter, now)[m.id];
            !reply.Delivered? && !EndsRow(p, m, reply) ==>
              && t.nextAttemptAt.Some? && t.nextAttemptAt.value >= now + jitter
              && (reply.ApiError? && reply.retryAfter.Some? ==>
                    var asked := MinReal(reply.retryAfter.value as real, p.retryCap);
                    && t.nextAttemptAt.value >= now + asked
                    && (t.nextAttemptAt.value == now + jitter || t.nextAttemptAt.value == now + asked))
              && (!(reply.ApiError? && reply.retryAfter.Some?) ==> t.nextAttemptAt.value == now + jitter)
  {
  }

  /** A late reply, for another token or a sent row, changes nothing, and no
      reply changes another row. */
  lemma OtherRowsStay(p: Policy, rows: Table, m: Message, reply: Reply, jitter: real, now: real)
    ensures m.id !in rows || rows[m.id].leaseToken != Some(m.token) || rows[m.id].sentAt.Some? ==>
              Settle(p, rows, m, reply, jitter, now) == rows
    ensures forall id :: id != m.id && id in rows ==>
              id in Settle(p, rows, m, reply, jitter, now) && Settle(p, rows, m, reply, jitter, now)[id] == rows[id]
  {
  }

  // ---- a whole run of the relay ----------------------------------------------------------------

  /** The number of delivered replies. */
  lemma {:induction false} DeliveriesCount(replies: seq<Reply>)
    ensures Deliveries(replies) == |set i | 0 <= i < |replies| && replies[i].Delivered?|
  {
    if replies != [] {
      var n := |replies| - 1;
      DeliveriesCount(replies[..n]);
      var before := set i | 0 <= i < |replies[..n]| && replies[..n][i].Delivered?;
      var all := set i | 0 <= i < |replies| && replies[i].Delivered?;
      assert all == before + if replies[n].Delivered? then {n} else {};
    }
  }

  predicate DistinctMessages(ms: seq<Message>) {
    forall i, j :: 0 <= i < j < |ms| ==> ms[i].id != ms[j].id
  }

  /** Settling a batch leaves a row without a message alone. */
  lemma {:induction false} SettleElsewhere(
    p: Policy, rows: Table, ms: seq<Message>, replies: seq<Reply>, jitters: seq<real>, times: seq<real>, n: nat, id: nat)
    requires n <= |ms| == |replies| == |jitters| == |times| && id in rows
    requires forall i :: 0 <= i < n ==> ms[i].id != id
    ensures var t := SettleAll(p, rows, ms, replies, jitters, times, n); id in t && t[id] == rows[id]
  {
    if n > 0 {
      SettleElsewhere(p, rows, ms, replies, jitters, times, n - 1, id);
      var before := SettleAll(p, rows, ms, replies, jitters, times, n - 1);
      OtherRowsStay(p, before, ms[n - 1], replies[n - 1], jitters[n - 1], times[n - 1]);
    }
  }

  /** What a reply does to its row depends on that row alone. */
  lemma SettleLocal(p: Policy, a: Table, b: Table, m: Message, reply: Reply, jitter: real, now: real)
    requires m.id in a && m.id in b && a[m.id] == b[m.id]
    ensures var t, u := Settle(p, a, m, reply, jitter, now), Settle(p, b, m, reply, jitter, now);
            m.id in t && m.id in u && t[m.id] == u[m.id]
  {
  }

  /** In a batch every row is settled by its own reply, at its own time. */
  lemma {:induction false} OwnReply(
    p: Policy, rows: Table, ms: seq<Message>, replies: seq<Reply>, jitters: seq<real>, times: seq<real>, n: nat, i: nat)
    requires i < n <= |ms| == |replies| == |jitters| == |times| && DistinctMessages(ms) && ms[i].id in rows
    ensures var t, u := SettleAll(p, rows, ms, replies, jitters, times, n),
                        Settle(p, rows, ms[i], replies[i], jitters[i], times[i]);
            ms[i].id in t && ms[i].id in u && t[ms[i].id] == u[ms[i].id]
  {
    var before := SettleAll(p, rows, ms, replies, jitters, times, n - 1);
    if i == n - 1 {
      SettleElsewhere(p, rows, ms, replies, jitters, times, n - 1, ms[i].id);
      SettleLocal(p, before, rows, ms[i], replies[i], jitters[i], times[i]);
    } else {
      OwnReply(p, rows, ms, replies, jitters, times, n - 1, i);
      OtherRowsStay(p, before, ms[n - 1], replies[n - 1], jitters[n - 1], times[n - 1]);
    }
  }

  /** A claimed row after its reply: one more attempt, the same content, and sent,
      failed or scheduled again by what the reply says. */
  predicate SettledAs(p: Policy, r: Row, t: Row, reply: Reply, jitter: real, at: real) {
    var ends := || r.attemptCount + 1 >= p.maxAttempts
                || (reply.ApiError? && reply.status < 500 && reply.status != 408 && reply.status != 425 && reply.status != 429);
    && t.attemptCount == r.attemptCount + 1 && t.content == r.content && t.key == r.key
    && t.sentAt == (if reply.Delivered? then Some(at) else None)
    && t.failedAt == (if !reply.Delivered? && ends then Some(at) else None)
    && (!reply.Delivered? && !ends ==> t.nextAttemptAt.Some? && t.nextAttemptAt.value >= at + jitter)
  }

  lemma LockedThenSettled(
    p: Policy, rows: Table, r: Row, m: Message, reply: Reply, now: real, jitter: real, at: real)
    requires m.id in rows && rows[m.id] == Locked(p, r, now, m.token) && !Finished(r)
    requires m.attemptNumber == r.attemptCount + 1
    ensures m.id in Settle(p, rows, m, reply, jitter, at)
    ensures SettledAs(p, r, Settle(p, rows, m, reply, jitter, at)[m.id], reply, jitter, at)
  {
    SettledRow(p, rows, m, reply, jitter, at);
  }

  lemma EachSettled(
    p: Policy, rows: Table, ms: seq<Message>, replies: seq<Reply>, jitters: seq<real>, now: real, times: seq<real>,
    i: nat, r: Row)
    requires i < |ms| == |replies| == |jitters| == |times| && DistinctMessages(ms)
    requires ms[i].id in rows && rows[ms[i].id] == Locked(p, r, now, ms[i].token) && !Finished(r)
    requires ms[i].attemptNumber == r.attemptCount + 1
    ensures var done := SettleAll(p, rows, ms, replies, jitters, times, |ms|);
            ms[i].id in done && SettledAs(p, r, done[ms[i].id], replies[i], jitters[i], times[i])
  {
    OwnReply(p, rows, ms, replies, jitters, times, |ms|, i);
    LockedThenSettled(p, rows, r, ms[i], replies[i], now, jitters[i], times[i]);
  }

  /** One run of the relay, row by row: the row at `i` of the batch is settled by
      the reply at `i`. */
  lemma RunSettlesEach(
    p: Policy, rows: Table, ids: seq<nat>, replies: seq<Reply>, jitters: seq<real>, now: real, times: seq<real>,
    base: nat, i: nat)
    requires Claimables(rows, ids, now) && i < |ids| == |replies| == |jitters| == |times|
    ensures var done := SettleAll(p, Claimed(p, rows, ids, now, base, |ids|), MessagesOf(rows, ids, base, |ids|),
                                  replies, jitters, times, |ids|);
            ids[i] in rows && ids[i] in done && SettledAs(p, rows[ids[i]], done[ids[i]], replies[i], jitters[i], times[i])
  {
    assert ids[i] in ids;
    var claimed, ms := Claimed(p, rows, ids, now, base, |ids|), MessagesOf(rows, ids, base, |ids|);
    MessagesApart(rows, ids, base);
    LockedAt(p, rows, ids, now, base, |ids|, i);
    MessageAt(rows, ids, base, |ids|, i);
    EachSettled(p, claimed, ms, replies, jitters, now, times, i, rows[ids[i]]);
  }

  lemma MessagesApart(rows: Table, ids: seq<nat>, base: nat)
    requires Distinct(ids) && forall id :: id in ids ==> id in rows
    ensures DistinctMessages(MessagesOf(rows, ids, base, |ids|))
  {
    var ms := MessagesOf(rows, ids, base, |ids|);
    forall i, j | 0 <= i < j < |ms| ensures ms[i].id != ms[j].id {
      assert ids[i] in ids && ids[j] in ids;
      MessageAt(rows, ids, base, |ids|, i);
      MessageAt(rows, ids, base, |ids|, j);
    }
  }
}
