/** The outbox composed with the platform: any number of relays, crashes, lost
    replies and lease expiries, together with everything else that happens on
    the platform. */
module OutboxDelivery {
  import opened Base
  import opened Types
  import opened Platform
  import opened Admission
  import opened Machine
  import opened Integrity
  import opened Events
  import opened Ingestion
  import opened Invariant
  import opened Outbox

  /** `messages` are all the claims relays ever got, by token; a relay that
      crashed still has its own. `delivered` are the tokens whose call the
      platform answered with an event, whether or not the reply arrived. */
  datatype World = World(
    platform: State, rows: Table, messages: map<nat, Message>, delivered: set<nat>, nextToken: nat)

  type Fingerprint = Content -> Bytes

  /** Where the outbox sends to and how it claims. */
  datatype Target = Target(project: nat, org: nat, policy: Policy)

  datatype WorldStep =
    | Elsewhere(step: Step)
    | EnqueueRow(id: nat, content: Content, key: string, at: real)
    | ClaimBatch(ids: seq<nat>, at: real)
    | Look(token: nat)
    | Submit(token: nat, envelope: Bytes)
    | Conclude(token: nat, reply: Reply, jitter: real, at: real)

  function RequestOf(g: Target, fp: Fingerprint, m: Message, envelope: Bytes): Request {
    Request(g.project, m.key, m.content.eventType, m.content.mode, m.content.payload, fp(m.content), envelope)
  }

  /** A relay may record any failure at any time, but success only when the
      platform answered its call. The organization is not being removed. */
  predicate Possible(c: Settings, g: Target, w: World, step: WorldStep)
    requires ValidSettings(c)
  {
    match step
    case Elsewhere(step) => Enabled(c, w.platform, step) && !CleansUp(w.platform, step, g.org)
    case EnqueueRow(_, _, _, _) => true
    case ClaimBatch(ids, now) => Claimables(w.rows, ids, now) && |ids| <= g.policy.batchSize
    case Look(token) => token in w.messages
    case Submit(token, _) => token in w.messages
    case Conclude(token, reply, _, _) => token in w.messages && (reply.Delivered? ==> token in w.delivered)
  }

  /** The messages by token after the first `n` of a batch were handed out. */
  function Handed(messages: map<nat, Message>, rows: Table, ids: seq<nat>, base: nat, n: nat): map<nat, Message>
    requires n <= |ids| && forall id :: id in ids ==> id in rows
  {
    if n == 0 then messages
    else
      assert ids[n - 1] in ids;
      Handed(messages, rows, ids, base, n - 1)[base + n - 1 := MessageOf(rows, ids[n - 1], base + n - 1)]
  }

  function EnqueueIn(w: World, id: nat, content: Content, key: string, now: real): World {
    var rows := Enqueue(w.rows, id, content, key, now);
    if rows.None? then w else w.(rows := rows.value)
  }

  function ClaimIn(g: Target, w: World, ids: seq<nat>, now: real): World
    requires forall id :: id in ids ==> id in w.rows
  {
    w.(rows := Claimed(g.policy, w.rows, ids, now, w.nextToken, |ids|),
       messages := Handed(w.messages, w.rows, ids, w.nextToken, |ids|),
       nextToken := w.nextToken + |ids|)
  }

  /** The unlocked look of a message's call. */
  function LookIn(g: Target, fp: Fingerprint, w: World, token: nat): World
    requires token in w.messages
  {
    var found := Lookup(w.platform, RequestOf(g, fp, w.messages[token], []));
    if found.Some? && found.value.Existing? then w.(delivered := w.delivered + {token}) else w
  }

  /** The locked part of a message's call. */
  function SubmitIn(c: Settings, g: Target, fp: Fingerprint, w: World, token: nat, envelope: Bytes): World
    requires ValidSettings(c) && token in w.messages
  {
    var (s, answer) := Ingest(c, w.platform, RequestOf(g, fp, w.messages[token], envelope));
    w.(platform := s, delivered := if Named(answer).Some? then w.delivered + {token} else w.delivered)
  }

  function ConcludeIn(g: Target, w: World, token: nat, reply: Reply, jitter: real, now: real): World
    requires token in w.messages
  {
    w.(rows := Settle(g.policy, w.rows, w.messages[token], reply, jitter, now))
  }

  function After1(c: Settings, g: Target, fp: Fingerprint, w: World, step: WorldStep): World
    requires ValidSettings(c) && Possible(c, g, w, step)
  {
    match step
    case Elsewhere(step) => w.(platform := Apply(c, w.platform, step))
    case EnqueueRow(id, content, key, now) => EnqueueIn(w, id, content, key, now)
    case ClaimBatch(ids, now) => ClaimIn(g, w, ids, now)
    case Look(token) => LookIn(g, fp, w, token)
    case Submit(token, envelope) => SubmitIn(c, g, fp, w, token, envelope)
    case Conclude(token, reply, jitter, now) => ConcludeIn(g, w, token, reply, jitter, now)
  }

  predicate IsHistory(c: Settings, g: Target, fp: Fingerprint, w: World, steps: seq<WorldStep>)
    requires ValidSettings(c)
    decreases |steps|
  {
    steps == [] || (Possible(c, g, w, steps[0]) && IsHistory(c, g, fp, After1(c, g, fp, w, steps[0]), steps[1..]))
  }

  function AfterAll(c: Settings, g: Target, fp: Fingerprint, w: World, steps: seq<WorldStep>): World
    requires ValidSettings(c) && IsHistory(c, g, fp, w, steps)
    decreases |steps|
  {
    if steps == [] then w else AfterAll(c, g, fp, After1(c, g, fp, w, steps[0]), steps[1..])
  }

  // ---- the invariant ---------------------------------------------------------------------

  /** The event holds what the row said. */
  predicate Carries(s: State, e: nat, g: Target, fp: Fingerprint, content: Content, key: string) {
    && HasKey(s, e, g.project, key)
    && s.events[e].eventType == content.eventType && s.events[e].mode == content.mode
    && s.events[e].payloadHash == fp(content)
  }

  ghost predicate Recorded(s: State, g: Target, fp: Fingerprint, content: Content, key: string) {
    exists e :: Carries(s, e, g, fp, content, key)
  }

  predicate Home(s: State, g: Target) { g.project in s.projects && s.projects[g.project] == g.org }

  predicate MessageOk(rows: Table, n: nat, token: nat, m: Message) {
    token < n && m.token == token && m.id in rows && rows[m.id].content == m.content && rows[m.id].key == m.key
  }

  ghost predicate MessagesOk(rows: Table, n: nat, messages: map<nat, Message>) {
    forall t :: t in messages ==> MessageOk(rows, n, t, messages[t])
  }

  ghost predicate DeliveredOk(g: Target, fp: Fingerprint, w: World) {
    forall t :: t in w.delivered ==>
      t in w.messages && Recorded(w.platform, g, fp, w.messages[t].content, w.messages[t].key)
  }

  ghost predicate SentOk(g: Target, fp: Fingerprint, s: State, rows: Table) {
    forall id :: id in rows && rows[id].sentAt.Some? ==> Recorded(s, g, fp, rows[id].content, rows[id].key)
  }

  /** What the invariant says about the outbox, given the platform's events. */
  ghost predicate OutboxOk(g: Target, fp: Fingerprint, w: World) {
    && TableOk(w.rows) && MessagesOk(w.rows, w.nextToken, w.messages)
    && DeliveredOk(g, fp, w) && SentOk(g, fp, w.platform, w.rows)
  }

  ghost predicate WorldOk(c: Settings, g: Target, fp: Fingerprint, w: World) {
    Inv(c, w.platform) && Home(w.platform, g) && OutboxOk(g, fp, w)
  }

  // ---- platform steps ---------------------------------------------------------------------

  lemma RecordLasts(c: Settings, g: Target, fp: Fingerprint, s: State, step: Step, content: Content, key: string)
    requires ValidSettings(c) && Enabled(c, s, step) && Inv(c, s) && Home(s, g) && !CleansUp(s, step, g.org)
    requires Recorded(s, g, fp, content, key)
    ensures Recorded(Apply(c, s, step), g, fp, content, key)
  {
    var e :| Carries(s, e, g, fp, content, key);
    EventSurvives(c, s, step, e, g.org);
    assert Carries(Apply(c, s, step), e, g, fp, content, key);
  }

  /** A platform step keeps everything the outbox relies on. */
  lemma PlatformKeeps(c: Settings, g: Target, fp: Fingerprint, w: World, step: Step)
    requires ValidSettings(c) && WorldOk(c, g, fp, w)
    requires Enabled(c, w.platform, step) && !CleansUp(w.platform, step, g.org)
    ensures WorldOk(c, g, fp, w.(platform := Apply(c, w.platform, step)))
  {
    var s := Apply(c, w.platform, step);
    StepKeepsInv(c, w.platform, step);
    ProjectStays(c, w.platform, step, g.project, g.org);
    forall t | t in w.delivered ensures Recorded(s, g, fp, w.messages[t].content, w.messages[t].key) {
      RecordLasts(c, g, fp, w.platform, step, w.messages[t].content, w.messages[t].key);
    }
    forall id | id in w.rows && w.rows[id].sentAt.Some? ensures Recorded(s, g, fp, w.rows[id].content, w.rows[id].key) {
      RecordLasts(c, g, fp, w.platform, step, w.rows[id].content, w.rows[id].key);
    }
  }

  // ---- relay steps --------------------------------------------------------------------------

  lemma EnqueueKeepsOutbox(g: Target, fp: Fingerprint, w: World, id: nat, content: Content, key: string, now: real)
    requires OutboxOk(g, fp, w)
    ensures var t := EnqueueIn(w, id, content, key, now); OutboxOk(g, fp, t) && t.platform == w.platform
  {
    if Enqueue(w.rows, id, content, key, now).Some? {
      EnqueueKeeps(w.rows, id, content, key, now);
      var t := Enqueue(w.rows, id, content, key, now).value;
      MessagesFollow(w.rows, t, w.nextToken, w.nextToken, w.messages);
      SentFollows(g, fp, w.platform, w.rows, t);
    }
  }

  lemma MessagesFollow(rows: Table, t: Table, n: nat, m: nat, messages: map<nat, Message>)
    requires MessagesOk(rows, n, messages) && TableGrows(rows, t) && n <= m
    ensures MessagesOk(t, m, messages)
  {
    forall k | k in messages ensures MessageOk(t, m, k, messages[k]) {
      assert MessageOk(rows, n, k, messages[k]);
    }
  }

  /** No row becomes sent. */
  lemma SentFollows(g: Target, fp: Fingerprint, s: State, rows: Table, t: Table)
    requires SentOk(g, fp, s, rows) && TableGrows(rows, t)
    requires forall id :: id in t && t[id].sentAt.Some? ==> id in rows && rows[id].sentAt.Some?
    ensures SentOk(g, fp, s, t)
  {
    forall id | id in t && t[id].sentAt.Some? ensures Recorded(s, g, fp, t[id].content, t[id].key) {
      assert Recorded(s, g, fp, rows[id].content, rows[id].key);
    }
  }

  lemma {:induction false} HandedOk(messages: map<nat, Message>, rows: Table, t: Table, ids: seq<nat>, base: nat, n: nat)
    requires n <= |ids| && (forall id :: id in ids ==> id in rows)
    requires TableGrows(rows, t) && MessagesOk(t, base, messages)
    ensures MessagesOk(t, base + n, Handed(messages, rows, ids, base, n))
    ensures forall k :: k in messages ==>
              k in Handed(messages, rows, ids, base, n) && Handed(messages, rows, ids, base, n)[k] == messages[k]
  {
    if n > 0 {
      HandedOk(messages, rows, t, ids, base, n - 1);
      assert ids[n - 1] in ids;
      forall k | k in messages ensures k < base { assert MessageOk(t, base, k, messages[k]); }
      var before := Handed(messages, rows, ids, base, n - 1);
      forall k | k in before ensures MessageOk(t, base + n, k, before[k]) {
        assert MessageOk(t, base + n - 1, k, before[k]);
      }
    }
  }

  lemma ClaimKeepsOutbox(g: Target, fp: Fingerprint, w: World, ids: seq<nat>, now: real)
    requires OutboxOk(g, fp, w) && Claimables(w.rows, ids, now)
    ensures var t := ClaimIn(g, w, ids, now); OutboxOk(g, fp, t) && t.platform == w.platform
  {
    var t := Claimed(g.policy, w.rows, ids, now, w.nextToken, |ids|);
    ClaimKeeps(g.policy, w.rows, ids, now, w.nextToken);
    MessagesFollow(w.rows, t, w.nextToken, w.nextToken, w.messages);
    HandedOk(w.messages, w.rows, t, ids, w.nextToken, |ids|);
    SentFollows(g, fp, w.platform, w.rows, t);
  }

  /** Recording that the platform answered a call. */
  lemma DeliveredKeeps(g: Target, fp: Fingerprint, w: World, token: nat)
    requires OutboxOk(g, fp, w) && token in w.messages
    requires Recorded(w.platform, g, fp, w.messages[token].content, w.messages[token].key)
    ensures OutboxOk(g, fp, w.(delivered := w.delivered + {token}))
  {
  }

  lemma NamedIsRecorded(s: State, g: Target, fp: Fingerprint, m: Message, envelope: Bytes, e: nat)
    requires var r := RequestOf(g, fp, m, envelope); HasKey(s, e, r.project, r.key) && SameContent(s.events[e], r)
    ensures Recorded(s, g, fp, m.content, m.key)
  {
    assert Carries(s, e, g, fp, m.content, m.key);
  }

  lemma LookKeepsOutbox(g: Target, fp: Fingerprint, w: World, token: nat)
    requires OutboxOk(g, fp, w) && token in w.messages
    ensures var t := LookIn(g, fp, w, token); OutboxOk(g, fp, t) && t.platform == w.platform
  {
    var r := RequestOf(g, fp, w.messages[token], []);
    var found := Lookup(w.platform, r);
    if found.Some? && found.value.Existing? {
      ExistingStored(w.platform, r);
      NamedIsRecorded(w.platform, g, fp, w.messages[token], [], found.value.event);
      DeliveredKeeps(g, fp, w, token);
    }
  }

  lemma ExistingStored(s: State, r: Request)
    requires Lookup(s, r).Some? && Lookup(s, r).value.Existing?
    ensures var e := Lookup(s, r).value.event; HasKey(s, e, r.project, r.key) && SameContent(s.events[e], r)
  {
  }

  lemma SubmitKeepsWorld(c: Settings, g: Target, fp: Fingerprint, w: World, token: nat, envelope: Bytes)
    requires ValidSettings(c) && WorldOk(c, g, fp, w) && token in w.messages
    ensures WorldOk(c, g, fp, SubmitIn(c, g, fp, w, token, envelope))
  {
    var r := RequestOf(g, fp, w.messages[token], envelope);
    var step := OnIntake(IngestEvent(r));
    var w1 := w.(platform := Apply(c, w.platform, step));
    PlatformKeeps(c, g, fp, w, step);
    var a := Ingest(c, w.platform, r).1;
    if Named(a).Some? {
      AnswerStored(c, w.platform, r);
      NamedIsRecorded(w1.platform, g, fp, w.messages[token], envelope, Named(a).value);
      DeliveredKeeps(g, fp, w1, token);
    }
    assert SubmitIn(c, g, fp, w, token, envelope)
        == w1.(delivered := if Named(a).Some? then w.delivered + {token} else w.delivered);
  }

  /** The event a locked call names is stored with the call's content. */
  lemma AnswerStored(c: Settings, s: State, r: Request)
    requires ValidSettings(c) && Named(Ingest(c, s, r).1).Some?
    ensures var (t, a) := Ingest(c, s, r);
            HasKey(t, Named(a).value, r.project, r.key) && SameContent(t.events[Named(a).value], r)
  {
    var tenant := IngestOutcome(c, s, r);
    if Ingest(c, s, r).1.Accepted? {
      AcceptedStored(c, s, r);
    } else {
      ExistingStored(s, r);
    }
  }

  lemma ConcludeKeepsOutbox(
    g: Target, fp: Fingerprint, w: World, token: nat, reply: Reply, jitter: real, now: real)
    requires OutboxOk(g, fp, w) && token in w.messages && (reply.Delivered? ==> token in w.delivered)
    ensures var t := ConcludeIn(g, w, token, reply, jitter, now); OutboxOk(g, fp, t) && t.platform == w.platform
  {
    var m := w.messages[token];
    var t := Settle(g.policy, w.rows, m, reply, jitter, now);
    SettleKeeps(g.policy, w.rows, m, reply, jitter, now);
    MessagesFollow(w.rows, t, w.nextToken, w.nextToken, w.messages);
    forall id | id in t && t[id].sentAt.Some? ensures Recorded(w.platform, g, fp, t[id].content, t[id].key) {
      if w.rows[id].sentAt.Some? {
        assert Recorded(w.platform, g, fp, w.rows[id].content, w.rows[id].key);
      } else {
        assert MessageOk(w.rows, w.nextToken, token, m);
      }
    }
  }

  lemma StepKeepsWorld(c: Settings, g: Target, fp: Fingerprint, w: World, step: WorldStep)
    requires ValidSettings(c) && WorldOk(c, g, fp, w) && Possible(c, g, w, step)
    ensures WorldOk(c, g, fp, After1(c, g, fp, w, step))
  {
    match step
    case Elsewhere(step) => PlatformKeeps(c, g, fp, w, step);
    case EnqueueRow(id, content, key, now) => EnqueueKeepsOutbox(g, fp, w, id, content, key, now);
    case ClaimBatch(ids, now) => ClaimKeepsOutbox(g, fp, w, ids, now);
    case Look(token) => LookKeepsOutbox(g, fp, w, token);
    case Submit(token, envelope) => SubmitKeepsWorld(c, g, fp, w, token, envelope);
    case Conclude(token, reply, jitter, now) => ConcludeKeepsOutbox(g, fp, w, token, reply, jitter, now);
  }

  lemma {:induction false} HistoryKeepsWorld(c: Settings, g: Target, fp: Fingerprint, w: World, steps: seq<WorldStep>)
    requires ValidSettings(c) && WorldOk(c, g, fp, w) && IsHistory(c, g, fp, w, steps)
    ensures WorldOk(c, g, fp, AfterAll(c, g, fp, w, steps))
    decreases |steps|
  {
    if steps != [] {
      StepKeepsWorld(c, g, fp, w, steps[0]);
      HistoryKeepsWorld(c, g, fp, After1(c, g, fp, w, steps[0]), steps[1..]);
    }
  }

  // ---- what it comes to ------------------------------------------------------------------------

  /** What is promised for one row: at most one event on the platform, stored
      with the row's content once the row is sent; never both sent and failed;
      and while neither, claimable again from some time on. */
  ghost predicate Promise(s: State, g: Target, fp: Fingerprint, r: Row) {
    && (forall a, b :: HasKey(s, a, g.project, r.key) && HasKey(s, b, g.project, r.key) ==> a == b)
    && (r.sentAt.Some? ==> Recorded(s, g, fp, r.content, r.key))
    && !(r.sentAt.Some? && r.failedAt.Some?)
    && (!Finished(r) ==> r.nextAttemptAt.Some? && forall now :: now >= FreeAt(r) ==> Claimable(r, now))
  }

  lemma RowPromise(c: Settings, g: Target, fp: Fingerprint, w: World, id: nat)
    requires ValidSettings(c) && WorldOk(c, g, fp, w) && id in w.rows
    ensures Promise(w.platform, g, fp, w.rows[id])
  {
    var s, r := w.platform, w.rows[id];
    forall a: nat, b: nat | HasKey(s, a, g.project, r.key) && HasKey(s, b, g.project, r.key) ensures a == b {
      assert SameKey(s.events[a], s.events[b]);
    }
    assert RelayRowOk(r);
  }

  /** An outbox with nothing in it, next to a platform in any reachable state. */
  function EmptyOutbox(s: State): World { World(s, map[], map[], {}, 0) }

  /** From an empty outbox, whatever relays, crashes and the platform do, every
      row keeps its promise. */
  lemma OutboxIsReliable(c: Settings, g: Target, fp: Fingerprint, s: State, steps: seq<WorldStep>, id: nat)
    requires ValidSettings(c) && Inv(c, s) && Home(s, g)
    requires IsHistory(c, g, fp, EmptyOutbox(s), steps) && id in AfterAll(c, g, fp, EmptyOutbox(s), steps).rows
    ensures var w := AfterAll(c, g, fp, EmptyOutbox(s), steps); Promise(w.platform, g, fp, w.rows[id])
  {
    HistoryKeepsWorld(c, g, fp, EmptyOutbox(s), steps);
    RowPromise(c, g, fp, AfterAll(c, g, fp, EmptyOutbox(s), steps), id);
  }
}
