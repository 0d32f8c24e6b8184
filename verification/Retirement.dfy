/** Whether a delivery can still be attempted after its signing secret retired:
    the exact condition, that deliveries made by ingestion meet it in every run,
    and when a replay does. */
module Retirement {
  import opened Base
  import opened Types
  import opened Platform
  import opened Admission
  import opened Machine
  import opened Rows
  import opened LeaseSafety
  import opened Integrity
  import opened Events
  import opened Secrets
  import opened Invariant

  function VersionOf(s: State, id: nat): (nat, nat)
    requires id in s.deliveries
  {
    (s.deliveries[id].endpoint, s.deliveries[id].snapshot.secretVersion)
  }

  /** The signing version exists, and if it retires, then no sooner than the
      delivery is too old for an attempt, plus some slack. */
  predicate RetiresLate(c: Settings, s: State, id: nat, slack: real)
    requires id in s.deliveries
  {
    var v := VersionOf(s, id);
    && v in s.versions
    && (s.versions[v].retireAt.Some? ==> s.deliveries[id].createdAt + c.maxAge + slack <= s.versions[v].retireAt.value)
  }

  /** Every start that passes the age check, and the slack after it, comes before
      the signing version retires. */
  ghost predicate StartsInTime(c: Settings, k: Claim, retireAt: real, slack: real) {
    forall started: real :: !TooOld(c, k, started) ==> started + slack < retireAt
  }

  /** Attempts of a claim stay before the retirement exactly when the delivery
      retires late. */
  lemma InTimeIff(c: Settings, s: State, token: nat, slack: real)
    requires Leases(c, s) && token in s.issued && s.issued[token].id in s.deliveries
    requires var v := VersionOf(s, s.issued[token].id); v in s.versions && s.versions[v].retireAt.Some?
    ensures var k := s.issued[token];
            StartsInTime(c, k, s.versions[VersionOf(s, k.id)].retireAt.value, slack) <==>
              RetiresLate(c, s, k.id, slack)
  {
    var k := s.issued[token];
    assert Matches(k, s.deliveries[k.id]);
    LastStart(c, k, s.versions[VersionOf(s, k.id)].retireAt.value, slack);
  }

  lemma LastStart(c: Settings, k: Claim, retireAt: real, slack: real)
    ensures StartsInTime(c, k, retireAt, slack) <==> k.createdAt + c.maxAge + slack <= retireAt
  {
    if StartsInTime(c, k, retireAt, slack) { assert TooOld(c, k, retireAt - slack); }
  }

  // ---- ingested deliveries ------------------------------------------------------------

  /** The delivery, if it is still there, is as old as its event. */
  predicate AsOldAsEvent(s: State, id: nat) {
    id in s.deliveries ==>
      s.deliveries[id].event in s.events && s.deliveries[id].createdAt == s.events[s.deliveries[id].event].createdAt
  }

  lemma AcceptedWithEvent(s: State, r: Request, tenant: Tenant, id: nat)
    requires r.project in s.projects && IdsBelow(s.deliveries, s.nextId)
    requires id in Accept(s, r, tenant).deliveries && id !in s.deliveries
    ensures AsOldAsEvent(Accept(s, r, tenant), id) && id < Accept(s, r, tenant).nextId
  {
    AcceptedRows(s, r, tenant);
    AcceptedRow(s, r, tenant, id - s.nextId - 1);
  }

  lemma IngestedWithEvent(c: Settings, s: State, r: Request, id: nat)
    requires ValidSettings(c) && IdsBelow(s.deliveries, s.nextId)
    requires id in Ingest(c, s, r).0.deliveries && id !in s.deliveries
    ensures AsOldAsEvent(Ingest(c, s, r).0, id) && id < Ingest(c, s, r).0.nextId
  {
    var tenant := IngestOutcome(c, s, r);
    AcceptedWithEvent(s, r, tenant, id);
  }

  lemma StaysAsOld(c: Settings, s: State, step: Step, id: nat)
    requires ValidSettings(c) && Enabled(c, s, step) && Inv(c, s) && AsOldAsEvent(s, id) && id < s.nextId
    ensures AsOldAsEvent(Apply(c, s, step), id) && id < Apply(c, s, step).nextId
  {
    StepRows(c, s, step);
    if id in s.deliveries && id in Apply(c, s, step).deliveries {
      OldRowFacts(c, s, step, id);
      MoveKeepsLink(c, s.now, s.deliveries[id], Apply(c, s, step).deliveries[id], IsClaim(step));
    }
  }

  lemma {:induction false} AsOldForever(c: Settings, s: State, steps: seq<Step>, id: nat)
    requires ValidSettings(c) && IsRun(c, s, steps) && Inv(c, s) && AsOldAsEvent(s, id) && id < s.nextId
    ensures AsOldAsEvent(After(c, s, steps), id)
    decreases |steps|
  {
    if steps != [] {
      StaysAsOld(c, s, steps[0], id);
      StepKeepsInv(c, s, steps[0]);
      AsOldForever(c, Apply(c, s, steps[0]), steps[1..], id);
    }
  }

  lemma EventAgeIsEnough(c: Settings, s: State, id: nat)
    requires ValidSettings(c) && SecretsOk(c, s) && id in s.deliveries && AsOldAsEvent(s, id)
    ensures RetiresLate(c, s, id, c.finalizationMargin)
  {
    assert Signable(c, s.versions, s.events, s.deliveries[id]);
  }

  /** Whatever happens before and after, a delivery made by ingestion cannot be
      attempted after its secret retired, not even within the margin. */
  lemma IngestedRetiresLate(c: Settings, before: seq<Step>, r: Request, after: seq<Step>, id: nat)
    requires ValidSettings(c) && IsRun(c, EMPTY, before)
    requires var s := After(c, EMPTY, before);
             && id in Ingest(c, s, r).0.deliveries && id !in s.deliveries
             && IsRun(c, Ingest(c, s, r).0, after) && id in After(c, Ingest(c, s, r).0, after).deliveries
    ensures RetiresLate(c, After(c, Ingest(c, After(c, EMPTY, before), r).0, after), id, c.finalizationMargin)
  {
    var s := After(c, EMPTY, before);
    ReachableInv(c, before);
    IngestedLater(c, s, r, after, id);
  }

  lemma IngestedLater(c: Settings, s: State, r: Request, after: seq<Step>, id: nat)
    requires ValidSettings(c) && Inv(c, s) && id in Ingest(c, s, r).0.deliveries && id !in s.deliveries
    requires IsRun(c, Ingest(c, s, r).0, after) && id in After(c, Ingest(c, s, r).0, after).deliveries
    ensures RetiresLate(c, After(c, Ingest(c, s, r).0, after), id, c.finalizationMargin)
  {
    var t := Ingest(c, s, r).0;
    assert Apply(c, s, OnIntake(IngestEvent(r))) == t;
    StepKeepsInv(c, s, OnIntake(IngestEvent(r)));
    IngestedWithEvent(c, s, r, id);
    AsOldForever(c, t, after, id);
    RunKeepsInv(c, t, after);
    EventAgeIsEnough(c, After(c, t, after), id);
  }

  // ---- replays -------------------------------------------------------------------------

  /** A replay signs with the version of its source, which is not retired yet. */
  lemma ReplayTakesVersion(
    c: Settings, s: State, project: nat, sources: seq<nat>, deadOnly: bool, i: nat)
    requires ValidSettings(c) && IdsBelow(s.deliveries, s.nextId) && Replay(c, s, project, sources, deadOnly) != s
    requires i < |sources|
    ensures sources[i] in s.deliveries && VersionOf(s, sources[i]) in s.versions
    ensures var t := Replay(c, s, project, sources, deadOnly);
            && s.nextId + i in t.deliveries && VersionOf(t, s.nextId + i) == VersionOf(s, sources[i])
            && t.versions == s.versions
            && var end := s.versions[VersionOf(s, sources[i])].retireAt; end.None? || end.value > s.now
  {
    var tenant := ReplayOutcome(c, s, project, sources, deadOnly);
    assert sources[i] in sources;
    ReplayedRow(s, sources, |sources|, i);
  }

  /** The delivery, if it is still there, was made at `since`, when its version
      had the given end: a set end stays, and an end set later is at least one
      overlap later. */
  predicate EndFollows(c: Settings, s: State, id: nat, since: real, end: Option<real>) {
    id in s.deliveries ==>
      && s.deliveries[id].createdAt == since && VersionOf(s, id) in s.versions
      && var now := s.versions[VersionOf(s, id)].retireAt;
         if end.Some? then now == end else now.None? || now.value >= since + c.secretOverlap
  }

  lemma EndFollowsAgain(c: Settings, s: State, t: State, id: nat, since: real, end: Option<real>)
    requires EndFollows(c, s, id, since, end) && since <= s.now && VersionsMove(c, s, t)
    requires id in s.deliveries && id in t.deliveries && SameIdentity(s.deliveries[id], t.deliveries[id])
    requires VersionOf(t, id) in t.versions
    ensures EndFollows(c, t, id, since, end)
  {
  }

  lemma MoveKeepsIdentity(c: Settings, now: real, d: Delivery, e: Delivery, claiming: bool)
    requires Moves(c, now, d, e, claiming)
    ensures SameIdentity(d, e)
  {
  }

  lemma StillSignable(c: Settings, s: State, step: Step, id: nat)
    requires ValidSettings(c) && Enabled(c, s, step) && SecretsOk(c, s) && Refs(s) && Leases(c, s)
    requires id in Apply(c, s, step).deliveries
    ensures VersionOf(Apply(c, s, step), id) in Apply(c, s, step).versions
  {
    StepSignable(c, s, step, id);
  }

  lemma EndFollowsOn(c: Settings, s: State, step: Step, id: nat, since: real, end: Option<real>)
    requires ValidSettings(c) && Enabled(c, s, step) && SecretsOk(c, s) && Refs(s) && Leases(c, s)
    requires EndFollows(c, s, id, since, end) && id < s.nextId && since <= s.now
    ensures EndFollows(c, Apply(c, s, step), id, since, end)
    ensures id < Apply(c, s, step).nextId
  {
    StepRows(c, s, step);
    if id in s.deliveries && id in Apply(c, s, step).deliveries {
      MoveKeepsIdentity(c, s.now, s.deliveries[id], Apply(c, s, step).deliveries[id], IsClaim(step));
      StepVersions(c, s, step);
      StillSignable(c, s, step, id);
      EndFollowsAgain(c, s, Apply(c, s, step), id, since, end);
    }
  }

  lemma {:induction false} EndFollowsForever(
    c: Settings, s: State, steps: seq<Step>, id: nat, since: real, end: Option<real>)
    requires ValidSettings(c) && IsRun(c, s, steps) && Inv(c, s)
    requires EndFollows(c, s, id, since, end) && id < s.nextId && since <= s.now
    ensures EndFollows(c, After(c, s, steps), id, since, end)
    decreases |steps|
  {
    if steps != [] {
      EndFollowsOn(c, s, steps[0], id, since, end);
      TimeMoves(c, s, steps[0]);
      StepKeepsInv(c, s, steps[0]);
      EndFollowsForever(c, Apply(c, s, steps[0]), steps[1..], id, since, end);
    }
  }

  lemma EndDecides(c: Settings, t: State, id: nat, since: real, end: Option<real>, slack: real)
    requires EndFollows(c, t, id, since, end) && id in t.deliveries && slack <= c.secretOverlap - c.maxAge
    ensures RetiresLate(c, t, id, slack) <==> end.None? || since + c.maxAge + slack <= end.value
  {
  }

  lemma EndDecidesLater(
    c: Settings, t: State, after: seq<Step>, id: nat, since: real, end: Option<real>, slack: real)
    requires ValidSettings(c) && Inv(c, t) && IsRun(c, t, after) && id in After(c, t, after).deliveries
    requires EndFollows(c, t, id, since, end) && id < t.nextId && since <= t.now && slack <= c.secretOverlap - c.maxAge
    ensures RetiresLate(c, After(c, t, after), id, slack) <==> end.None? || since + c.maxAge + slack <= end.value
  {
    EndFollowsForever(c, t, after, id, since, end);
    EndDecides(c, After(c, t, after), id, since, end, slack);
  }

  /** A row made by a step is where the end of its version is followed from. */
  lemma MadeRow(c: Settings, s: State, step: Step, id: nat)
    requires ValidSettings(c) && Enabled(c, s, step) && SecretsOk(c, s) && Refs(s) && Leases(c, s)
    requires id in Apply(c, s, step).deliveries && id !in s.deliveries
    ensures var t := Apply(c, s, step);
            && VersionOf(t, id) in t.versions && id < t.nextId && s.now <= t.now
            && EndFollows(c, t, id, s.now, t.versions[VersionOf(t, id)].retireAt)
  {
    StepRows(c, s, step);
    TimeMoves(c, s, step);
    StillSignable(c, s, step, id);
  }

  lemma MadeRetiresLater(c: Settings, s: State, step: Step, after: seq<Step>, id: nat, slack: real)
    requires ValidSettings(c) && Enabled(c, s, step) && Inv(c, s) && slack <= c.secretOverlap - c.maxAge
    requires id in Apply(c, s, step).deliveries && id !in s.deliveries
    requires IsRun(c, Apply(c, s, step), after) && id in After(c, Apply(c, s, step), after).deliveries
    ensures VersionOf(Apply(c, s, step), id) in Apply(c, s, step).versions
    ensures var t := Apply(c, s, step);
            var end := t.versions[VersionOf(t, id)].retireAt;
            RetiresLate(c, After(c, t, after), id, slack) <==> end.None? || s.now + c.maxAge + slack <= end.value
  {
    var t := Apply(c, s, step);
    MadeRow(c, s, step, id);
    StepKeepsInv(c, s, step);
    EndDecidesLater(c, t, after, id, s.now, t.versions[VersionOf(t, id)].retireAt, slack);
  }

  /** Whatever happens before and after, a delivery retires late exactly when, at
      the step that makes it, its version is not retired or outlives the age limit
      counted from then. */
  lemma MadeRetiresLateIff(
    c: Settings, before: seq<Step>, step: Step, after: seq<Step>, id: nat, slack: real)
    requires ValidSettings(c) && IsRun(c, EMPTY, before) && Enabled(c, After(c, EMPTY, before), step)
    requires slack <= c.secretOverlap - c.maxAge
    requires var s := After(c, EMPTY, before);
             && id in Apply(c, s, step).deliveries && id !in s.deliveries
             && IsRun(c, Apply(c, s, step), after) && id in After(c, Apply(c, s, step), after).deliveries
    ensures var s := After(c, EMPTY, before);
            var t := Apply(c, s, step);
            && VersionOf(t, id) in t.versions
            && var end := t.versions[VersionOf(t, id)].retireAt;
               (RetiresLate(c, After(c, t, after), id, slack) <==> end.None? || s.now + c.maxAge + slack <= end.value)
  {
    ReachableInv(c, before);
    MadeRetiresLater(c, After(c, EMPTY, before), step, after, id, slack);
  }
}
