/** Idempotent ingestion for any interleaving. A call is two steps: an unlocked
    look at the key, and later, if nothing was found, the locked transaction. */
module Ingestion {
  import opened Base
  import opened Types
  import opened Platform
  import opened Admission
  import opened Lifecycle
  import opened Machine
  import opened Integrity
  import opened Events
  import opened LeaseSafety
  import opened Invariant

  // ---- fingerprints --------------------------------------------------------------------

  type Hash = Bytes -> Bytes

  /** The hashed material: the mode unless native, the type, the canonical
      payload, separated by zero bytes. */
  function Material(mode: Mode, modeName: Bytes, eventType: Bytes, payload: Bytes): Bytes {
    var material := eventType + [0 as Byte] + payload;
    if mode.Native? then material else modeName + [0 as Byte] + material
  }

  /** With type and mode compared on their own, two fingerprints are equal exactly
      for equal payloads, unless the two materials collide. */
  lemma FingerprintDetermines(hash: Hash, mode: Mode, modeName: Bytes, eventType: Bytes, p: Bytes, q: Bytes)
    ensures var m, n := Material(mode, modeName, eventType, p), Material(mode, modeName, eventType, q);
            hash(m) == hash(n) <==> p == q || (m != n && hash(m) == hash(n))
  {
    var m, n := Material(mode, modeName, eventType, p), Material(mode, modeName, eventType, q);
    if m == n {
      var k := if mode.Native? then |eventType| + 1 else |modeName| + 1 + |eventType| + 1;
      assert m[k..] == p && n[k..] == q;
    }
  }

  // ---- runs by position -----------------------------------------------------------------

  lemma TailOfPrefix<T>(steps: seq<T>, i: nat)
    requires 0 < i <= |steps|
    ensures steps[..i] != [] && steps[..i][0] == steps[0]
    ensures steps[..i][1..] == steps[1..][..i - 1] && steps[i..] == steps[1..][i - 1..]
  {
  }

  lemma {:induction false} RunPrefix(c: Settings, s: State, steps: seq<Step>, i: nat)
    requires ValidSettings(c) && IsRun(c, s, steps) && i <= |steps|
    ensures IsRun(c, s, steps[..i]) && IsRun(c, After(c, s, steps[..i]), steps[i..])
    ensures After(c, After(c, s, steps[..i]), steps[i..]) == After(c, s, steps)
    decreases |steps|
  {
    if i == 0 {
      assert steps[..0] == [] && steps[0..] == steps;
    } else {
      TailOfPrefix(steps, i);
      RunPrefix(c, Apply(c, s, steps[0]), steps[1..], i - 1);
    }
  }

  /** The state after the first `i` steps of a run. */
  function StateAt(c: Settings, s: State, steps: seq<Step>, i: nat): State
    requires ValidSettings(c) && IsRun(c, s, steps) && i <= |steps|
  {
    RunPrefix(c, s, steps, i);
    After(c, s, steps[..i])
  }

  /** No step of the run is a cleanup of the organization. */
  predicate Spared(c: Settings, s: State, steps: seq<Step>, org: nat)
    requires ValidSettings(c) && IsRun(c, s, steps)
    decreases |steps|
  {
    steps == [] || (!CleansUp(s, steps[0], org) && Spared(c, Apply(c, s, steps[0]), steps[1..], org))
  }

  lemma {:induction false} SparedSuffix(c: Settings, s: State, steps: seq<Step>, i: nat, org: nat)
    requires ValidSettings(c) && IsRun(c, s, steps) && i <= |steps| && Spared(c, s, steps, org)
    ensures IsRun(c, StateAt(c, s, steps, i), steps[i..]) && Spared(c, StateAt(c, s, steps, i), steps[i..], org)
    decreases |steps|
  {
    RunPrefix(c, s, steps, i);
    if i == 0 {
      assert steps[0..] == steps && steps[..0] == [];
    } else {
      TailOfPrefix(steps, i);
      SparedSuffix(c, Apply(c, s, steps[0]), steps[1..], i - 1, org);
    }
  }

  // ---- an event stays what it was -----------------------------------------------------------

  /** The event is stored under the key, for the organization. */
  predicate Stored(s: State, id: nat, project: nat, key: string, org: nat) {
    HasKey(s, id, project, key) && InOrg(s, s.events[id], org)
  }

  lemma {:induction false} EventLasts(c: Settings, s: State, steps: seq<Step>, id: nat, org: nat)
    requires ValidSettings(c) && IsRun(c, s, steps) && Inv(c, s) && Spared(c, s, steps, org)
    requires id in s.events && InOrg(s, s.events[id], org)
    ensures var t := After(c, s, steps);
            id in t.events && SameEvent(s.events[id], t.events[id]) && InOrg(t, t.events[id], org)
    decreases |steps|
  {
    if steps != [] {
      EventSurvives(c, s, steps[0], id, org);
      StepKeepsInv(c, s, steps[0]);
      EventLasts(c, Apply(c, s, steps[0]), steps[1..], id, org);
    }
  }

  /** Whoever asks about a stored key later gets that event for the same content
      and a conflict for any other, also after the payload was purged; nothing
      changes and nothing is charged. */
  lemma LaterCallers(c: Settings, s: State, steps: seq<Step>, id: nat, org: nat, r: Request)
    requires ValidSettings(c) && IsRun(c, s, steps) && Inv(c, s) && Spared(c, s, steps, org)
    requires Stored(s, id, r.project, r.key, org)
    ensures var t := After(c, s, steps);
            var ev := s.events[id];
            var answer :=
              if ev.eventType == r.eventType && ev.mode == r.mode && ev.payloadHash == r.fingerprint
              then Existing(id) else Conflict;
            Lookup(t, r) == Some(answer) && Ingest(c, t, r) == (t, answer)
  {
    EventLasts(c, s, steps, id, org);
    RunKeepsInv(c, s, steps);
    FoundIs(After(c, s, steps), id, r);
  }

  /** With unique keys the lookup finds the one event. */
  lemma FoundIs(s: State, id: nat, r: Request)
    requires KeysUnique(s) && HasKey(s, id, r.project, r.key)
    ensures Lookup(s, r) == Some(if SameContent(s.events[id], r) then Existing(id) else Conflict)
  {
    var found := EventIdsWith(s, r.project, r.key);
    assert id in found;
    var least := Least(found);
    assert SameKey(s.events[least], s.events[id]);
  }

  // ---- two calls in any interleaving --------------------------------------------------------------

  /** The call looks at position `i` of the run and, if it finds nothing, is the
      locked step at position `j`. */
  predicate Calls(c: Settings, s: State, steps: seq<Step>, r: Request, i: nat, j: nat)
    requires ValidSettings(c) && IsRun(c, s, steps)
  {
    && i <= j <= |steps|
    && (Lookup(StateAt(c, s, steps, i), r).None? ==> j < |steps| && steps[j] == OnIntake(IngestEvent(r)))
  }

  /** What the call answers. */
  function AnswerOf(c: Settings, s: State, steps: seq<Step>, r: Request, i: nat, j: nat): Answer
    requires ValidSettings(c) && IsRun(c, s, steps) && Calls(c, s, steps, r, i, j)
  {
    var early := Lookup(StateAt(c, s, steps, i), r);
    if early.Some? then early.value else Ingest(c, StateAt(c, s, steps, j), r).1
  }

  /** The event an answer names, if it names one. */
  function Named(a: Answer): Option<nat> {
    match a
    case Accepted(id) => Some(id)
    case Existing(id) => Some(id)
    case _ => None
  }

  lemma LookupMeaning(s: State, r: Request)
    ensures match Lookup(s, r)
            case None => true
            case Some(Existing(id)) => HasKey(s, id, r.project, r.key) && SameContent(s.events[id], r)
            case Some(Conflict) =>
              exists id :: HasKey(s, id, r.project, r.key) && !SameContent(s.events[id], r)
            case _ => false
  {
    var found := EventIdsWith(s, r.project, r.key);
    if found != {} { assert HasKey(s, Least(found), r.project, r.key); }
  }

  lemma AcceptedStored(c: Settings, s: State, r: Request)
    requires ValidSettings(c) && Ingest(c, s, r).1.Accepted?
    ensures var (t, a) := Ingest(c, s, r);
            r.project in s.projects && HasKey(t, a.event, r.project, r.key) && SameContent(t.events[a.event], r)
            && t.projects == s.projects
  {
    var tenant := IngestOutcome(c, s, r);
    assert Accept(s, r, tenant).events == s.events[s.nextId := NewEvent(r, s.now)];
  }

  /** What an answer says about the event table at the end of the run. */
  ghost predicate Witnessed(t: State, r: Request, a: Answer) {
    && (Named(a).Some? ==>
          HasKey(t, Named(a).value, r.project, r.key) && SameContent(t.events[Named(a).value], r))
    && (a.Conflict? ==> exists id :: HasKey(t, id, r.project, r.key) && !SameContent(t.events[id], r))
  }

  lemma WitnessLasts(c: Settings, s: State, steps: seq<Step>, r: Request, a: Answer, org: nat)
    requires ValidSettings(c) && IsRun(c, s, steps) && Inv(c, s) && Spared(c, s, steps, org)
    requires r.project in s.projects && s.projects[r.project] == org && Witnessed(s, r, a)
    ensures Witnessed(After(c, s, steps), r, a)
  {
    if Named(a).Some? { EventLasts(c, s, steps, Named(a).value, org); }
    if a.Conflict? {
      var id :| HasKey(s, id, r.project, r.key) && !SameContent(s.events[id], r);
      EventLasts(c, s, steps, id, org);
      assert HasKey(After(c, s, steps), id, r.project, r.key);
    }
  }

  lemma EarlyWitness(c: Settings, s: State, steps: seq<Step>, r: Request, i: nat, org: nat)
    requires ValidSettings(c) && IsRun(c, s, steps) && Inv(c, s) && Spared(c, s, steps, org) && i <= |steps|
    requires var x := StateAt(c, s, steps, i);
             Lookup(x, r).Some? && (r.project in x.projects ==> x.projects[r.project] == org)
    ensures Witnessed(After(c, s, steps), r, Lookup(StateAt(c, s, steps, i), r).value)
  {
    var x := StateAt(c, s, steps, i);
    RunPrefix(c, s, steps, i);
    RunKeepsInv(c, s, steps[..i]);
    SparedSuffix(c, s, steps, i, org);
    LookupMeaning(x, r);
    KeyedProject(x, r);
    WitnessLasts(c, x, steps[i..], r, Lookup(x, r).value, org);
  }

  lemma KeyedProject(s: State, r: Request)
    requires Tables(s) && Lookup(s, r).Some?
    ensures r.project in s.projects
  {
    var found := EventIdsWith(s, r.project, r.key);
    assert HasKey(s, Least(found), r.project, r.key);
  }

  lemma LateWitness(c: Settings, s: State, steps: seq<Step>, r: Request, j: nat, org: nat)
    requires ValidSettings(c) && IsRun(c, s, steps) && Inv(c, s) && Spared(c, s, steps, org)
    requires j < |steps| && steps[j] == OnIntake(IngestEvent(r))
    requires var x := StateAt(c, s, steps, j); r.project in x.projects ==> x.projects[r.project] == org
    ensures Witnessed(After(c, s, steps), r, Ingest(c, StateAt(c, s, steps, j), r).1)
  {
    var x := StateAt(c, s, steps, j);
    var a := Ingest(c, x, r).1;
    if Lookup(x, r).Some? && r.project in x.projects {
      EarlyWitness(c, s, steps, r, j, org);
    } else if a.Accepted? {
      AcceptedWitness(c, s, steps, r, j, org);
    }
  }

  lemma AcceptedWitness(c: Settings, s: State, steps: seq<Step>, r: Request, j: nat, org: nat)
    requires ValidSettings(c) && IsRun(c, s, steps) && Inv(c, s) && Spared(c, s, steps, org)
    requires j < |steps| && steps[j] == OnIntake(IngestEvent(r))
    requires var x := StateAt(c, s, steps, j);
             Ingest(c, x, r).1.Accepted? && (r.project in x.projects ==> x.projects[r.project] == org)
    ensures Witnessed(After(c, s, steps), r, Ingest(c, StateAt(c, s, steps, j), r).1)
  {
    var x := StateAt(c, s, steps, j);
    RunPrefix(c, s, steps, j);
    SparedSuffix(c, s, steps, j, org);
    RunKeepsInv(c, s, steps[..j]);
    var rest := steps[j..];
    assert rest[0] == steps[j];
    AcceptedStored(c, x, r);
    StepKeepsInv(c, x, rest[0]);
    WitnessLasts(c, Apply(c, x, rest[0]), rest[1..], r, Ingest(c, x, r).1, org);
  }

  lemma {:induction false} ProjectAt(c: Settings, s: State, steps: seq<Step>, i: nat, project: nat, org: nat)
    requires ValidSettings(c) && IsRun(c, s, steps) && Inv(c, s) && Spared(c, s, steps, org) && i <= |steps|
    requires project in s.projects && s.projects[project] == org
    ensures var x := StateAt(c, s, steps, i); project in x.projects && x.projects[project] == org
    decreases |steps|
  {
    if i == 0 {
      assert steps[..0] == [];
    } else {
      StateAfterFirst(c, s, steps, i);
      ProjectStays(c, s, steps[0], project, org);
      StepKeepsInv(c, s, steps[0]);
      ProjectAt(c, Apply(c, s, steps[0]), steps[1..], i - 1, project, org);
    }
  }

  lemma StateAfterFirst(c: Settings, s: State, steps: seq<Step>, i: nat)
    requires ValidSettings(c) && IsRun(c, s, steps) && 0 < i <= |steps|
    ensures StateAt(c, s, steps, i) == StateAt(c, Apply(c, s, steps[0]), steps[1..], i - 1)
  {
    TailOfPrefix(steps, i);
  }

  lemma AnswerWitness(c: Settings, s: State, steps: seq<Step>, r: Request, i: nat, j: nat, org: nat)
    requires ValidSettings(c) && IsRun(c, s, steps) && Inv(c, s) && Spared(c, s, steps, org)
    requires Calls(c, s, steps, r, i, j)
    requires r.project in s.projects && s.projects[r.project] == org
    ensures Witnessed(After(c, s, steps), r, AnswerOf(c, s, steps, r, i, j))
  {
    ProjectAt(c, s, steps, i, r.project, org);
    ProjectAt(c, s, steps, j, r.project, org);
    if Lookup(StateAt(c, s, steps, i), r).Some? {
      EarlyWitness(c, s, steps, r, i, org);
    } else {
      LateWitness(c, s, steps, r, j, org);
    }
  }

  /** Any two calls with the same project and key, interleaved in any way with
      each other and with everything else but a cleanup of their organization:
      if both name an event it is the same event and their contents agree, and
      if one names an event while the other conflicts their contents differ. */
  lemma CallersAgree(
    c: Settings, s: State, steps: seq<Step>, org: nat,
    r1: Request, i1: nat, j1: nat, r2: Request, i2: nat, j2: nat)
    requires ValidSettings(c) && IsRun(c, s, steps) && Inv(c, s) && Spared(c, s, steps, org)
    requires r1.project == r2.project && r1.key == r2.key
    requires r1.project in s.projects && s.projects[r1.project] == org
    requires Calls(c, s, steps, r1, i1, j1) && Calls(c, s, steps, r2, i2, j2)
    ensures var a1, a2 := AnswerOf(c, s, steps, r1, i1, j1), AnswerOf(c, s, steps, r2, i2, j2);
            var same := r1.eventType == r2.eventType && r1.mode == r2.mode && r1.fingerprint == r2.fingerprint;
            && (Named(a1).Some? && Named(a2).Some? ==> Named(a1) == Named(a2) && same)
            && (Named(a1).Some? && a2.Conflict? ==> !same)
  {
    AnswerWitness(c, s, steps, r1, i1, j1, org);
    AnswerWitness(c, s, steps, r2, i2, j2, org);
    RunKeepsInv(c, s, steps);
    OneEvent(After(c, s, steps), r1, AnswerOf(c, s, steps, r1, i1, j1), r2, AnswerOf(c, s, steps, r2, i2, j2));
  }

  lemma OneEvent(t: State, r1: Request, a1: Answer, r2: Request, a2: Answer)
    requires KeysUnique(t) && r1.project == r2.project && r1.key == r2.key
    requires Witnessed(t, r1, a1) && Witnessed(t, r2, a2)
    ensures var same := r1.eventType == r2.eventType && r1.mode == r2.mode && r1.fingerprint == r2.fingerprint;
            && (Named(a1).Some? && Named(a2).Some? ==> Named(a1) == Named(a2) && same)
            && (Named(a1).Some? && a2.Conflict? ==> !same)
  {
    if Named(a1).Some? && Named(a2).Some? {
      assert SameKey(t.events[Named(a1).value], t.events[Named(a2).value]);
    }
    if Named(a1).Some? && a2.Conflict? {
      var id :| HasKey(t, id, r2.project, r2.key) && !SameContent(t.events[id], r2);
      assert SameKey(t.events[Named(a1).value], t.events[id]);
    }
  }

  // ---- charged once ---------------------------------------------------------------------------------

  /** How many requests with the key are accepted, and therefore charged, along
      a run. */
  function Acceptances(c: Settings, s: State, steps: seq<Step>, project: nat, key: string): nat
    requires ValidSettings(c) && IsRun(c, s, steps)
    decreases |steps|
  {
    if steps == [] then 0
    else
      (if Accepts(c, s, steps[0], project, key) then 1 else 0) +
      Acceptances(c, Apply(c, s, steps[0]), steps[1..], project, key)
  }

  predicate Accepts(c: Settings, s: State, step: Step, project: nat, key: string)
    requires ValidSettings(c)
  {
    && step.OnIntake? && step.intake.IngestEvent?
    && step.intake.request.project == project && step.intake.request.key == key
    && Ingest(c, s, step.intake.request).1.Accepted?
  }

  /** A stored key is never accepted again. */
  lemma {:induction false} NeverAgain(c: Settings, s: State, steps: seq<Step>, id: nat, project: nat, key: string, org: nat)
    requires ValidSettings(c) && IsRun(c, s, steps) && Inv(c, s) && Spared(c, s, steps, org)
    requires Stored(s, id, project, key, org)
    ensures Acceptances(c, s, steps, project, key) == 0
    decreases |steps|
  {
    if steps != [] {
      if Accepts(c, s, steps[0], project, key) { FoundIs(s, id, steps[0].intake.request); }
      EventSurvives(c, s, steps[0], id, org);
      StepKeepsInv(c, s, steps[0]);
      NeverAgain(c, Apply(c, s, steps[0]), steps[1..], id, project, key, org);
    }
  }

  /** However many callers race, a key is accepted and charged at most once. */
  lemma {:induction false} ChargedOnce(c: Settings, s: State, steps: seq<Step>, project: nat, key: string, org: nat)
    requires ValidSettings(c) && IsRun(c, s, steps) && Inv(c, s) && Spared(c, s, steps, org)
    requires project in s.projects && s.projects[project] == org
    ensures Acceptances(c, s, steps, project, key) <= 1
    decreases |steps|
  {
    if steps != [] {
      var s1 := Apply(c, s, steps[0]);
      StepKeepsInv(c, s, steps[0]);
      if Accepts(c, s, steps[0], project, key) {
        AcceptedStored(c, s, steps[0].intake.request);
        NeverAgain(c, s1, steps[1..], Ingest(c, s, steps[0].intake.request).1.event, project, key, org);
      } else {
        ProjectStays(c, s, steps[0], project, org);
        ChargedOnce(c, s1, steps[1..], project, key, org);
      }
    }
  }

  lemma ProjectStays(c: Settings, s: State, step: Step, project: nat, org: nat)
    requires ValidSettings(c) && Enabled(c, s, step) && Tables(s) && !CleansUp(s, step, org)
    requires project in s.projects && s.projects[project] == org
    ensures project in Apply(c, s, step).projects && Apply(c, s, step).projects[project] == org
  {
    match step
    case Clock(_) =>
    case OnSetup(setup) => SetupGrows(c, s, setup);
    case OnIntake(intake) => IntakeFrame(c, s, intake);
    case OnWork(work) => WorkFrame(c, s, work);
    case OnOperator(operator) => OperatorFrame(c, s, operator);
    case OnUpkeep(upkeep) => UpkeepProjectStays(c, s, upkeep, project, org);
  }

  lemma UpkeepProjectStays(c: Settings, s: State, step: Upkeep, project: nat, org: nat)
    requires CanKeep(c, s, step) && !CleansUp(s, OnUpkeep(step), org)
    requires project in s.projects && s.projects[project] == org
    ensures var t := ApplyUpkeep(c, s, step); project in t.projects && t.projects[project] == org
  {
    if step.CleanupRun? {
      var other := s.operations[step.op].org;
      StageProjects(MarkRunning(s, step.op), StageOf(s, other), other, step.batch);
    } else {
      QuietUpkeep(c, s, step);
    }
  }

  // ---- one delivery per endpoint -------------------------------------------------------------------------

  /** The delivery of an event to an endpoint. */
  predicate DeliversTo(s: State, id: nat, event: nat, ep: nat) {
    id in s.deliveries && s.deliveries[id].event == event && s.deliveries[id].endpoint == ep
  }

  /** The entry is the type itself, or a prefix with a wildcard that the type
      begins with. */
  ghost predicate EntryAllows(entry: string, eventType: string) {
    entry == eventType || exists p: string :: IsWildcard(entry, p) && p + "." <= eventType
  }

  predicate IsWildcard(entry: string, p: string) { entry == p + ".*" }

  /** An active endpoint of the project without a filter, or with an entry that
      accepts the type. A malformed filter accepts nothing. */
  ghost predicate Subscribed(e: Endpoint, project: nat, eventType: string) {
    && e.project == project && e.active
    && (|| e.eventTypes.Everything?
        || (&& e.eventTypes.Patterns?
            && exists i :: 0 <= i < |e.eventTypes.entries| && e.eventTypes.entries[i].Some?
                 && EntryAllows(e.eventTypes.entries[i].value, eventType)))
  }

  lemma EntryAccepts(entry: string, eventType: string)
    ensures EntryMatches(eventType, Some(entry)) <==> EntryAllows(entry, eventType)
  {
    if |entry| >= 2 && entry[|entry| - 2..] == ".*" {
      var p := entry[..|entry| - 2];
      assert entry == p + ".*";
      PatternMeaning(eventType, p);
      assert IsWildcard(entry, p);
      forall q: string | IsWildcard(entry, q) ensures q == p { assert q == entry[..|entry| - 2]; }
      assert entry == eventType ==> p + "." <= eventType;
    } else {
      forall q: string ensures !IsWildcard(entry, q) { assert (q + ".*")[|q|..] == ".*"; }
    }
  }

  lemma TargetsAreSubscribed(s: State, project: nat, eventType: string, ep: nat)
    ensures ep in Targets(s, project, eventType) <==> ep in s.endpoints && Subscribed(s.endpoints[ep], project, eventType)
  {
    if ep in s.endpoints && s.endpoints[ep].eventTypes.Patterns? {
      var entries := s.endpoints[ep].eventTypes.entries;
      forall i | 0 <= i < |entries| && entries[i].Some?
        ensures EntryMatches(eventType, entries[i]) <==> EntryAllows(entries[i].value, eventType)
      {
        EntryAccepts(entries[i].value, eventType);
      }
    }
  }

  /** A fresh delivery of the event for the endpoint as it is now. */
  predicate ForEndpoint(d: Delivery, org: nat, event: nat, ep: nat, e: Endpoint, now: real) {
    && d.org == org && d.event == event && d.endpoint == ep && d.replayOf.None?
    && d.snapshot.endpointPublicId == e.publicId && d.snapshot.url == e.url && d.snapshot.active == e.active
    && d.snapshot.secretVersion == e.secretVersion && d.snapshot.scheme == e.scheme
    && d.status.Pending? && d.attemptCount == 0 && d.attempts == [] && d.deadReason.None?
    && d.leaseToken.None? && d.leaseExpiresAt.None?
    && d.nextAttemptAt == now && d.createdAt == now && d.updatedAt == now
  }

  /** Exactly one delivery of the event for each subscribed endpoint, and no
      other. */
  ghost predicate FansOut(s: State, t: State, r: Request, event: nat) {
    && r.project in s.projects
    && (forall ep :: ep in s.endpoints && Subscribed(s.endpoints[ep], r.project, r.eventType) ==>
          exists id :: DeliversTo(t, id, event, ep))
    && (forall id, ep :: DeliversTo(t, id, event, ep) ==>
          && ep in s.endpoints && Subscribed(s.endpoints[ep], r.project, r.eventType)
          && ForEndpoint(t.deliveries[id], s.projects[r.project], event, ep, s.endpoints[ep], s.now))
    && (forall x, y, ep :: DeliversTo(t, x, event, ep) && DeliversTo(t, y, event, ep) ==> x == y)
  }

  /** What is stored of the request. */
  predicate StoresRequest(ev: Event, r: Request, now: real) {
    && ev.project == r.project && ev.key == r.key && ev.eventType == r.eventType && ev.mode == r.mode
    && ev.payloadHash == r.fingerprint && ev.payload == Some(r.payload) && ev.envelope == Some(r.envelope)
    && ev.purgedAt.None? && ev.createdAt == now
  }

  /** Acceptance stores the request as a new event and makes exactly one delivery
      for each active endpoint of the project that subscribes to its type, pending
      and with the endpoint's current data, and none for any other endpoint. All
      other events and deliveries stay. */
  lemma OneDeliveryPerEndpoint(c: Settings, s: State, r: Request)
    requires ValidSettings(c) && Inv(c, s) && Ingest(c, s, r).1.Accepted?
    ensures var (t, a) := Ingest(c, s, r);
            && a.event !in s.events && a.event in t.events && StoresRequest(t.events[a.event], r, s.now)
            && FansOut(s, t, r, a.event)
            && (forall id :: id in s.events ==> id in t.events && t.events[id] == s.events[id])
            && (forall id :: id in s.deliveries ==> id in t.deliveries && t.deliveries[id] == s.deliveries[id])
  {
    var tenant := IngestOutcome(c, s, r);
    AcceptFansOut(s, r, tenant);
    AcceptedRows(s, r, tenant);
  }

  lemma AcceptFansOut(s: State, r: Request, tenant: Tenant)
    requires r.project in s.projects && IdsBelow(s.deliveries, s.nextId) && Refs(s)
    ensures FansOut(s, Accept(s, r, tenant), r, s.nextId)
  {
    var t := Accept(s, r, tenant);
    forall ep | ep in s.endpoints && Subscribed(s.endpoints[ep], r.project, r.eventType)
      ensures exists id :: DeliversTo(t, id, s.nextId, ep)
    {
      TargetsAreSubscribed(s, r.project, r.eventType, ep);
      TargetServed(s, r, tenant, ep);
    }
    forall id: nat, ep: nat | DeliversTo(t, id, s.nextId, ep)
      ensures ep in s.endpoints && Subscribed(s.endpoints[ep], r.project, r.eventType)
      ensures ForEndpoint(t.deliveries[id], s.projects[r.project], s.nextId, ep, s.endpoints[ep], s.now)
    {
      RowForTarget(s, r, tenant, id, ep);
    }
    forall x: nat, y: nat, ep: nat | DeliversTo(t, x, s.nextId, ep) && DeliversTo(t, y, s.nextId, ep) ensures x == y {
      RowIsTarget(s, r, tenant, x, ep);
      RowIsTarget(s, r, tenant, y, ep);
    }
  }

  lemma RowForTarget(s: State, r: Request, tenant: Tenant, id: nat, ep: nat)
    requires r.project in s.projects && IdsBelow(s.deliveries, s.nextId) && Refs(s)
    requires DeliversTo(Accept(s, r, tenant), id, s.nextId, ep)
    ensures ep in s.endpoints && Subscribed(s.endpoints[ep], r.project, r.eventType)
    ensures ForEndpoint(Accept(s, r, tenant).deliveries[id], s.projects[r.project], s.nextId, ep, s.endpoints[ep], s.now)
  {
    RowIsTarget(s, r, tenant, id, ep);
    AcceptedRow(s, r, tenant, id - s.nextId - 1);
    TargetsAreSubscribed(s, r.project, r.eventType, ep);
  }

  lemma TargetServed(s: State, r: Request, tenant: Tenant, ep: nat)
    requires r.project in s.projects && IdsBelow(s.deliveries, s.nextId) && ep in Targets(s, r.project, r.eventType)
    ensures exists id :: DeliversTo(Accept(s, r, tenant), id, s.nextId, ep)
  {
    var targets := TargetList(s, r.project, r.eventType);
    assert ep in targets;
    var i :| 0 <= i < |targets| && targets[i] == ep;
    AcceptedRow(s, r, tenant, i);
    assert DeliversTo(Accept(s, r, tenant), s.nextId + 1 + i, s.nextId, ep);
  }

  lemma RowIsTarget(s: State, r: Request, tenant: Tenant, id: nat, ep: nat)
    requires r.project in s.projects && IdsBelow(s.deliveries, s.nextId) && Refs(s)
    requires DeliversTo(Accept(s, r, tenant), id, s.nextId, ep)
    ensures ep in Targets(s, r.project, r.eventType)
    ensures var targets := TargetList(s, r.project, r.eventType);
            s.nextId < id <= s.nextId + |targets| && targets[id - s.nextId - 1] == ep
  {
    NewEventRows(s, r, tenant, id);
    AcceptedRow(s, r, tenant, id - s.nextId - 1);
    assert ep in Sorted(Targets(s, r.project, r.eventType));
  }

  /** Only new rows carry the new event. */
  lemma NewEventRows(s: State, r: Request, tenant: Tenant, id: nat)
    requires r.project in s.projects && IdsBelow(s.deliveries, s.nextId) && Refs(s)
    requires id in Accept(s, r, tenant).deliveries && Accept(s, r, tenant).deliveries[id].event == s.nextId
    ensures s.nextId < id < Accept(s, r, tenant).nextId
  {
    forall x | x in s.deliveries ensures s.deliveries[x].event < s.nextId {
      assert RowRefs(s.projects, s.endpoints, s.events, s.deliveries[x]);
    }
    AcceptedRows(s, r, tenant);
  }
}
