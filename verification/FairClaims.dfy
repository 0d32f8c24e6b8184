/** The scheduler's fairness inside the running platform: claims interleaved
    with any other transactions. */
module FairClaims {
  import opened Base
  import opened Types
  import opened Scheduler
  import opened Selection
  import Fairness
  import Bypass
  import opened Platform
  import opened Admission
  import opened Machine
  import opened Claims
  import opened Rows
  import opened LeaseSafety
  import opened Integrity
  import opened Endpoints
  import opened Invariant

  /** The step is a claim that reaches the selection loop. */
  predicate Busy(c: Settings, s: State, step: Step)
    requires ValidSettings(c)
  {
    && IsClaim(step) && CanWork(c, s, step.work)
    && step.work.limit > 0 && FreeSlots(c, s, step.work.limit) > 0 && step.work.candidates != []
  }

  function CallOf(c: Settings, s: State, step: Step): Bypass.Call
    requires ValidSettings(c) && Busy(c, s, step)
  {
    var ids := step.work.candidates;
    Bypass.Call(s.now, StartOf(c, s, ids), Sorted(OrgIds(s, ids)), FreeSlots(c, s, step.work.limit))
  }

  /** The scheduler calls along a run. */
  function CallsOf(c: Settings, s: State, steps: seq<Step>): seq<Bypass.Call>
    requires ValidSettings(c) && IsRun(c, s, steps)
    decreases |steps|
  {
    if steps == [] then []
    else
      (if Busy(c, s, steps[0]) then [CallOf(c, s, steps[0])] else []) +
      CallsOf(c, Apply(c, s, steps[0]), steps[1..])
  }

  // ---- a claim is a call ----------------------------------------------------------------

  lemma CallReady(c: Settings, s: State, step: Step)
    requires ValidSettings(c) && Busy(c, s, step)
    ensures AllReady(CallOf(c, s, step).start, CallOf(c, s, step).orgs)
  {
    var ids := step.work.candidates;
    forall o | o in Sorted(OrgIds(s, ids)) ensures Ready(StartOf(c, s, ids), o) { OrgReady(c, s, ids, o); }
  }

  /** The call's outcome is what the claim leases, and its cursor is stored. */
  lemma CallOutcome(c: Settings, s: State, step: Step)
    requires ValidSettings(c) && Busy(c, s, step) && Refs(s)
    ensures AllReady(CallOf(c, s, step).start, CallOf(c, s, step).orgs)
    ensures var t := Bypass.Outcome(c, CallOf(c, s, step));
            t.selected == Leased(c, s, step) && t.cursor == Apply(c, s, step).cursor
  {
    CallReady(c, s, step);
    ClaimAlwaysHasBytes(c, s, step.work.limit, step.work.candidates);
    var t := Chosen(c, s, step.work.limit, step.work.candidates);
    assert Bypass.Outcome(c, CallOf(c, s, step)) == t;
    assert Apply(c, s, step) == Lease(c, s, t);
  }

  /** Other steps leave the cursor alone. */
  lemma CursorRests(c: Settings, s: State, step: Step)
    requires ValidSettings(c) && Enabled(c, s, step) && !Busy(c, s, step)
    ensures Apply(c, s, step).cursor == s.cursor && Leased(c, s, step) == []
  {
    match step
    case Clock(_) =>
    case OnSetup(setup) => SetupFrame(c, s, setup);
    case OnIntake(intake) => IntakeFrame(c, s, intake);
    case OnWork(work) => WorkFrame(c, s, work);
    case OnOperator(operator) => OperatorFrame(c, s, operator);
    case OnUpkeep(upkeep) => UpkeepFrame(c, s, upkeep);
  }

  lemma CallsFirst(c: Settings, s: State, steps: seq<Step>)
    requires ValidSettings(c) && IsRun(c, s, steps) && steps != []
    ensures var rest := CallsOf(c, Apply(c, s, steps[0]), steps[1..]);
            && (Busy(c, s, steps[0]) ==> CallsOf(c, s, steps) == [CallOf(c, s, steps[0])] + rest)
            && (!Busy(c, s, steps[0]) ==> CallsOf(c, s, steps) == rest)
  {
  }

  lemma {:induction false} CallsLinked(c: Settings, s: State, steps: seq<Step>)
    requires ValidSettings(c) && IsRun(c, s, steps) && Inv(c, s)
    ensures Bypass.Linked(c, CallsOf(c, s, steps))
    ensures CallsOf(c, s, steps) != [] ==> CallsOf(c, s, steps)[0].start.cursor == s.cursor
    decreases |steps|
  {
    if steps != [] {
      var rest := CallsOf(c, Apply(c, s, steps[0]), steps[1..]);
      StepKeepsInv(c, s, steps[0]);
      CallsLinked(c, Apply(c, s, steps[0]), steps[1..]);
      CallsFirst(c, s, steps);
      if Busy(c, s, steps[0]) {
        CallOutcome(c, s, steps[0]);
        LinkFirst(c, CallOf(c, s, steps[0]), rest);
      } else {
        CursorRests(c, s, steps[0]);
      }
    }
  }

  lemma LinkFirst(c: Settings, call: Bypass.Call, rest: seq<Bypass.Call>)
    requires AllReady(call.start, call.orgs) && Bypass.Linked(c, rest)
    requires rest != [] ==> rest[0].start.cursor == Bypass.Outcome(c, call).cursor
    ensures Bypass.Linked(c, [call] + rest)
  {
    var calls := [call] + rest;
    forall i | 0 <= i < |calls| ensures AllReady(calls[i].start, calls[i].orgs) {
      if i > 0 { assert calls[i] == rest[i - 1]; }
    }
    forall i | 0 < i < |calls| ensures calls[i].start.cursor == Bypass.Outcome(c, calls[i - 1]).cursor {
      if i > 1 { assert calls[i] == rest[i - 1] && calls[i - 1] == rest[i - 2]; }
    }
  }

  // ---- waiting organizations ---------------------------------------------------------------

  /** In this claim the organization has a candidate that nothing blocks. */
  ghost predicate Waits(c: Settings, s: State, step: Step, a: nat)
    requires ValidSettings(c) && Busy(c, s, step)
  {
    && a in OrgIds(s, step.work.candidates)
    && Fairness.Eligible(c, s.now, StartOf(c, s, step.work.candidates), a)
  }

  /** An endpoint belongs to one organization. */
  lemma QueuesApart(c: Settings, s: State, ids: seq<nat>, a: nat)
    requires ValidSettings(c) && AllRows(s, ids) && Refs(s) && a in OrgIds(s, ids)
    ensures Bypass.Apart(StartOf(c, s, ids), Sorted(OrgIds(s, ids)), a)
  {
    var start := StartOf(c, s, ids);
    forall o, ep | o in Sorted(OrgIds(s, ids)) && o != a && o in start.rotation && ep in start.rotation[o]
      ensures ep !in start.rotation[a]
    {
      OrgOfEndpoint(c, s, ids, o, ep);
      if ep in start.rotation[a] { OrgOfEndpoint(c, s, ids, a, ep); }
    }
  }

  lemma OrgOfEndpoint(c: Settings, s: State, ids: seq<nat>, o: nat, ep: nat)
    requires ValidSettings(c) && AllRows(s, ids) && Refs(s) && o in OrgIds(s, ids)
    requires ep in StartOf(c, s, ids).rotation[o]
    ensures ep in s.endpoints && s.endpoints[ep].project in s.projects && s.projects[s.endpoints[ep].project] == o
  {
    RotatedMember(Sorted(EndpointIdsOf(s, ids, o)), TenantRow(c, s, o).endpointCursor, ep);
    EndpointOfOrg(s, ids, o, ep);
  }

  lemma EndpointOfOrg(s: State, ids: seq<nat>, o: nat, ep: nat)
    requires AllRows(s, ids) && DeliveryRefs(s) && ep in EndpointIdsOf(s, ids, o)
    ensures ep in s.endpoints && s.endpoints[ep].project in s.projects && s.projects[s.endpoints[ep].project] == o
  {
    var id :| id in ids && s.deliveries[id].org == o && s.deliveries[id].endpoint == ep;
    assert RowRefs(s.projects, s.endpoints, s.events, s.deliveries[id]);
  }

  lemma WaitingCall(c: Settings, s: State, step: Step, a: nat)
    requires ValidSettings(c) && Busy(c, s, step) && Refs(s) && Waits(c, s, step, a)
    ensures Bypass.Waiting(c, CallOf(c, s, step), a)
  {
    CallReady(c, s, step);
    StartFresh(c, s, step.work.candidates);
    QueuesApart(c, s, step.work.candidates, a);
  }

  lemma CallPassesOver(c: Settings, s: State, step: Step, a: nat)
    requires ValidSettings(c) && Busy(c, s, step) && Refs(s) && Waits(c, s, step, a)
    requires OrgPicks(Leased(c, s, step), a) == 0
    ensures Bypass.PassedOver(c, CallOf(c, s, step), a)
  {
    WaitingCall(c, s, step, a);
    CallOutcome(c, s, step);
  }

  /** In every claim of the run the organization waits and is not served. */
  ghost predicate Overlooked(c: Settings, s: State, steps: seq<Step>, a: nat)
    requires ValidSettings(c) && IsRun(c, s, steps)
    decreases |steps|
  {
    steps == [] ||
    (&& (Busy(c, s, steps[0]) ==> Waits(c, s, steps[0], a) && OrgPicks(Leased(c, s, steps[0]), a) == 0)
     && Overlooked(c, Apply(c, s, steps[0]), steps[1..], a))
  }

  lemma {:induction false} OverlookedCalls(c: Settings, s: State, steps: seq<Step>, a: nat)
    requires ValidSettings(c) && IsRun(c, s, steps) && Inv(c, s) && Overlooked(c, s, steps, a)
    ensures forall i :: 0 <= i < |CallsOf(c, s, steps)| ==> Bypass.PassedOver(c, CallsOf(c, s, steps)[i], a)
    decreases |steps|
  {
    if steps != [] {
      var rest := CallsOf(c, Apply(c, s, steps[0]), steps[1..]);
      StepKeepsInv(c, s, steps[0]);
      OverlookedCalls(c, Apply(c, s, steps[0]), steps[1..], a);
      CallsFirst(c, s, steps);
      if Busy(c, s, steps[0]) {
        OverlookedFirst(c, s, steps[0], rest, a);
      }
    }
  }

  lemma OverlookedFirst(c: Settings, s: State, step: Step, rest: seq<Bypass.Call>, a: nat)
    requires ValidSettings(c) && Busy(c, s, step) && Refs(s) && Waits(c, s, step, a)
    requires OrgPicks(Leased(c, s, step), a) == 0
    requires forall i :: 0 <= i < |rest| ==> Bypass.PassedOver(c, rest[i], a)
    ensures var calls := [CallOf(c, s, step)] + rest;
            forall i :: 0 <= i < |calls| ==> Bypass.PassedOver(c, calls[i], a)
  {
    CallPassesOver(c, s, step, a);
    PassedOverFirst(c, CallOf(c, s, step), rest, a);
  }

  lemma PassedOverFirst(c: Settings, call: Bypass.Call, rest: seq<Bypass.Call>, a: nat)
    requires Bypass.PassedOver(c, call, a) && forall i :: 0 <= i < |rest| ==> Bypass.PassedOver(c, rest[i], a)
    ensures forall i :: 0 <= i < |[call] + rest| ==> Bypass.PassedOver(c, ([call] + rest)[i], a)
  {
    var calls := [call] + rest;
    forall i | 0 <= i < |calls| ensures Bypass.PassedOver(c, calls[i], a) {
      if i > 0 { assert calls[i] == rest[i - 1]; }
    }
  }

  /** The organizations whose deliveries a run leases, in order. */
  ghost function ServedBy(c: Settings, s: State, steps: seq<Step>): seq<nat>
    requires ValidSettings(c) && IsRun(c, s, steps)
    decreases |steps|
  {
    if steps == [] then []
    else
      var rest := ServedBy(c, Apply(c, s, steps[0]), steps[1..]);
      if Busy(c, s, steps[0]) then Bypass.OrgsOf(Leased(c, s, steps[0])) + rest else rest
  }

  lemma ServedFirst(c: Settings, call: Bypass.Call, rest: seq<Bypass.Call>)
    requires AllReady(call.start, call.orgs) && forall i :: 0 <= i < |rest| ==> AllReady(rest[i].start, rest[i].orgs)
    ensures forall i :: 0 <= i < |[call] + rest| ==> AllReady(([call] + rest)[i].start, ([call] + rest)[i].orgs)
    ensures Bypass.Served(c, [call] + rest) == Bypass.OrgsOf(Bypass.Outcome(c, call).selected) + Bypass.Served(c, rest)
  {
    var calls := [call] + rest;
    forall i | 0 <= i < |calls| ensures AllReady(calls[i].start, calls[i].orgs) {
      if i > 0 { assert calls[i] == rest[i - 1]; }
    }
    assert calls[1..] == rest;
  }

  lemma {:induction false} ServedIsServed(c: Settings, s: State, steps: seq<Step>)
    requires ValidSettings(c) && IsRun(c, s, steps) && Inv(c, s) && Bypass.Linked(c, CallsOf(c, s, steps))
    ensures Bypass.Served(c, CallsOf(c, s, steps)) == ServedBy(c, s, steps)
    decreases |steps|
  {
    if steps != [] {
      StepKeepsInv(c, s, steps[0]);
      CallsLinked(c, Apply(c, s, steps[0]), steps[1..]);
      ServedIsServed(c, Apply(c, s, steps[0]), steps[1..]);
      CallsFirst(c, s, steps);
      if Busy(c, s, steps[0]) {
        CallOutcome(c, s, steps[0]);
        ServedFirst(c, CallOf(c, s, steps[0]), CallsOf(c, Apply(c, s, steps[0]), steps[1..]));
      } else {
        CursorRests(c, s, steps[0]);
      }
    }
  }

  /** Across any run, as long as an organization has an unblocked candidate in
      every claim and is passed over, no other organization is served twice, and
      every claim serves another one; so it is passed over at most once for each
      competitor. */
  lemma BoundedBypass(c: Settings, s: State, steps: seq<Step>, a: nat)
    requires ValidSettings(c) && IsRun(c, s, steps) && Inv(c, s) && Overlooked(c, s, steps, a)
    ensures Distinct(ServedBy(c, s, steps)) && a !in ServedBy(c, s, steps)
    ensures |ServedBy(c, s, steps)| >= |CallsOf(c, s, steps)|
    ensures Bypass.Climbs(s.cursor, ServedBy(c, s, steps), a)
  {
    var calls := CallsOf(c, s, steps);
    CallsLinked(c, s, steps);
    OverlookedCalls(c, s, steps, a);
    ServedIsServed(c, s, steps);
    if calls != [] {
      Bypass.NoDoubleService(c, calls, a);
    }
  }
}
