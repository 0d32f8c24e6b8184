/** Admission bounds in every reachable state: the global backlog and each
    organization's retained envelope bytes. */
module Quotas {
  import opened Base
  import opened Types
  import opened Platform
  import opened Admission
  import opened Lifecycle
  import opened Machine
  import opened Rows
  import opened LeaseSafety
  import opened Integrity

  // ---- backlog ------------------------------------------------------------------------

  ghost predicate WithinBacklog(c: Settings, s: State) { |Backlog(s)| <= c.maxBacklog }

  /** Rows never reopen, so without new rows the backlog does not grow. */
  lemma BacklogShrinks(c: Settings, s: State, t: State, claiming: bool)
    requires Steps(c, s, t, claiming) && t.deliveries.Keys <= s.deliveries.Keys
    ensures Backlog(t) <= Backlog(s) && |Backlog(t)| <= |Backlog(s)|
  {
    forall id | id in Backlog(t) ensures id in Backlog(s) {
      assert Moves(c, s.now, s.deliveries[id], t.deliveries[id], claiming);
    }
    SubsetCardinality(Backlog(t), Backlog(s));
  }

  /** Fresh rows add at most their number. */
  lemma BacklogGrows(s: State, t: State, lo: nat)
    requires lo <= t.nextId && RowsAdded(s.deliveries, t.deliveries, lo, t.nextId, s.now)
    ensures |Backlog(t)| <= |Backlog(s)| + (t.nextId - lo)
  {
    var added: set<nat> := set x | x in Range(lo, t.nextId) && x >= 0;
    SubsetCardinality(added, Range(lo, t.nextId));
    forall id | id in Backlog(t) ensures id in Backlog(s) + added {}
    SubsetCardinality(Backlog(t), Backlog(s) + added);
    UnionCardinality(Backlog(s), added);
  }

  lemma IntakeWithinBacklog(c: Settings, s: State, step: Intake)
    requires ValidSettings(c) && WithinBacklog(c, s) && IdsBelow(s.deliveries, s.nextId)
    ensures WithinBacklog(c, ApplyIntake(c, s, step))
  {
    var t := ApplyIntake(c, s, step);
    match step
    case IngestEvent(r) =>
      var tenant := IngestOutcome(c, s, r);
      if Ingest(c, s, r).1.Accepted? {
        AcceptedRows(s, r, tenant);
        BacklogGrows(s, t, s.nextId + 1);
      }
    case ReplayDeliveries(p, sources, dead) =>
      var tenant := ReplayOutcome(c, s, p, sources, dead);
      if t != s {
        ReplayedAt(s, sources, |sources|);
        BacklogGrows(s, t, s.nextId);
      }
  }

  lemma NoNewRows(c: Settings, s: State, step: Step)
    requires ValidSettings(c) && Enabled(c, s, step) && IdsBelow(s.deliveries, s.nextId) && !step.OnIntake?
    ensures Apply(c, s, step).deliveries.Keys <= s.deliveries.Keys
  {
    StepRows(c, s, step);
    match step
    case Clock(_) =>
    case OnSetup(setup) => SetupFrame(c, s, setup);
    case OnWork(work) => WorkFrame(c, s, work);
    case OnOperator(operator) => OperatorFrame(c, s, operator);
    case OnUpkeep(upkeep) => UpkeepMoves(c, s, upkeep);
  }

  lemma StepKeepsBacklog(c: Settings, s: State, step: Step)
    requires ValidSettings(c) && Enabled(c, s, step) && IdsBelow(s.deliveries, s.nextId) && WithinBacklog(c, s)
    ensures WithinBacklog(c, Apply(c, s, step))
  {
    if step.OnIntake? {
      IntakeWithinBacklog(c, s, step.intake);
    } else {
      NoNewRows(c, s, step);
      StepRows(c, s, step);
      BacklogShrinks(c, s, Apply(c, s, step), IsClaim(step));
    }
  }

  // ---- retained bytes ---------------------------------------------------------------------

  function Contribution(s: State, org: nat, id: nat): nat {
    if id in s.events && InOrg(s, s.events[id], org) then EnvelopeBytes(s.events[id]) else 0
  }

  lemma {:induction false} RetainedLeq(s: State, t: State, org: nat, n: nat)
    requires forall id :: 0 <= id < n ==> Contribution(t, org, id) <= Contribution(s, org, id)
    ensures RetainedBelow(t, org, n) <= RetainedBelow(s, org, n)
  {
    if n > 0 {
      RetainedLeq(s, t, org, n - 1);
      assert Contribution(t, org, n - 1) <= Contribution(s, org, n - 1);
    }
  }

  lemma {:induction false} RetainedStops(s: State, org: nat, n: nat, m: nat)
    requires n <= m && forall id :: id in s.events ==> id < n
    ensures RetainedBelow(s, org, m) == RetainedBelow(s, org, n)
  {
    if n < m { RetainedStops(s, org, n, m - 1); }
  }

  ghost predicate WithinBytes(c: Settings, s: State) {
    forall org: nat :: Retained(s, org) <= c.retainedBytes
  }

  /** Without new events nothing is retained that was not before. */
  lemma BytesShrink(c: Settings, s: State, t: State)
    requires WithinBytes(c, s) && s.nextId <= t.nextId && (forall id :: id in s.events ==> id < s.nextId)
    requires forall id :: id in t.events ==> id in s.events
    requires forall org: nat, id: nat :: Contribution(t, org, id) <= Contribution(s, org, id)
    ensures WithinBytes(c, t)
  {
    forall org: nat ensures Retained(t, org) <= c.retainedBytes {
      assert Retained(s, org) <= c.retainedBytes;
      RetainedStops(t, org, s.nextId, t.nextId);
      forall id: nat | id < s.nextId ensures Contribution(t, org, id) <= Contribution(s, org, id) {}
      RetainedLeq(s, t, org, s.nextId);
    }
  }

  lemma AddedEventBytes(s: State, t: State, id: nat, org: nat)
    requires id !in s.events && id in t.events && t.events == s.events[id := t.events[id]]
    requires t.projects == s.projects && forall k :: k in s.events ==> k < id
    ensures RetainedBelow(t, org, id + 1) == RetainedBelow(s, org, id) + Contribution(t, org, id)
  {
    forall k: nat | k < id ensures Contribution(t, org, k) == Contribution(s, org, k) {}
    RetainedLeq(s, t, org, id);
    RetainedLeq(t, s, org, id);
  }

  /** An accepted event adds exactly its envelope to its own organization. */
  lemma AcceptBytes(s: State, r: Request, tenant: Tenant, org: nat)
    requires r.project in s.projects && forall id :: id in s.events ==> id < s.nextId
    ensures Retained(Accept(s, r, tenant), org)
         == Retained(s, org) + if s.projects[r.project] == org then |r.envelope| else 0
  {
    var t := Accept(s, r, tenant);
    assert t.events == s.events[s.nextId := NewEvent(r, s.now)];
    AddedEventBytes(s, t, s.nextId, org);
    RetainedStops(t, org, s.nextId + 1, t.nextId);
  }

  lemma IngestWithinBytes(c: Settings, s: State, r: Request)
    requires ValidSettings(c) && Tables(s) && WithinBytes(c, s)
    ensures WithinBytes(c, Ingest(c, s, r).0)
  {
    var tenant := IngestOutcome(c, s, r);
    if Ingest(c, s, r).1.Accepted? {
      forall org: nat ensures Retained(Ingest(c, s, r).0, org) <= c.retainedBytes {
        AcceptBytes(s, r, tenant, org);
        assert Retained(s, org) <= c.retainedBytes;
      }
    }
  }

  lemma SameEventsBytes(c: Settings, s: State, t: State)
    requires WithinBytes(c, s) && Tables(s) && t.events == s.events && s.nextId <= t.nextId
    requires forall p :: p in s.projects ==> p in t.projects && t.projects[p] == s.projects[p]
    ensures WithinBytes(c, t)
  {
    forall org: nat, id: nat ensures Contribution(t, org, id) <= Contribution(s, org, id) {}
    BytesShrink(c, s, t);
  }

  lemma FewerEventsBytes(c: Settings, s: State, t: State)
    requires WithinBytes(c, s) && Tables(s) && t.projects == s.projects && s.nextId <= t.nextId
    requires forall id :: id in t.events ==>
               && id in s.events && t.events[id].project == s.events[id].project
               && EnvelopeBytes(t.events[id]) <= EnvelopeBytes(s.events[id])
    ensures WithinBytes(c, t)
  {
    forall org: nat, id: nat ensures Contribution(t, org, id) <= Contribution(s, org, id) {}
    BytesShrink(c, s, t);
  }

  lemma DeletedOrgBytes(c: Settings, s: State, org: nat)
    requires WithinBytes(c, s) && Tables(s)
    ensures WithinBytes(c, DeleteOrganization(s, org))
  {
    var t := DeleteOrganization(s, org);
    forall o: nat, id: nat ensures Contribution(t, o, id) <= Contribution(s, o, id) {}
    BytesShrink(c, s, t);
  }

  lemma CleanupBytes(c: Settings, s: State, op: nat, batch: set<nat>)
    requires DueOperation(s, op) && WithinBytes(c, s) && Tables(s)
    ensures WithinBytes(c, Cleanup(s, op, batch))
  {
    var s1 := MarkRunning(s, op);
    var stage := StageOf(s, s.operations[op].org);
    SameEventsBytes(c, s, s1);
    assert Tables(s1);
    if stage.Canceling? {
      SameEventsBytes(c, s1, CancelBatch(s1, batch));
    } else if stage.DeletingDeliveries? {
      SameEventsBytes(c, s1, DeleteDeliveries(s1, batch));
    } else if stage.DeletingEvents? {
      FewerEventsBytes(c, s1, DeleteEvents(s1, batch));
    } else if stage.DeletingOrganization? {
      DeletedOrgBytes(c, s1, s.operations[op].org);
    }
  }

  lemma UpkeepBytes(c: Settings, s: State, step: Upkeep)
    requires CanKeep(c, s, step) && WithinBytes(c, s) && Tables(s)
    ensures WithinBytes(c, ApplyUpkeep(c, s, step))
  {
    var t := ApplyUpkeep(c, s, step);
    match step
    case PurgeEventPayloads(batch) => FewerEventsBytes(c, s, t);
    case PurgeTerminalDeliveries(batch) => SameEventsBytes(c, s, t);
    case RequestOrgDeletion(org) => SameEventsBytes(c, s, t);
    case CancelOrgDeletion(org) => SameEventsBytes(c, s, t);
    case CleanupRun(op, batch) => CleanupBytes(c, s, op, batch);
  }

  lemma StepKeepsBytes(c: Settings, s: State, step: Step)
    requires ValidSettings(c) && Enabled(c, s, step) && Refs(s) && WithinBytes(c, s)
    ensures WithinBytes(c, Apply(c, s, step))
  {
    if step.OnUpkeep? {
      UpkeepBytes(c, s, step.upkeep);
    } else if step.OnIntake? && step.intake.IngestEvent? {
      IngestWithinBytes(c, s, step.intake.request);
    } else {
      QuietEvents(c, s, step);
      SameEventsBytes(c, s, Apply(c, s, step));
    }
  }

  /** A refused request changes nothing, so it costs no quota. */
  lemma RefusalIsFree(c: Settings, s: State, r: Request)
    requires ValidSettings(c) && !Ingest(c, s, r).1.Accepted?
    ensures Ingest(c, s, r).0 == s
  {
    var _ := IngestOutcome(c, s, r);
  }

  // ---- what is counted as retained -----------------------------------------------------------

  lemma {:induction false} BelowSplits(s: State, org: nat, id: nat, n: nat)
    requires id in s.events
    ensures var t := s.(events := s.events - {id});
            RetainedBelow(s, org, n) == RetainedBelow(t, org, n) + if id < n then Contribution(s, org, id) else 0
  {
    if n > 0 { BelowSplits(s, org, id, n - 1); }
  }

  /** An organization's retained bytes are the lengths of its events' envelopes:
      taking one event away takes away its envelope's length if it is the
      organization's and still has one, and nothing otherwise; without events
      nothing is retained. */
  lemma RetainedIsSum(s: State, org: nat, id: nat)
    requires Tables(s) && id in s.events
    ensures var ev := s.events[id];
            Retained(s, org) == Retained(s.(events := s.events - {id}), org) +
              if ev.project in s.projects && s.projects[ev.project] == org && ev.envelope.Some? then |ev.envelope.value| else 0
  {
    BelowSplits(s, org, id, s.nextId);
  }

  lemma {:induction false} NothingBelow(s: State, org: nat, n: nat)
    requires s.events == map[]
    ensures RetainedBelow(s, org, n) == 0
  {
    if n > 0 { NothingBelow(s, org, n - 1); }
  }

  lemma NothingRetained(s: State, org: nat)
    requires s.events == map[]
    ensures Retained(s, org) == 0
  {
    NothingBelow(s, org, s.nextId);
  }
}
