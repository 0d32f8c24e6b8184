/** The event table over runs: rows keep what idempotency is judged on, keys
    stay unique, and rows leave only through organization cleanup. */
module Events {
  import opened Base
  import opened Types
  import opened Platform
  import opened Admission
  import opened Lifecycle
  import opened Machine
  import opened Integrity

  /** All that a payload purge leaves of an event. */
  predicate SameEvent(a: Event, b: Event) {
    && b.project == a.project && b.key == a.key && b.eventType == a.eventType && b.mode == a.mode
    && b.payloadHash == a.payloadHash && b.createdAt == a.createdAt
  }

  ghost predicate EventsKept(s: State, t: State) {
    forall id :: id in t.events ==> id in s.events && SameEvent(s.events[id], t.events[id])
  }

  predicate SameKey(a: Event, b: Event) { a.project == b.project && a.key == b.key }

  /** At most one event per project and key. */
  ghost predicate KeysUnique(s: State) {
    forall a, b :: a in s.events && b in s.events && SameKey(s.events[a], s.events[b]) ==> a == b
  }

  /** The step is a cleanup run for the organization. */
  predicate CleansUp(s: State, step: Step, org: nat) {
    && step.OnUpkeep? && step.upkeep.CleanupRun?
    && step.upkeep.op in s.operations && s.operations[step.upkeep.op].org == org
  }

  // ---- which events change in a step ----------------------------------------------------

  lemma UpkeepEvents(c: Settings, s: State, step: Upkeep)
    requires CanKeep(c, s, step)
    ensures EventsKept(s, ApplyUpkeep(c, s, step))
    ensures !step.CleanupRun? ==> ApplyUpkeep(c, s, step).events.Keys == s.events.Keys
  {
    var t := ApplyUpkeep(c, s, step);
    match step
    case PurgeEventPayloads(batch) =>
    case PurgeTerminalDeliveries(batch) => assert t.events == s.events;
    case RequestOrgDeletion(org) => assert t.events == s.events;
    case CancelOrgDeletion(org) => assert t.events == s.events;
    case CleanupRun(op, batch) =>
      StageEvents(MarkRunning(s, op), StageOf(s, s.operations[op].org), s.operations[op].org, batch);
  }

  lemma StageEvents(s: State, stage: Stage, org: nat, batch: set<nat>)
    ensures var t := RunStage(s, stage, org, batch);
            && EventsKept(s, t)
            && (forall id :: id in s.events && id !in t.events ==> stage.DeletingEvents? && id in batch)
  {
    var t := RunStage(s, stage, org, batch);
    if !stage.DeletingEvents? { assert t.events == s.events; }
  }

  /** Outside ingestion no event appears or changes its identity. */
  lemma StepEvents(c: Settings, s: State, step: Step)
    requires ValidSettings(c) && Enabled(c, s, step)
    requires !(step.OnIntake? && step.intake.IngestEvent?)
    ensures EventsKept(s, Apply(c, s, step))
  {
    match step
    case Clock(_) =>
    case OnSetup(setup) => SetupFrame(c, s, setup);
    case OnIntake(ReplayDeliveries(p, sources, dead)) =>
      var _ := ReplayOutcome(c, s, p, sources, dead);
    case OnWork(work) => WorkFrame(c, s, work);
    case OnOperator(operator) => OperatorFrame(c, s, operator);
    case OnUpkeep(upkeep) => UpkeepEvents(c, s, upkeep);
  }

  /** An event survives every step that is not a cleanup of its organization. */
  lemma EventSurvives(c: Settings, s: State, step: Step, id: nat, org: nat)
    requires ValidSettings(c) && Enabled(c, s, step) && Tables(s)
    requires id in s.events && InOrg(s, s.events[id], org) && !CleansUp(s, step, org)
    ensures var t := Apply(c, s, step);
            id in t.events && SameEvent(s.events[id], t.events[id]) && InOrg(t, t.events[id], org)
  {
    if step.OnUpkeep? {
      EventSurvivesUpkeep(c, s, step.upkeep, id, org);
    } else if step.OnIntake? && step.intake.IngestEvent? {
      EventSurvivesIngest(c, s, step.intake.request, id);
    } else {
      QuietEvents(c, s, step);
    }
  }

  lemma EventSurvivesIngest(c: Settings, s: State, r: Request, id: nat)
    requires ValidSettings(c) && Numbered(s) && id in s.events
    ensures var t := Ingest(c, s, r).0;
            id in t.events && t.events[id] == s.events[id] && t.projects == s.projects
  {
    var tenant := IngestOutcome(c, s, r);
  }

  lemma EventSurvivesUpkeep(c: Settings, s: State, step: Upkeep, id: nat, org: nat)
    requires CanKeep(c, s, step) && id in s.events && InOrg(s, s.events[id], org)
    requires !CleansUp(s, OnUpkeep(step), org)
    ensures var t := ApplyUpkeep(c, s, step);
            id in t.events && SameEvent(s.events[id], t.events[id]) && InOrg(t, t.events[id], org)
  {
    UpkeepEvents(c, s, step);
    if step.CleanupRun? {
      OtherOrgSurvives(s, step.op, step.batch, id, org);
    } else {
      QuietUpkeep(c, s, step);
    }
  }

  lemma OtherOrgSurvives(s: State, op: nat, batch: set<nat>, id: nat, org: nat)
    requires DueOperation(s, op) && batch <= CleanupTargets(s, s.operations[op].org)
    requires id in s.events && InOrg(s, s.events[id], org) && s.operations[op].org != org
    ensures var t := Cleanup(s, op, batch); id in t.events && InOrg(t, s.events[id], org)
  {
    var other := s.operations[op].org;
    var stage := StageOf(s, other);
    var s1 := MarkRunning(s, op);
    StageEvents(s1, stage, other, batch);
    if stage.DeletingEvents? {
      assert batch <= Orphans(s, other);
      assert id !in batch;
    }
    StageProjects(s1, stage, other, batch);
  }

  lemma StageProjects(s: State, stage: Stage, org: nat, batch: set<nat>)
    ensures forall p :: p in s.projects && s.projects[p] != org ==>
              p in RunStage(s, stage, org, batch).projects && RunStage(s, stage, org, batch).projects[p] == s.projects[p]
  {
    var t := RunStage(s, stage, org, batch);
    if !stage.DeletingOrganization? { assert t.projects == s.projects; }
  }

  // ---- keys -----------------------------------------------------------------------------------

  lemma KeptKeysUnique(s: State, t: State)
    requires KeysUnique(s) && EventsKept(s, t)
    ensures KeysUnique(t)
  {
  }

  lemma IngestKeysUnique(c: Settings, s: State, r: Request)
    requires ValidSettings(c) && KeysUnique(s)
    ensures KeysUnique(Ingest(c, s, r).0)
  {
    var tenant := IngestOutcome(c, s, r);
    if Ingest(c, s, r).1.Accepted? {
      var t := Accept(s, r, tenant);
      assert t.events == s.events[s.nextId := NewEvent(r, s.now)];
      forall id | id in s.events ensures !HasKey(s, id, r.project, r.key) {
        assert id !in EventIdsWith(s, r.project, r.key);
      }
    }
  }

  lemma StepKeepsKeys(c: Settings, s: State, step: Step)
    requires ValidSettings(c) && Enabled(c, s, step) && KeysUnique(s)
    ensures KeysUnique(Apply(c, s, step))
  {
    if step.OnIntake? && step.intake.IngestEvent? {
      IngestKeysUnique(c, s, step.intake.request);
    } else {
      StepEvents(c, s, step);
      KeptKeysUnique(s, Apply(c, s, step));
    }
  }
}
