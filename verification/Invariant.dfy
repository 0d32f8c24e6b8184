/** Every invariant together, in every state reachable from an empty
    deployment. */
module Invariant {
  import opened Base
  import opened Types
  import opened Platform
  import opened Machine
  import opened LeaseSafety
  import opened Integrity
  import opened Capacity
  import opened Quotas
  import opened CircuitBreaker
  import opened Tenants
  import opened Events
  import opened Secrets
  import opened Deletion

  ghost predicate Limits(c: Settings, s: State) {
    WithinCaps(c, s) && WithinBacklog(c, s) && WithinBytes(c, s)
  }

  ghost predicate Records(c: Settings, s: State) {
    CircuitsOk(c, s) && TenantsOk(c, s) && KeysUnique(s) && SecretsOk(c, s) && OperationsOk(c, s)
  }

  ghost predicate Inv(c: Settings, s: State) {
    Leases(c, s) && Refs(s) && Limits(c, s) && Records(c, s)
  }

  lemma InitialInv(c: Settings)
    requires ValidSettings(c)
    ensures Inv(c, EMPTY)
  {
    InitialLeases(c);
    assert LiveIds(EMPTY) == {} && Backlog(EMPTY) == {};
    forall o: nat ensures |LiveOfOrg(EMPTY, o)| <= c.tenantInFlight { assert LiveOfOrg(EMPTY, o) == {}; }
    forall e: nat ensures |LiveOfEndpoint(EMPTY, e)| <= c.endpointConcurrency { assert LiveOfEndpoint(EMPTY, e) == {}; }
  }

  lemma StepKeepsLimits(c: Settings, s: State, step: Step)
    requires ValidSettings(c) && Enabled(c, s, step) && Leases(c, s) && Refs(s) && Limits(c, s)
    ensures Limits(c, Apply(c, s, step))
  {
    StepKeepsCaps(c, s, step);
    StepKeepsBacklog(c, s, step);
    StepKeepsBytes(c, s, step);
  }

  lemma StepKeepsRecords(c: Settings, s: State, step: Step)
    requires ValidSettings(c) && Enabled(c, s, step) && Leases(c, s) && Refs(s) && Records(c, s)
    ensures Records(c, Apply(c, s, step))
  {
    StepKeepsCircuits(c, s, step);
    StepKeepsTenants(c, s, step);
    StepKeepsKeys(c, s, step);
    StepKeepsSecrets(c, s, step);
    StepKeepsOperations(c, s, step);
  }

  lemma StepKeepsInv(c: Settings, s: State, step: Step)
    requires ValidSettings(c) && Enabled(c, s, step) && Inv(c, s)
    ensures Inv(c, Apply(c, s, step))
  {
    StepKeepsLeases(c, s, step);
    StepKeepsRefs(c, s, step);
    StepKeepsLimits(c, s, step);
    StepKeepsRecords(c, s, step);
  }

  lemma {:induction false} RunKeepsInv(c: Settings, s: State, steps: seq<Step>)
    requires ValidSettings(c) && IsRun(c, s, steps) && Inv(c, s)
    ensures Inv(c, After(c, s, steps))
    decreases |steps|
  {
    if steps != [] {
      StepKeepsInv(c, s, steps[0]);
      RunKeepsInv(c, Apply(c, s, steps[0]), steps[1..]);
    }
  }

  /** The invariants hold after any interleaving of transactions. */
  lemma ReachableInv(c: Settings, steps: seq<Step>)
    requires ValidSettings(c) && IsRun(c, EMPTY, steps)
    ensures Inv(c, After(c, EMPTY, steps))
  {
    InitialInv(c);
    RunKeepsInv(c, EMPTY, steps);
  }
}
