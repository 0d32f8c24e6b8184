/** The selection loop of `select_fair_deliveries` in its own form: nested loops
    over organizations and rotating endpoint deques that update queues, counts,
    balances, circuit rows and cursors in place. */
module FairSelector {
  import opened Base
  import opened Types
  import opened Scheduler

  class Selector {
    const settings: Settings
    const now: real
    var queues: map<Key, seq<Candidate>>
    var rotation: map<nat, seq<nat>>
    var orgCount: map<nat, nat>
    var endpointCount: map<nat, nat>
    var runtime: map<nat, Runtime>
    var tenants: map<nat, Tenant>
    var cursor: Option<nat>
    var selected: seq<Candidate>

    function View(): Sched
      reads this
    {
      Sched(queues, rotation, orgCount, endpointCount, runtime, tenants, cursor, selected)
    }

    constructor (settings: Settings, now: real, start: Sched)
      ensures this.settings == settings && this.now == now && View() == start
    {
      this.settings, this.now := settings, now;
      queues, rotation := start.queues, start.rotation;
      orgCount, endpointCount := start.orgCount, start.endpointCount;
      runtime, tenants := start.runtime, start.tenants;
      cursor, selected := start.cursor, start.selected;
    }

    /** Try the head of one endpoint's queue. */
    method TryEndpoint(ep: nat, d: Candidate) returns (took: bool)
      requires ep in runtime
      modifies this`runtime
      ensures var (e, ok) := TryHead(settings, now, old(runtime)[ep], Get(endpointCount, ep), d);
              took == ok && runtime == old(runtime)[ep := e]
    {
      took := false;
      var e := runtime[ep];
      if e.pausedAt.None? && !(e.circuit.Open? && (e.openUntil.None? || e.openUntil.value > now)) {
        if e.circuit.Open? {
          e := e.(circuit := HalfOpen, openUntil := None, probe := None);
        }
        if !(e.circuit.HalfOpen? && e.probe != None && e.probe != Some(d.id))
           && Get(endpointCount, ep) < settings.endpointConcurrency
           && e.deliveryTokens >= 1.0
           && !(d.retry && e.retryTokens < 1.0)
        {
          took := true;
          e := e.(deliveryTokens := e.deliveryTokens - 1.0);
          if d.retry {
            e := e.(retryTokens := e.retryTokens - 1.0);
          }
          if e.circuit.HalfOpen? {
            e := e.(probe := Some(d.id));
          }
        }
      }
      runtime := runtime[ep := e];
    }

    /** Move the head of a queue to the selection. */
    method TakeHead(org: nat, ep: nat)
      requires (org, ep) in queues && queues[(org, ep)] != [] && org in tenants
      modifies this`queues, this`selected, this`endpointCount, this`orgCount, this`tenants, this`cursor
      ensures View() == Take(old(View()), (org, ep))
    {
      var queue := queues[(org, ep)];
      queues := queues[(org, ep) := queue[1..]];
      selected := selected + [queue[0]];
      endpointCount := endpointCount[ep := Get(endpointCount, ep) + 1];
      orgCount := orgCount[org := Get(orgCount, org) + 1];
      tenants := tenants[org := tenants[org].(endpointCursor := Some(ep))];
      cursor := Some(org);
    }

    /** Visit the endpoint at the front of the organization's deque. */
    method VisitEndpoint(org: nat) returns (took: bool)
      requires Ready(View(), org) && rotation[org] != []
      modifies this
      ensures (View(), took) == Visit(settings, now, old(View()), org)
    {
      took := false;
      var ep := rotation[org][0];
      rotation := rotation[org := rotation[org][1..] + [ep]];
      var queue := queues[(org, ep)];
      if queue != [] {
        took := TryEndpoint(ep, queue[0]);
        if took {
          TakeHead(org, ep);
        }
      }
    }

    /** Go round the organization's deque until something is taken. */
    method ScanEndpoints(org: nat) returns (took: bool)
      requires Ready(View(), org)
      modifies this
      ensures (View(), took) == Scan(settings, now, old(View()), org, |old(rotation)[org]|)
    {
      took := false;
      ghost var start := View();
      var n := |rotation[org]|;
      for i := 0 to n
        invariant Ready(View(), org) && |rotation[org]| == n
        invariant Scan(settings, now, start, org, n) == Scan(settings, now, View(), org, n - i)
        invariant !took
      {
        took := VisitEndpoint(org);
        if took {
          return;
        }
      }
    }

    /** Serve one organization if it is below its cap. */
    method TakeTurn(org: nat) returns (took: bool)
      requires Ready(View(), org)
      modifies this
      ensures (View(), took) == Turn(settings, now, old(View()), org)
    {
      took := false;
      if Get(orgCount, org) < settings.tenantInFlight {
        took := ScanEndpoints(org);
      }
    }

    /** One pass over the organizations. */
    method RunPass(orgs: seq<nat>, available: nat) returns (madeProgress: bool)
      requires AllReady(View(), orgs)
      modifies this
      ensures (View(), madeProgress) == Pass(settings, now, old(View()), orgs, available, false)
      ensures AllReady(View(), orgs)
    {
      madeProgress := false;
      ghost var start := View();
      for i := 0 to |orgs|
        invariant AllReady(View(), orgs)
        invariant Pass(settings, now, start, orgs, available, false)
               == Pass(settings, now, View(), orgs[i..], available, madeProgress)
      {
        if |selected| >= available {
          return;
        }
        assert orgs[i] in orgs && orgs[i..][1..] == orgs[i + 1..];
        ScanKeepsReady(settings, now, View(), orgs[i], |rotation[orgs[i]]|, orgs);
        var took := TakeTurn(orgs[i]);
        madeProgress := madeProgress || took;
      }
    }

    /** Passes until enough are selected or a whole pass takes nothing. */
    method Select(orgs: seq<nat>, available: nat)
      requires AllReady(View(), orgs)
      modifies this
      ensures View() == Rounds(settings, now, old(View()), orgs, available)
    {
      ghost var start := View();
      while |selected| < available
        invariant AllReady(View(), orgs)
        invariant Rounds(settings, now, start, orgs, available) == Rounds(settings, now, View(), orgs, available)
        decreases available - |selected|
      {
        PassKeepsReady(settings, now, View(), orgs, available, false, orgs);
        var madeProgress := RunPass(orgs, available);
        if !madeProgress {
          return;
        }
      }
    }
  }
}
