/** Fairness of the selection loop, within one call and across calls. */
module Fairness {
  import opened Base
  import opened Types
  import opened Scheduler
  import opened Selection

  /** The head of the queue could be taken now. */
  predicate HeadFree(c: Settings, now: real, s: Sched, key: Key) {
    && key in s.queues && s.queues[key] != [] && key.1 in s.runtime
    && !Blocked(c, now, s.runtime[key.1], Get(s.endpointCount, key.1), s.queues[key][0])
  }

  /** Below its cap, with an endpoint whose queue head is not blocked. */
  ghost predicate Eligible(c: Settings, now: real, s: Sched, org: nat) {
    && org in s.rotation && !AtCap(c, s, org)
    && exists ep :: ep in s.rotation[org] && HeadFree(c, now, s, (org, ep))
  }

  // ---- blocking only accumulates within a call ------------------------------

  /** Charging or half-opening an endpoint never frees another head. */
  lemma TryMonotone(c: Settings, now: real, e: Runtime, leases: nat, d: Candidate, other: Candidate)
    ensures var (e', took) := TryHead(c, now, e, leases, d);
            && (!took ==> (Blocked(c, now, e', leases, other) <==> Blocked(c, now, e, leases, other)))
            && (took && Blocked(c, now, e, leases, other) ==> Blocked(c, now, e', leases + 1, other))
  {
  }

  lemma VisitBack(c: Settings, now: real, s: Sched, org: nat, key: Key)
    requires Ready(s, org) && s.rotation[org] != []
    ensures var (t, took) := Visit(c, now, s, org);
            && (HeadFree(c, now, t, key) ==> HeadFree(c, now, s, key))
            && (!took ==> (HeadFree(c, now, t, key) <==> HeadFree(c, now, s, key)))
  {
    var k: Key := (org, s.rotation[org][0]);
    if s.queues[k] != [] && key in s.queues && s.queues[key] != [] {
      TryMonotone(c, now, s.runtime[k.1], Get(s.endpointCount, k.1), s.queues[k][0], s.queues[key][0]);
    }
  }

  lemma EligibleBack(c: Settings, now: real, s: Sched, org: nat, a: nat)
    requires Ready(s, org) && s.rotation[org] != [] && !AtCap(c, s, org)
    ensures var (t, took) := Visit(c, now, s, org);
            && (Eligible(c, now, t, a) ==> Eligible(c, now, s, a))
            && (!took && Eligible(c, now, s, a) ==> Eligible(c, now, t, a))
  {
    var (t, took) := Visit(c, now, s, org);
    if Eligible(c, now, t, a) {
      var ep :| ep in t.rotation[a] && HeadFree(c, now, t, (a, ep));
      VisitBack(c, now, s, org, (a, ep));
      assert ep in s.rotation[a];
    }
    if !took && Eligible(c, now, s, a) {
      var ep :| ep in s.rotation[a] && HeadFree(c, now, s, (a, ep));
      VisitBack(c, now, s, org, (a, ep));
      assert ep in t.rotation[a];
    }
  }

  lemma {:induction false} RunBack(c: Settings, now: real, s: Sched, v: seq<nat>, a: nat)
    requires Allowed(c, now, s, v) && Eligible(c, now, Run(c, now, s, v), a)
    ensures Eligible(c, now, s, a)
    decreases |v|
  {
    if v != [] {
      RunBack(c, now, Visit(c, now, s, v[0]).0, v[1..], a);
      EligibleBack(c, now, s, v[0], a);
    }
  }

  // ---- one organization's scan ------------------------------------------------

  ghost predicate Keyed(s: Sched) {
    forall k, d :: k in s.queues && d in s.queues[k] ==> (d.org, d.endpoint) == k
  }

  /** A scan either takes one delivery of the organization, or finds every one
      of the endpoints it visited without a free head and changes no
      eligibility. */
  lemma {:induction false} ScanOutcome(c: Settings, now: real, s: Sched, org: nat, n: nat)
    requires Keyed(s) && Ready(s, org) && n <= |s.rotation[org]| && !AtCap(c, s, org)
    ensures var (t, took) := Scan(c, now, s, org, n);
            && Keyed(t)
            && (took ==> |t.selected| == |s.selected| + 1 && t.selected[..|s.selected|] == s.selected
                         && t.selected[|s.selected|].org == org)
            && (!took ==> t.selected == s.selected && t.orgCount == s.orgCount)
            && (!took ==> forall i :: 0 <= i < n ==> !HeadFree(c, now, s, (org, s.rotation[org][i])))
    decreases n
  {
    if n > 0 {
      var key: Key := (org, s.rotation[org][0]);
      var (t, took) := Visit(c, now, s, org);
      VisitKeyed(c, now, s, org);
      if !took {
        ScanOutcome(c, now, t, org, n - 1);
        forall i | 0 <= i < n && !Scan(c, now, s, org, n).1
          ensures !HeadFree(c, now, s, (org, s.rotation[org][i]))
        {
          if i > 0 {
            assert t.rotation[org][i - 1] == s.rotation[org][i];
            VisitBack(c, now, s, org, (org, s.rotation[org][i]));
          }
        }
      }
    }
  }

  lemma VisitKeyed(c: Settings, now: real, s: Sched, org: nat)
    requires Keyed(s) && Ready(s, org) && s.rotation[org] != []
    ensures Keyed(Visit(c, now, s, org).0)
  {
    var key: Key := (org, s.rotation[org][0]);
    var t := Visit(c, now, s, org).0;
    forall k, d | k in t.queues && d in t.queues[k] ensures (d.org, d.endpoint) == k {
      assert d in s.queues[k];
    }
  }

  lemma SkipKeepsCounts(c: Settings, now: real, s: Sched, org: nat)
    requires Ready(s, org) && s.rotation[org] != [] && !Visit(c, now, s, org).1
    ensures Visit(c, now, s, org).0.orgCount == s.orgCount
  {
  }

  lemma {:induction false} ScanSkips(c: Settings, now: real, s: Sched, org: nat, n: nat, a: nat)
    requires Ready(s, org) && n <= |s.rotation[org]| && !AtCap(c, s, org)
    requires !Scan(c, now, s, org, n).1 && Eligible(c, now, s, a)
    ensures Eligible(c, now, Scan(c, now, s, org, n).0, a)
    decreases n
  {
    if n > 0 {
      var (t, took) := Visit(c, now, s, org);
      EligibleBack(c, now, s, org, a);
      SkipKeepsCounts(c, now, s, org);
      ScanSkips(c, now, t, org, n - 1, a);
    }
  }

  /** An eligible organization is served exactly one delivery on its turn; one
      that is not eligible is served none. */
  lemma TurnServes(c: Settings, now: real, s: Sched, org: nat)
    requires Keyed(s) && Ready(s, org)
    ensures var (t, took) := Turn(c, now, s, org);
            && Keyed(t)
            && (Eligible(c, now, s, org) ==> took)
            && (took ==> |t.selected| == |s.selected| + 1 && t.selected[..|s.selected|] == s.selected
                         && t.selected[|s.selected|].org == org)
            && (!took ==> t.selected == s.selected)
  {
    if !AtCap(c, s, org) {
      ScanOutcome(c, now, s, org, |s.rotation[org]|);
      if Eligible(c, now, s, org) {
        var ep :| ep in s.rotation[org] && HeadFree(c, now, s, (org, ep));
        var i :| 0 <= i < |s.rotation[org]| && s.rotation[org][i] == ep;
      }
    }
  }

  lemma TurnKeepsEligible(c: Settings, now: real, s: Sched, org: nat, a: nat)
    requires Ready(s, org) && !Turn(c, now, s, org).1
    ensures Eligible(c, now, Turn(c, now, s, org).0, a) <==> Eligible(c, now, s, a)
  {
    if !AtCap(c, s, org) {
      var n := |s.rotation[org]|;
      if Eligible(c, now, s, a) { ScanSkips(c, now, s, org, n, a); }
      if Eligible(c, now, Scan(c, now, s, org, n).0, a) {
        var v := ScanVisits(c, now, s, org, n);
        RunBack(c, now, s, v, a);
      }
    }
  }

  lemma TurnBack(c: Settings, now: real, s: Sched, org: nat, a: nat)
    requires Ready(s, org) && Eligible(c, now, Turn(c, now, s, org).0, a)
    ensures Eligible(c, now, s, a)
  {
    if !AtCap(c, s, org) {
      var v := ScanVisits(c, now, s, org, |s.rotation[org]|);
      RunBack(c, now, s, v, a);
    }
  }

  // ---- leftovers ---------------------------------------------------------------

  /** A pass that takes nothing leaves no organization it went over eligible. */
  lemma {:induction false} IdlePass(c: Settings, now: real, s: Sched, orgs: seq<nat>, available: nat)
    requires Keyed(s) && AllReady(s, orgs) && |s.selected| < available
    requires !Pass(c, now, s, orgs, available, false).1
    ensures var t := Pass(c, now, s, orgs, available, false).0;
            && (forall a :: Eligible(c, now, t, a) <==> Eligible(c, now, s, a))
            && (forall o :: o in orgs ==> !Eligible(c, now, t, o))
    decreases |orgs|
  {
    if orgs != [] {
      var (t, took) := Turn(c, now, s, orgs[0]);
      ScanKeepsReady(c, now, s, orgs[0], |s.rotation[orgs[0]]|, orgs);
      TurnServes(c, now, s, orgs[0]);
      PassKeepsReady(c, now, t, orgs[1..], available, took, orgs);
      assert !took;
      forall a ensures Eligible(c, now, t, a) <==> Eligible(c, now, s, a) {
        TurnKeepsEligible(c, now, s, orgs[0], a);
      }
      IdlePass(c, now, t, orgs[1..], available);
    }
  }

  /** When fewer than `available` are taken, every organization left with work
      is at its cap or has every non-empty endpoint queue blocked by pause,
      circuit, concurrency or tokens. */
  lemma {:induction false} LeftoversBlocked(c: Settings, now: real, s: Sched, orgs: seq<nat>, available: nat)
    requires Keyed(s) && AllReady(s, orgs)
    requires |Rounds(c, now, s, orgs, available).selected| < available
    ensures forall o :: o in orgs ==> !Eligible(c, now, Rounds(c, now, s, orgs, available), o)
    decreases available - |s.selected|
  {
    PassKeepsReady(c, now, s, orgs, available, false, orgs);
    var (t, progress) := Pass(c, now, s, orgs, available, false);
    if |s.selected| < available {
      if progress {
        PassKeyed(c, now, s, orgs, available, false);
        LeftoversBlocked(c, now, t, orgs, available);
      } else {
        IdlePass(c, now, s, orgs, available);
      }
    }
  }

  lemma {:induction false} PassKeyed(c: Settings, now: real, s: Sched, orgs: seq<nat>, available: nat, progress: bool)
    requires Keyed(s) && AllReady(s, orgs)
    ensures Keyed(Pass(c, now, s, orgs, available, progress).0)
    decreases |orgs|
  {
    if orgs != [] && |s.selected| < available {
      var (t, took) := Turn(c, now, s, orgs[0]);
      ScanKeepsReady(c, now, s, orgs[0], |s.rotation[orgs[0]]|, orgs);
      TurnServes(c, now, s, orgs[0]);
      PassKeyed(c, now, t, orgs[1..], available, progress || took);
    }
  }

  // ---- balance between organizations ---------------------------------------------

  lemma TurnCounts(c: Settings, now: real, s: Sched, org: nat, b: nat)
    requires Keyed(s) && Ready(s, org)
    ensures var (t, took) := Turn(c, now, s, org);
            OrgPicks(t.selected, b) == OrgPicks(s.selected, b) + if took && b == org then 1 else 0
  {
    TurnServes(c, now, s, org);
  }

  /** In one pass no organization is served twice, and one that is still
      eligible afterwards was served, unless the call filled up first. */
  lemma {:induction false} PassCounts(
    c: Settings, now: real, s: Sched, orgs: seq<nat>, available: nat, progress: bool, a: nat)
    requires Keyed(s) && AllReady(s, orgs) && Distinct(orgs)
    ensures var t := Pass(c, now, s, orgs, available, progress).0;
            && OrgPicks(s.selected, a) <= OrgPicks(t.selected, a)
                 <= OrgPicks(s.selected, a) + (if a in orgs then 1 else 0)
            && (Eligible(c, now, t, a) ==> Eligible(c, now, s, a))
            && (a in orgs && Eligible(c, now, t, a) && |t.selected| < available ==>
                  OrgPicks(t.selected, a) == OrgPicks(s.selected, a) + 1)
    decreases |orgs|
  {
    if orgs != [] && |s.selected| < available {
      var (t, took) := Turn(c, now, s, orgs[0]);
      ScanKeepsReady(c, now, s, orgs[0], |s.rotation[orgs[0]]|, orgs);
      TurnServes(c, now, s, orgs[0]);
      TurnCounts(c, now, s, orgs[0], a);
      assert forall i :: 0 <= i < |orgs| - 1 ==> orgs[1..][i] == orgs[i + 1];
      PassCounts(c, now, t, orgs[1..], available, progress || took, a);
      if Eligible(c, now, t, a) { TurnBack(c, now, s, orgs[0], a); }
    }
  }

  /** No organization gets two more than one that is still eligible at the end
      of the call. */
  lemma {:induction false} RoundsBalanced(
    c: Settings, now: real, s: Sched, orgs: seq<nat>, available: nat, a: nat, b: nat)
    requires Keyed(s) && AllReady(s, orgs) && Distinct(orgs) && a in orgs
    requires Eligible(c, now, Rounds(c, now, s, orgs, available), a)
    ensures var t := Rounds(c, now, s, orgs, available);
            && Eligible(c, now, s, a)
            && OrgPicks(s.selected, a) <= OrgPicks(t.selected, a)
            && OrgPicks(t.selected, b) - OrgPicks(s.selected, b)
                 <= OrgPicks(t.selected, a) - OrgPicks(s.selected, a) + 1
    decreases available - |s.selected|
  {
    if |s.selected| < available {
      var (t, progress) := Pass(c, now, s, orgs, available, false);
      PassKeepsReady(c, now, s, orgs, available, false, orgs);
      PassKeyed(c, now, s, orgs, available, false);
      PassCounts(c, now, s, orgs, available, false, a);
      PassCounts(c, now, s, orgs, available, false, b);
      if progress {
        RoundsBalanced(c, now, t, orgs, available, a, b);
      }
    }
  }
}
