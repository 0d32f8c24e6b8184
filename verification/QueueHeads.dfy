/** A queue moves only at its head: what one call of the selection loop takes
    from an endpoint is a prefix of its queue, and the call ends with every
    remaining head blocked. */
module QueueHeads {
  import opened Base
  import opened Types
  import opened Scheduler
  import opened Selection
  import opened Fairness
  import opened Platform

  // ---- prefixes -----------------------------------------------------------------

  /** Whatever stands before a selected delivery in its queue is selected too. */
  lemma PrefixTaken(q0: Queues, q: Queues, sel: seq<Candidate>, key: Key, i: nat)
    requires QueuesSplit(q0, q, sel) && key in q0 && Distinct(q0[key]) && i < |q0[key]|
    requires forall d :: d in q0[key] ==> (d.org, d.endpoint) == key
    ensures |q[key]| <= |q0[key]| && (q0[key][i] in sel <==> i < |q0[key]| - |q[key]|)
    ensures q0[key] == Picks(sel, key) + q[key]
  {
    var queue, taken := q0[key], Picks(sel, key);
    if queue[i] in sel {
      assert queue[i] in queue;
      PickCounted(sel, queue[i]);
      var j :| 0 <= j < |taken| && taken[j] == queue[i];
      assert queue[j] == taken[j];
    }
    if i < |taken| {
      assert taken[i] in taken;
      PicksAreTaken(sel, key, taken[i]);
    }
  }

  lemma {:induction false} PicksAreTaken(sel: seq<Candidate>, key: Key, d: Candidate)
    requires d in Picks(sel, key)
    ensures d in sel
  {
    var rest := sel[..|sel| - 1];
    if d in Picks(rest, key) { PicksAreTaken(rest, key, d); }
  }

  // ---- the call ends with blocked heads ----------------------------------------------

  lemma {:induction false} RunKeepsRotation(c: Settings, now: real, s: Sched, v: seq<nat>, org: nat, ep: nat)
    requires Allowed(c, now, s, v) && org in s.rotation && ep in s.rotation[org]
    ensures org in Run(c, now, s, v).rotation && ep in Run(c, now, s, v).rotation[org]
    decreases |v|
  {
    if v != [] {
      VisitKeepsRotation(c, now, s, v[0], org, ep);
      RunKeepsRotation(c, now, Visit(c, now, s, v[0]).0, v[1..], org, ep);
    }
  }

  lemma VisitKeepsRotation(c: Settings, now: real, s: Sched, o: nat, org: nat, ep: nat)
    requires Ready(s, o) && s.rotation[o] != [] && org in s.rotation && ep in s.rotation[org]
    ensures var t := Visit(c, now, s, o).0; org in t.rotation && ep in t.rotation[org]
  {
    var q := s.rotation[o];
    assert q == [q[0]] + q[1..];
  }

  /** After a call that stopped early, a queue of an organization below its cap
      is empty or has a blocked head. */
  lemma LeftoverHeadBlocked(c: Settings, now: real, s0: Sched, orgs: seq<nat>, available: nat, key: Key)
    requires Fresh(s0) && AllReady(s0, orgs) && key.0 in orgs && key.1 in s0.rotation[key.0]
    requires var t := Rounds(c, now, s0, orgs, available);
             |t.selected| < available && !AtCap(c, t, key.0) && key in t.queues && t.queues[key] != []
    ensures var t := Rounds(c, now, s0, orgs, available);
            && key.1 in t.runtime
            && Blocked(c, now, t.runtime[key.1], Get(t.endpointCount, key.1), t.queues[key][0])
  {
    var t := Rounds(c, now, s0, orgs, available);
    CallAccounted(c, now, s0, orgs, available);
    assert Ready(s0, key.0) && key.1 in s0.runtime;
    var v := RoundsVisits(c, now, s0, orgs, available);
    RunKeepsRotation(c, now, s0, v, key.0, key.1);
    LeftoversBlocked(c, now, s0, orgs, available);
    assert !HeadFree(c, now, t, key);
  }

  // ---- queues follow the candidate list -------------------------------------------------

  function QueueOf(s: State, ids: seq<nat>, key: Key): seq<Candidate>
    requires AllRows(s, ids)
  {
    if key in Grouped(s, ids) then Grouped(s, ids)[key] else []
  }

  /** Where a listed row stands in its queue: after exactly the rows of its queue
      that are listed before it. */
  lemma {:induction false} QueuePlace(s: State, ids: seq<nat>, i: nat)
    requires AllRows(s, ids) && i < |ids| && ids[i] in s.deliveries
    ensures var key := KeyOf(s, ids[i]);
            var before := QueueOf(s, ids[..i], key);
            && before + [CandidateOf(s, ids[i])] <= QueueOf(s, ids, key)
    decreases |ids|
  {
    var rest := ids[..|ids| - 1];
    if i < |rest| {
      assert rest[i] == ids[i] && rest[..i] == ids[..i];
      QueuePlace(s, rest, i);
    } else {
      assert rest == ids[..i];
    }
  }

  lemma {:induction false} QueueHas(s: State, ids: seq<nat>, i: nat) returns (a: nat)
    requires AllRows(s, ids) && i < |ids| && ids[i] in s.deliveries
    ensures var q := QueueOf(s, ids, KeyOf(s, ids[i])); a < |q| && q[a] == CandidateOf(s, ids[i])
  {
    QueuePlace(s, ids, i);
    a := |QueueOf(s, ids[..i], KeyOf(s, ids[i]))|;
  }

  /** No other row of the endpoint is listed before. */
  ghost predicate FirstListed(s: State, ids: seq<nat>, j: nat)
    requires j < |ids| && ids[j] in s.deliveries
  {
    forall i :: 0 <= i < j && ids[i] in s.deliveries ==> s.deliveries[ids[i]].endpoint != s.deliveries[ids[j]].endpoint
  }

  lemma FirstInQueue(s: State, ids: seq<nat>, j: nat)
    requires AllRows(s, ids) && j < |ids| && ids[j] in s.deliveries
    requires FirstListed(s, ids, j)
    ensures var q := QueueOf(s, ids, KeyOf(s, ids[j])); q != [] && q[0] == CandidateOf(s, ids[j])
  {
    var key, before := KeyOf(s, ids[j]), ids[..j];
    assert forall id :: id in before ==> id in ids;
    QueuePlace(s, ids, j);
    var q := QueueOf(s, before, key);
    if q != [] {
      assert q[0] in q;
      GroupedMember(s, before, key, q[0]);
    }
  }
}
