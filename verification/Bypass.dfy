/** Bounded bypass across scheduler calls: while an eligible organization waits,
    the persistent cursor moves cyclically toward it and no other organization
    is served twice. */
module Bypass {
  import opened Base
  import opened Types
  import opened Scheduler
  import opened Selection
  import opened Fairness

  /** `x` lies strictly between the cursor and `a`, going round upward. */
  predicate Between(cursor: Option<nat>, x: nat, a: nat) {
    if cursor.None? then x < a
    else if cursor.value < a then cursor.value < x < a
    else x > cursor.value || x < a
  }

  /** Every element lies between the cursor and `a`, each one nearer to `a`. */
  ghost predicate Climbs(cursor: Option<nat>, orgs: seq<nat>, a: nat) {
    && (forall i :: 0 <= i < |orgs| ==> Between(cursor, orgs[i], a))
    && (forall i, j :: 0 <= i < j < |orgs| ==> Between(Some(orgs[i]), orgs[j], a))
  }

  lemma ClimbsDistinct(cursor: Option<nat>, orgs: seq<nat>, a: nat)
    requires Climbs(cursor, orgs, a)
    ensures Distinct(orgs) && a !in orgs
  {
  }

  /** Climbing may pause at any of its elements and go on from there. */
  lemma ClimbsOn(cursor: Option<nat>, v: seq<nat>, w: seq<nat>, a: nat)
    requires Climbs(cursor, v, a)
    requires v == [] ==> Climbs(cursor, w, a)
    requires v != [] ==> Climbs(Some(v[|v| - 1]), w, a)
    ensures Climbs(cursor, v + w, a)
  {
  }

  lemma RotatedMembers(values: seq<nat>, cursor: Option<nat>)
    requires Ascending(values)
    ensures var order := Rotated(values, cursor);
            Distinct(order) && (forall x :: x in order <==> x in values)
  {
    if cursor.Some? {
      var k0 := FirstAbove(values, cursor.value, 0);
      assert values == values[..k0] + values[k0..];
    }
  }

  lemma PlainClimbs(values: seq<nat>, m: nat)
    requires Ascending(values) && m < |values|
    ensures Climbs(None, values[..m], values[m])
  {
  }

  lemma AheadClimbs(values: seq<nat>, v: nat, k0: nat, m: nat)
    requires Ascending(values) && k0 <= m < |values| && forall k :: k0 <= k < |values| ==> values[k] > v
    ensures Climbs(Some(v), values[k0..m], values[m])
  {
    var xs := values[k0..m];
    forall i | 0 <= i < |xs| ensures Between(Some(v), xs[i], values[m]) { assert xs[i] == values[k0 + i]; }
    forall i, j | 0 <= i < j < |xs| ensures Between(Some(xs[i]), xs[j], values[m]) {
      assert xs[i] == values[k0 + i] && xs[j] == values[k0 + j];
    }
  }

  /** Where a rotation puts the element at position `m`, and what precedes it. */
  lemma RotationAt(values: seq<nat>, k0: nat, m: nat)
    requires k0 <= |values| && m < |values|
    ensures var order := values[k0..] + values[..k0];
            if m >= k0 then order[m - k0] == values[m] && order[..m - k0] == values[k0..m]
            else order[m + |values| - k0] == values[m] && order[..m + |values| - k0] == values[k0..] + values[..m]
  {
  }

  /** In rotated order, what comes before `a` climbs from the cursor to `a`. */
  lemma RotatedClimbs(values: seq<nat>, cursor: Option<nat>, a: nat) returns (k: nat)
    requires Ascending(values) && a in values
    ensures var order := Rotated(values, cursor);
            k < |order| && order[k] == a && Climbs(cursor, order[..k], a)
  {
    var m :| 0 <= m < |values| && values[m] == a;
    if cursor.None? {
      k := m;
      PlainClimbs(values, m);
    } else {
      k := CursorClimbs(values, cursor.value, m);
    }
  }

  lemma CursorClimbs(values: seq<nat>, v: nat, m: nat) returns (k: nat)
    requires Ascending(values) && m < |values|
    ensures var order := Rotated(values, Some(v));
            k < |order| && order[k] == values[m] && Climbs(Some(v), order[..k], values[m])
  {
    var k0 := FirstAbove(values, v, 0);
    AboveFrom(values, v, k0);
    RotationAt(values, k0, m);
    k := if m >= k0 then m - k0 else m + |values| - k0;
    var before := if m >= k0 then values[k0..m] else values[k0..] + values[..m];
    assert Rotated(values, Some(v))[..k] == before;
    if m >= k0 { AheadClimbs(values, v, k0, m); } else { WrapClimbs(values, v, k0, m); }
  }

  lemma AboveFrom(values: seq<nat>, v: nat, k0: nat)
    requires Ascending(values) && k0 <= |values| && (k0 < |values| ==> values[k0] > v)
    ensures forall k :: k0 <= k < |values| ==> values[k] > v
  {
    forall k | k0 <= k < |values| ensures values[k] > v {
      if k > k0 { assert values[k0] < values[k]; }
    }
  }

  lemma WrapClimbs(values: seq<nat>, v: nat, k0: nat, m: nat)
    requires Ascending(values) && m < k0 <= |values|
    requires forall k :: 0 <= k < k0 ==> values[k] <= v
    requires forall k :: k0 <= k < |values| ==> values[k] > v
    ensures Climbs(Some(v), values[k0..] + values[..m], values[m])
  {
    AscendingClimbs(v, values[k0..], values[m]);
    if k0 == |values| {
      assert values[k0..] + values[..m] == values[..m];
      AscendingClimbs(v, values[..m], values[m]);
    } else {
      AscendingClimbs(values[|values| - 1], values[..m], values[m]);
      ClimbsOn(Some(v), values[k0..], values[..m], values[m]);
    }
  }

  lemma AscendingClimbs(v: nat, xs: seq<nat>, a: nat)
    requires Ascending(xs) && v >= a
    requires (forall x :: x in xs ==> x > v) || (forall x :: x in xs ==> x < a)
    ensures Climbs(Some(v), xs, a)
  {
    forall i | 0 <= i < |xs| ensures Between(Some(v), xs[i], a) {
      assert xs[i] in xs;
    }
    forall i, j | 0 <= i < j < |xs| ensures Between(Some(xs[i]), xs[j], a) {
      assert xs[i] in xs && xs[j] in xs;
    }
  }

  function OrgsOf(sel: seq<Candidate>): (r: seq<nat>)
    ensures |r| == |sel| && forall i :: 0 <= i < |sel| ==> r[i] == sel[i].org
  {
    seq(|sel|, i requires 0 <= i < |sel| => sel[i].org)
  }

  /** No endpoint of `a` is in another organization's deque. */
  ghost predicate Apart(s: Sched, orgs: seq<nat>, a: nat) {
    a in s.rotation &&
    forall o, ep :: o in orgs && o != a && o in s.rotation && ep in s.rotation[o] ==> ep !in s.rotation[a]
  }

  /** A visit elsewhere leaves the deques of `a` apart and its free head free. */
  lemma VisitElsewhere(c: Settings, now: real, s: Sched, org: nat, orgs: seq<nat>, a: nat)
    requires Ready(s, org) && s.rotation[org] != [] && org in orgs && org != a
    requires Apart(s, orgs, a) && Eligible(c, now, s, a)
    ensures var t := Visit(c, now, s, org).0; Apart(t, orgs, a) && Eligible(c, now, t, a)
  {
    var t := Visit(c, now, s, org).0;
    var ep :| ep in s.rotation[a] && HeadFree(c, now, s, (a, ep));
    assert s.rotation[org][0] in s.rotation[org];
    assert ep in t.rotation[a] && HeadFree(c, now, t, (a, ep));
    forall o, e | o in orgs && o != a && o in t.rotation && e in t.rotation[o] ensures e !in t.rotation[a] {
      assert e in s.rotation[o];
    }
  }

  lemma {:induction false} ScanElsewhere(c: Settings, now: real, s: Sched, org: nat, n: nat, orgs: seq<nat>, a: nat)
    requires Ready(s, org) && n <= |s.rotation[org]| && org in orgs && org != a
    requires Apart(s, orgs, a) && Eligible(c, now, s, a)
    ensures var t := Scan(c, now, s, org, n).0; Apart(t, orgs, a) && Eligible(c, now, t, a)
    decreases n
  {
    if n > 0 {
      var (t, took) := Visit(c, now, s, org);
      VisitElsewhere(c, now, s, org, orgs, a);
      if !took { ScanElsewhere(c, now, t, org, n - 1, orgs, a); }
    }
  }

  /** A pass that does not serve the eligible organization `a` fills up before
      reaching it, having served only organizations on the way. */
  lemma {:induction false} PassBypass(
    c: Settings, now: real, s: Sched, orgs: seq<nat>, available: nat, progress: bool,
    cursor: Option<nat>, a: nat, k: nat)
    requires Keyed(s) && AllReady(s, orgs) && Distinct(orgs) && |s.selected| < available
    requires k < |orgs| && orgs[k] == a && Climbs(cursor, orgs[..k], a)
    requires Apart(s, orgs, a) && Eligible(c, now, s, a)
    ensures var t := Pass(c, now, s, orgs, available, progress).0;
            || OrgPicks(t.selected, a) > OrgPicks(s.selected, a)
            || (&& |t.selected| >= available
                && s.selected <= t.selected
                && Climbs(cursor, OrgsOf(t.selected[|s.selected|..]), a))
    decreases |orgs|
  {
    var (t, took) := Turn(c, now, s, orgs[0]);
    ScanKeepsReady(c, now, s, orgs[0], |s.rotation[orgs[0]]|, orgs);
    TurnServes(c, now, s, orgs[0]);
    TurnCounts(c, now, s, orgs[0], a);
    var rest := orgs[1..];
    assert forall i :: 0 <= i < |rest| ==> rest[i] == orgs[i + 1];
    if k == 0 {
      PassCounts(c, now, t, rest, available, progress || took, a);
    } else {
      ScanElsewhere(c, now, s, orgs[0], |s.rotation[orgs[0]]|, orgs, a);
      ClimbsRest(cursor, orgs, a, k);
      var next := if took then Some(orgs[0]) else cursor;
      if |t.selected| < available {
        PassBypass(c, now, t, rest, available, progress || took, next, a, k - 1);
      }
      if took {
        var f := Pass(c, now, t, rest, available, progress || took).0;
        if t.selected <= f.selected && Climbs(next, OrgsOf(f.selected[|t.selected|..]), a) {
          ClimbsJoin(s.selected, t.selected, f.selected, cursor, a);
        }
      }
    }
  }

  lemma ClimbsJoin(s: seq<Candidate>, t: seq<Candidate>, f: seq<Candidate>, cursor: Option<nat>, a: nat)
    requires s <= t <= f && |t| == |s| + 1
    requires Climbs(cursor, [t[|s|].org], a) && Climbs(Some(t[|s|].org), OrgsOf(f[|t|..]), a)
    ensures Climbs(cursor, OrgsOf(f[|s|..]), a)
  {
    assert OrgsOf(f[|s|..]) == [t[|s|].org] + OrgsOf(f[|t|..]);
    ClimbsOn(cursor, [t[|s|].org], OrgsOf(f[|t|..]), a);
  }

  lemma ClimbsRest(cursor: Option<nat>, orgs: seq<nat>, a: nat, k: nat)
    requires 0 < k < |orgs| && Climbs(cursor, orgs[..k], a)
    ensures var rest := orgs[1..][..k - 1];
            && Climbs(cursor, [orgs[0]], a) && Climbs(cursor, rest, a) && Climbs(Some(orgs[0]), rest, a)
  {
    var rest := orgs[1..][..k - 1];
    assert orgs[..k][0] == orgs[0];
    assert forall i :: 0 <= i < k - 1 ==> rest[i] == orgs[..k][i + 1];
  }

  lemma {:induction false} RoundsGrow(c: Settings, now: real, s: Sched, orgs: seq<nat>, available: nat, a: nat)
    requires Keyed(s) && AllReady(s, orgs) && Distinct(orgs)
    ensures OrgPicks(s.selected, a) <= OrgPicks(Rounds(c, now, s, orgs, available).selected, a)
    decreases available - |s.selected|
  {
    if |s.selected| < available {
      var (t, progress) := Pass(c, now, s, orgs, available, false);
      PassKeepsReady(c, now, s, orgs, available, false, orgs);
      PassKeyed(c, now, s, orgs, available, false);
      PassCounts(c, now, s, orgs, available, false, a);
      if progress { RoundsGrow(c, now, t, orgs, available, a); }
    }
  }

  // ---- sequences of calls ---------------------------------------------------------

  /** One scheduler call: its time, its starting tables, the organizations with
      candidates in ascending order, and how many deliveries it may take. */
  datatype Call = Call(now: real, start: Sched, orgs: seq<nat>, available: nat)

  /** A call in which `a` has an unblocked candidate. */
  ghost predicate Waiting(c: Settings, call: Call, a: nat) {
    && Fresh(call.start) && Ascending(call.orgs) && AllReady(call.start, call.orgs)
    && a in call.orgs && call.available > 0
    && Apart(call.start, call.orgs, a) && Eligible(c, call.now, call.start, a)
  }

  lemma OrderReady(s: Sched, orgs: seq<nat>)
    requires AllReady(s, orgs)
    ensures AllReady(s, Rotated(orgs, s.cursor))
  {
  }

  function Outcome(c: Settings, call: Call): Sched
    requires AllReady(call.start, call.orgs)
  {
    OrderReady(call.start, call.orgs);
    Rounds(c, call.now, call.start, Rotated(call.orgs, call.start.cursor), call.available)
  }

  /** One call that passes over `a` serves someone, serves only organizations
      between the cursor and `a`, each nearer than the last, and leaves the
      cursor on the last one served. */
  lemma CallBypass(c: Settings, call: Call, a: nat)
    requires Waiting(c, call, a) && OrgPicks(Outcome(c, call).selected, a) == 0
    ensures var t := Outcome(c, call);
            && t.selected != []
            && Climbs(call.start.cursor, OrgsOf(t.selected), a)
            && t.cursor == Some(t.selected[|t.selected| - 1].org)
  {
    var s := call.start;
    var order := Rotated(call.orgs, s.cursor);
    OrderReady(s, call.orgs);
    RotatedMembers(call.orgs, s.cursor);
    var k := RotatedClimbs(call.orgs, s.cursor, a);
    assert Apart(s, order, a);
    CallAccounted(c, call.now, s, order, call.available);
    PassBypass(c, call.now, s, order, call.available, false, s.cursor, a, k);
    var (t, progress) := Pass(c, call.now, s, order, call.available, false);
    PassKeepsReady(c, call.now, s, order, call.available, false, order);
    PassKeyed(c, call.now, s, order, call.available, false);
    if progress { RoundsGrow(c, call.now, t, order, call.available, a); }
    assert t.selected[0..] == t.selected;
  }

  /** Each call starts from the cursor the one before it left. */
  ghost predicate Linked(c: Settings, calls: seq<Call>) {
    && (forall i :: 0 <= i < |calls| ==> AllReady(calls[i].start, calls[i].orgs))
    && (forall i :: 0 < i < |calls| ==> calls[i].start.cursor == Outcome(c, calls[i - 1]).cursor)
  }

  /** The organizations served by the calls, in order. */
  ghost function Served(c: Settings, calls: seq<Call>): seq<nat>
    requires forall i :: 0 <= i < |calls| ==> AllReady(calls[i].start, calls[i].orgs)
  {
    if calls == [] then [] else OrgsOf(Outcome(c, calls[0]).selected) + Served(c, calls[1..])
  }

  /** `a` waited in this call and was not served. */
  ghost predicate PassedOver(c: Settings, call: Call, a: nat) {
    Waiting(c, call, a) && OrgPicks(Outcome(c, call).selected, a) == 0
  }

  lemma {:induction false} ServedClimbs(c: Settings, calls: seq<Call>, a: nat)
    requires calls != [] && Linked(c, calls)
    requires forall i :: 0 <= i < |calls| ==> PassedOver(c, calls[i], a)
    ensures |Served(c, calls)| >= |calls|
    ensures Climbs(calls[0].start.cursor, Served(c, calls), a)
  {
    CallBypass(c, calls[0], a);
    var first := OrgsOf(Outcome(c, calls[0]).selected);
    if |calls| == 1 {
      assert Served(c, calls) == first;
    } else {
      ServedClimbs(c, calls[1..], a);
      ClimbsOn(calls[0].start.cursor, first, Served(c, calls[1..]), a);
    }
  }

  /** While `a` waits with an unblocked candidate in every call, no other
      organization is served twice, whatever else competes from call to call;
      every call serves someone nearer to `a`, and the cursor never passes it. */
  lemma NoDoubleService(c: Settings, calls: seq<Call>, a: nat)
    requires calls != [] && Linked(c, calls)
    requires forall i :: 0 <= i < |calls| ==> PassedOver(c, calls[i], a)
    ensures var served := Served(c, calls);
            && Distinct(served) && a !in served
            && |served| >= |calls|
            && Climbs(calls[0].start.cursor, served, a)
  {
    ServedClimbs(c, calls, a);
    ClimbsDistinct(calls[0].start.cursor, Served(c, calls), a);
  }

  /** If every organization ever served is among `known`, then `a` is served
      within as many calls as there are others among them, plus one. */
  lemma ServedWithin(c: Settings, calls: seq<Call>, a: nat, known: set<nat>)
    requires calls != [] && Linked(c, calls)
    requires forall i :: 0 <= i < |calls| ==> Waiting(c, calls[i], a)
    requires forall i, d :: 0 <= i < |calls| && d in Outcome(c, calls[i]).selected ==> d.org in known
    requires |calls| > |known - {a}|
    ensures exists i :: 0 <= i < |calls| && OrgPicks(Outcome(c, calls[i]).selected, a) > 0
  {
    if forall i :: 0 <= i < |calls| ==> OrgPicks(Outcome(c, calls[i]).selected, a) == 0 {
      NoDoubleService(c, calls, a);
      ServedKnown(c, calls, known);
      DistinctBound(Served(c, calls), known - {a});
    }
  }

  lemma {:induction false} ServedKnown(c: Settings, calls: seq<Call>, known: set<nat>)
    requires forall i :: 0 <= i < |calls| ==> AllReady(calls[i].start, calls[i].orgs)
    requires forall i, d :: 0 <= i < |calls| && d in Outcome(c, calls[i]).selected ==> d.org in known
    ensures forall o :: o in Served(c, calls) ==> o in known
  {
    if calls != [] {
      ServedKnown(c, calls[1..], known);
      var sel := Outcome(c, calls[0]).selected;
      forall o | o in OrgsOf(sel) ensures o in known {
        var i :| 0 <= i < |sel| && sel[i].org == o;
        assert sel[i] in sel;
      }
    }
  }
}
