/** What a claim does to the rows: which deliveries it leases, with which
    tokens, and within which limits. */
module Claims {
  import opened Base
  import opened Types
  import opened Scheduler
  import opened Selection
  import opened Platform

  // ---- the queues a claim starts from ----------------------------------------------

  lemma {:induction false} GroupedDistinct(s: State, ids: seq<nat>, k: Key)
    requires AllRows(s, ids) && Distinct(ids) && k in Grouped(s, ids)
    ensures Distinct(Grouped(s, ids)[k])
  {
    var rest := ids[..|ids| - 1];
    var last := ids[|ids| - 1];
    assert ids == rest + [last];
    if k in Grouped(s, rest) {
      GroupedDistinct(s, rest, k);
      var q := Grouped(s, rest)[k];
      forall i | 0 <= i < |q| ensures q[i] != CandidateOf(s, last) {
        assert q[i] in q;
        GroupedMember(s, rest, k, q[i]);
      }
    }
  }

  lemma StartFresh(c: Settings, s: State, ids: seq<nat>)
    requires ValidSettings(c) && AllRows(s, ids) && Distinct(ids)
    ensures Fresh(StartOf(c, s, ids))
  {
    var q := Grouped(s, ids);
    forall k: Key, d: Candidate | k in q && d in q[k] ensures (d.org, d.endpoint) == k {
      GroupedMember(s, ids, k, d);
    }
    forall k | k in q ensures Distinct(q[k]) {
      GroupedDistinct(s, ids, k);
    }
  }

  // ---- the selected rows -------------------------------------------------------------

  /** Distinct due candidates, as they stand in the table. */
  ghost predicate SelectedRows(s: State, ids: seq<nat>, sel: seq<Candidate>) {
    && (forall d :: d in sel ==> d.id in ids && d.id in s.deliveries && d == CandidateOf(s, d.id))
    && (forall i, j :: 0 <= i < j < |sel| ==> sel[i].id != sel[j].id)
  }

  lemma ChosenRows(c: Settings, s: State, limit: nat, ids: seq<nat>)
    requires ValidSettings(c) && AllRows(s, ids) && Distinct(ids) && FreeSlots(c, s, limit) > 0
    ensures SelectedRows(s, ids, Chosen(c, s, limit, ids).selected)
  {
    var start := StartOf(c, s, ids);
    var t := Chosen(c, s, limit, ids);
    ChosenSplit(c, s, limit, ids);
    SelectionRows(s, ids, t.queues, t.selected);
  }

  lemma ChosenSplit(c: Settings, s: State, limit: nat, ids: seq<nat>)
    requires ValidSettings(c) && AllRows(s, ids) && Distinct(ids) && FreeSlots(c, s, limit) > 0
    ensures var t := Chosen(c, s, limit, ids);
            QueuesSplit(Grouped(s, ids), t.queues, t.selected) && Distinct(t.selected)
  {
    StartReady(c, s, ids);
    StartFresh(c, s, ids);
    CallAccounted(c, s.now, StartOf(c, s, ids), Rotated(Sorted(OrgIds(s, ids)), s.cursor), FreeSlots(c, s, limit));
  }

  lemma SelectionRows(s: State, ids: seq<nat>, q: Queues, sel: seq<Candidate>)
    requires AllRows(s, ids) && QueuesSplit(Grouped(s, ids), q, sel) && Distinct(sel)
    ensures SelectedRows(s, ids, sel)
  {
    forall d | d in sel ensures d.id in ids && d == CandidateOf(s, d.id) {
      var k: Key := (d.org, d.endpoint);
      PickCounted(sel, d);
      assert d in Grouped(s, ids)[k];
      GroupedMember(s, ids, k, d);
    }
    forall i, j | 0 <= i < j < |sel| ensures sel[i].id != sel[j].id {
      assert sel[i] in sel && sel[j] in sel;
    }
  }

  lemma ChosenWithin(c: Settings, s: State, limit: nat, ids: seq<nat>)
    requires ValidSettings(c) && AllRows(s, ids) && Distinct(ids) && FreeSlots(c, s, limit) > 0
    ensures var start := StartOf(c, s, ids);
            var t := Chosen(c, s, limit, ids);
            && |t.selected| <= FreeSlots(c, s, limit)
            && OrgsWithin(c, start.orgCount, t.orgCount, t.selected)
            && EndpointsWithin(c, s.now, start.runtime, start.endpointCount, t.runtime, t.endpointCount, t.selected)
            && CursorsMoved(start.tenants, start.cursor, t.tenants, t.cursor, t.selected)
  {
    StartReady(c, s, ids);
    StartFresh(c, s, ids);
    CallAccounted(c, s.now, StartOf(c, s, ids), Rotated(Sorted(OrgIds(s, ids)), s.cursor), FreeSlots(c, s, limit));
  }

  lemma ChosenEndpoints(c: Settings, s: State, limit: nat, ids: seq<nat>)
    requires ValidSettings(c) && AllRows(s, ids) && Distinct(ids) && FreeSlots(c, s, limit) > 0
    ensures Chosen(c, s, limit, ids).runtime.Keys == s.runtime.Keys + EndpointIds(s, ids)
  {
    ChosenWithin(c, s, limit, ids);
    var r := StartOf(c, s, ids).runtime;
    assert r.Keys == s.runtime.Keys + EndpointIds(s, ids);
  }

  // ---- the leased rows and the issued claims ---------------------------------------------

  /** The position at which a row was selected. */
  ghost predicate SelectedAt(sel: seq<Candidate>, i: nat, id: nat) { i < |sel| && sel[i].id == id }

  /** Each selected row is leased once with its own token; others are untouched. */
  lemma {:induction false} ClaimedRowsAt(c: Settings, s: State, ids: seq<nat>, sel: seq<Candidate>, n: nat, id: nat)
    requires SelectedRows(s, ids, sel) && n <= |sel| && id in s.deliveries
    ensures var ds := ClaimedRows(c, s, sel, n);
            && (forall i :: 0 <= i < n && SelectedAt(sel, i, id) ==>
                  ds[id] == ClaimedRow(c, s.deliveries[id], s.now, s.nextToken + i))
            && ((forall i :: 0 <= i < n ==> !SelectedAt(sel, i, id)) ==> ds[id] == s.deliveries[id])
  {
    if n > 0 {
      ClaimedRowsAt(c, s, ids, sel, n - 1, id);
      assert sel[n - 1].id == id <==> SelectedAt(sel, n - 1, id);
    }
  }

  lemma {:induction false} IssuedAfterAt(s: State, sel: seq<Candidate>, n: nat)
    requires AllCanSend(s, sel) && n <= |sel|
    requires forall t :: t in s.issued ==> t < s.nextToken
    ensures var m := IssuedAfter(s, sel, n);
            && (forall t :: t in m <==> t in s.issued || s.nextToken <= t < s.nextToken + n)
            && (forall t :: t in s.issued ==> m[t] == s.issued[t])
            && (forall i {:trigger sel[i]} :: 0 <= i < n ==>
                  CanSend(s, sel[i].id) && m[s.nextToken + i] == ClaimOf(s, sel[i].id, s.nextToken + i))
  {
    if n > 0 {
      IssuedAfterAt(s, sel, n - 1);
      assert sel[n - 1] in sel;
    }
  }
}
