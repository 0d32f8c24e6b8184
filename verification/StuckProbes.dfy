/** When a half-open endpoint makes no progress. Only the recorded probe may be
    taken, and only from the head of its queue; release sends a probe behind
    work that was due before. */
module StuckProbes {
  import opened Base
  import opened Types
  import opened Scheduler
  import opened Selection
  import opened Platform
  import opened Admission
  import opened Machine
  import opened Claims
  import opened Rows
  import opened LeaseSafety
  import opened Integrity
  import opened Capacity
  import opened Endpoints
  import opened CircuitBreaker
  import opened QueueHeads
  import opened FirstAttempts
  import opened HeadsTaken
  import Candidates

  // ---- one claim ----------------------------------------------------------------------

  /** If `p` is listed, `w` is listed before it. */
  ghost predicate ListedBehind(ids: seq<nat>, w: nat, p: nat) {
    p in ids ==> exists i, j :: 0 <= i < j < |ids| && ids[i] == w && ids[j] == p
  }

  /** The candidate query lists due work of an endpoint in order. */
  lemma QueryListsBehind(s: State, scanLimit: nat, perTenant: nat, w: nat, p: nat)
    requires w in Candidates.DueIds(s) && p in s.deliveries
    requires Candidates.SameQueue(s, w, p) && Candidates.Sooner(s, w, p)
    ensures ListedBehind(Candidates.FairCandidateIds(s, scanLimit, perTenant), w, p)
  {
    if p in Candidates.FairCandidateIds(s, scanLimit, perTenant) {
      Candidates.OldestFirst(s, scanLimit, perTenant, w, p);
    }
  }

  /** A row listed before another of its queue is taken whenever the other is. */
  lemma TakenInOrder(c: Settings, s: State, limit: nat, ids: seq<nat>, i: nat, j: nat)
    requires ValidSettings(c) && CanWork(c, s, ClaimWork(limit, ids)) && FreeSlots(c, s, limit) > 0
    requires i < j < |ids| && ids[i] in s.deliveries && ids[j] in s.deliveries && KeyOf(s, ids[i]) == KeyOf(s, ids[j])
    requires CandidateOf(s, ids[j]) in Chosen(c, s, limit, ids).selected
    ensures CandidateOf(s, ids[i]) in Chosen(c, s, limit, ids).selected
  {
    var t, key := Chosen(c, s, limit, ids), KeyOf(s, ids[j]);
    ChosenSplit(c, s, limit, ids);
    StartFresh(c, s, ids);
    assert ids[j] in ids;
    GroupedKeys(s, ids, ids[j]);
    var a, b := QueueOrder(s, ids, i, j);
    PrefixTaken(Grouped(s, ids), t.queues, t.selected, key, b);
    PrefixTaken(Grouped(s, ids), t.queues, t.selected, key, a);
  }

  lemma QueueOrder(s: State, ids: seq<nat>, i: nat, j: nat) returns (a: nat, b: nat)
    requires AllRows(s, ids) && i < j < |ids| && ids[i] in s.deliveries && ids[j] in s.deliveries
    requires KeyOf(s, ids[i]) == KeyOf(s, ids[j])
    ensures var q := QueueOf(s, ids, KeyOf(s, ids[j]));
            a < b < |q| && q[a] == CandidateOf(s, ids[i]) && q[b] == CandidateOf(s, ids[j])
  {
    var before := ids[..j];
    assert forall id :: id in before ==> id in ids;
    assert before[i] == ids[i];
    a := QueueHas(s, before, i);
    QueuePlace(s, ids, j);
    b := |QueueOf(s, before, KeyOf(s, ids[j]))|;
  }

  lemma SameEndpointSameQueue(s: State, a: nat, b: nat)
    requires Refs(s) && a in s.deliveries && b in s.deliveries && s.deliveries[a].endpoint == s.deliveries[b].endpoint
    ensures KeyOf(s, a) == KeyOf(s, b)
  {
    assert RowRefs(s.projects, s.endpoints, s.events, s.deliveries[a]);
    assert RowRefs(s.projects, s.endpoints, s.events, s.deliveries[b]);
  }

  /** Behind other work of its endpoint the probe is not taken, and nothing else
      is. */
  lemma NothingPassesProbe(c: Settings, s: State, step: Step, ep: nat, p: nat, w: nat)
    requires ValidSettings(c) && Enabled(c, s, step) && IsClaim(step) && Refs(s) && Probing(s, ep, p)
    requires w in s.deliveries && s.deliveries[w].endpoint == ep && w != p
    requires ListedBehind(step.work.candidates, w, p)
    ensures forall d :: d in Leased(c, s, step) ==> d.endpoint != ep
  {
    var limit, ids := step.work.limit, step.work.candidates;
    forall d | d in Leased(c, s, step) ensures d.endpoint != ep {
      if d.endpoint == ep {
        ClaimNeedsClosedCircuit(c, s, step, d);
        ChosenRows(c, s, limit, ids);
        var i, j :| 0 <= i < j < |ids| && ids[i] == w && ids[j] == p;
        SameEndpointSameQueue(s, w, p);
        TakenInOrder(c, s, limit, ids, i, j);
        ClaimNeedsClosedCircuit(c, s, step, CandidateOf(s, w));
      }
    }
  }

  /** With slots and organization room for all candidates, the probe of a
      half-open endpoint is taken exactly when no other work of the endpoint is
      listed before it, the endpoint is not paused, and its concurrency and
      tokens allow it. */
  lemma ProbeServedIff(c: Settings, s: State, limit: nat, ids: seq<nat>, j: nat)
    requires ValidSettings(c) && CanWork(c, s, ClaimWork(limit, ids)) && Refs(s)
    requires j < |ids| && ids[j] in s.deliveries && SlotsForAll(c, s, limit, ids, s.deliveries[ids[j]].org)
    requires Probing(s, s.deliveries[ids[j]].endpoint, ids[j])
    ensures var ep := s.deliveries[ids[j]].endpoint;
            CandidateOf(s, ids[j]) in Chosen(c, s, limit, ids).selected <==>
              && FirstListed(s, ids, j) && s.runtime[ep].pausedAt.None?
              && !NoRoom(c, Refilled(c, s.runtime[ep], s.now), |LiveOfEndpoint(s, ep)|, CandidateOf(s, ids[j]))
  {
    var ep := s.deliveries[ids[j]].endpoint;
    if !FirstListed(s, ids, j) {
      var i :| 0 <= i < j && ids[i] in s.deliveries && s.deliveries[ids[i]].endpoint == ep;
      ProbeNotPassed(c, s, limit, ids, i, j);
    } else {
      FirstListedFreeIff(c, s, limit, ids, j);
      RefillKeepsCircuit(c, s.runtime[ep], s.now);
    }
  }

  lemma ProbeNotPassed(c: Settings, s: State, limit: nat, ids: seq<nat>, i: nat, j: nat)
    requires ValidSettings(c) && CanWork(c, s, ClaimWork(limit, ids)) && Refs(s) && FreeSlots(c, s, limit) > 0
    requires i < j < |ids| && ids[i] in s.deliveries && ids[j] in s.deliveries
    requires s.deliveries[ids[i]].endpoint == s.deliveries[ids[j]].endpoint
    requires Probing(s, s.deliveries[ids[j]].endpoint, ids[j])
    ensures CandidateOf(s, ids[j]) !in Chosen(c, s, limit, ids).selected
  {
    if CandidateOf(s, ids[j]) in Chosen(c, s, limit, ids).selected {
      SameEndpointSameQueue(s, ids[i], ids[j]);
      TakenInOrder(c, s, limit, ids, i, j);
      OnlyProbeTaken(c, s, limit, ids, CandidateOf(s, ids[i]), ids[j]);
    }
  }

  lemma OnlyProbeTaken(c: Settings, s: State, limit: nat, ids: seq<nat>, d: Candidate, p: nat)
    requires ValidSettings(c) && CanWork(c, s, ClaimWork(limit, ids)) && Refs(s) && FreeSlots(c, s, limit) > 0
    requires d in Chosen(c, s, limit, ids).selected && Probing(s, d.endpoint, p)
    ensures d.id == p
  {
    var t := Chosen(c, s, limit, ids);
    ChosenChange(c, s, limit, ids, d.endpoint);
    PickAllowed(c, s.now, s.runtime[d.endpoint], t.runtime[d.endpoint], t.selected, d);
  }

  lemma RefillKeepsCircuit(c: Settings, e: Runtime, now: real)
    requires ValidSettings(c)
    ensures var r := Refilled(c, e, now); r.circuit == e.circuit && r.probe == e.probe && r.pausedAt == e.pausedAt
  {
  }

  lemma RefilledWhenRecovered(c: Settings, e: Runtime, now: real)
    requires ValidSettings(c)
    ensures var r := Refilled(c, Recovered(c, e, now), now);
            && r.circuit.Closed? && r.pausedAt == e.pausedAt && r.retryTokens == c.retryBurst as real
            && r.deliveryTokens == Refilled(c, e, now).deliveryTokens
  {
  }

  lemma RecoveryKeepsRefs(c: Settings, s: State, ep: nat)
    requires Refs(s) && ep in s.runtime
    ensures Refs(Recover(c, s, ep))
  {
    UpdateKeys(s.runtime, ep, Recovered(c, s.runtime[ep], s.now));
  }

  /** After recovery the first listed delivery of the endpoint is taken, probe or
      not and retry or not, exactly when the endpoint is not paused and its
      concurrency and delivery tokens allow it. */
  lemma RecoveryServes(c: Settings, s: State, limit: nat, ids: seq<nat>, j: nat)
    requires ValidSettings(c) && CanWork(c, s, ClaimWork(limit, ids)) && Refs(s)
    requires j < |ids| && ids[j] in s.deliveries && FirstListed(s, ids, j)
    requires SlotsForAll(c, s, limit, ids, s.deliveries[ids[j]].org)
    ensures var ep := s.deliveries[ids[j]].endpoint;
            var t := Recover(c, s, ep);
            && ep in s.runtime && CanWork(c, t, ClaimWork(limit, ids)) && FreeSlots(c, t, limit) > 0
            && (CandidateOf(t, ids[j]) in Chosen(c, t, limit, ids).selected <==>
                  && s.runtime[ep].pausedAt.None? && |LiveOfEndpoint(s, ep)| < c.endpointConcurrency
                  && Refilled(c, s.runtime[ep], s.now).deliveryTokens >= 1.0)
  {
    var ep := s.deliveries[ids[j]].endpoint;
    KnownEndpoint(s, ids[j]);
    var t := Recover(c, s, ep);
    RecoveryKeepsRefs(c, s, ep);
    SameCounts(s, t, s.deliveries[ids[j]].org, ep);
    RefilledWhenRecovered(c, s.runtime[ep], s.now);
    FirstListedFreeIff(c, t, limit, ids, j);
  }

  lemma SameCounts(s: State, t: State, org: nat, ep: nat)
    requires t.deliveries == s.deliveries && t.now == s.now
    ensures LiveIds(t) == LiveIds(s) && LiveOfOrg(t, org) == LiveOfOrg(s, org)
    ensures LiveOfEndpoint(t, ep) == LiveOfEndpoint(s, ep)
  {
  }

  // ---- whole runs ------------------------------------------------------------------------

  /** The endpoint is half-open, its probe `p` is queued behind due work `w` of
      the same endpoint, and no attempt on the endpoint is in flight. */
  ghost predicate Stuck(s: State, ep: nat, p: nat, w: nat) {
    && Probing(s, ep, p) && p != w && p in s.deliveries && w in s.deliveries
    && s.deliveries[p].endpoint == ep && s.deliveries[w].endpoint == ep
    && Queued(s.deliveries[p].status) && Queued(s.deliveries[w].status)
    && s.deliveries[w].nextAttemptAt <= s.now && Candidates.Sooner(s, w, p)
    && LiveOfEndpoint(s, ep) == {}
  }

  /** The step cancels neither row, does not recover the endpoint, and a claim
      lists the rows in the order of the candidate query. */
  ghost predicate LeavesStuck(c: Settings, s: State, step: Step, ep: nat, p: nat, w: nat)
    requires ValidSettings(c) && Enabled(c, s, step)
  {
    var ds := Apply(c, s, step).deliveries;
    && !Recovers(step, ep)
    && (p in ds ==> !ds[p].status.Canceled?) && (w in ds ==> !ds[w].status.Canceled?)
    && (IsClaim(step) ==> ListedBehind(step.work.candidates, w, p))
  }

  lemma UnleasedRow(c: Settings, s: State, step: Step, id: nat)
    requires ValidSettings(c) && Enabled(c, s, step) && IsClaim(step) && id in s.deliveries
    requires forall d :: d in Leased(c, s, step) ==> d.id != id
    ensures id in Apply(c, s, step).deliveries && Apply(c, s, step).deliveries[id] == s.deliveries[id]
  {
    var limit, ids := step.work.limit, step.work.candidates;
    if ClaimCommits(c, s, limit, ids) {
      var sel := Chosen(c, s, limit, ids).selected;
      ChosenRows(c, s, limit, ids);
      ClaimedRowsAt(c, s, ids, sel, |sel|, id);
      forall i | 0 <= i < |sel| ensures !SelectedAt(sel, i, id) { assert sel[i] in sel; }
    }
  }

  predicate KeepsPlace(d: Delivery, e: Delivery) {
    e.endpoint == d.endpoint && Queued(e.status) && e.nextAttemptAt == d.nextAttemptAt
  }

  /** A queued row that is neither leased nor canceled keeps its place. */
  lemma QueuedRowStays(c: Settings, s: State, step: Step, id: nat)
    requires ValidSettings(c) && Enabled(c, s, step) && IdsBelow(s.deliveries, s.nextId)
    requires id in s.deliveries && Queued(s.deliveries[id].status)
    requires forall d :: d in Leased(c, s, step) ==> d.id != id
    requires id in Apply(c, s, step).deliveries ==> !Apply(c, s, step).deliveries[id].status.Canceled?
    ensures id in Apply(c, s, step).deliveries
    ensures KeepsPlace(s.deliveries[id], Apply(c, s, step).deliveries[id])
  {
    if IsClaim(step) {
      UnleasedRow(c, s, step, id);
    } else {
      StepRows(c, s, step);
      QueuedMoves(c, s, Apply(c, s, step), id);
    }
  }

  lemma QueuedMoves(c: Settings, s: State, t: State, id: nat)
    requires Steps(c, s, t, false) && id in s.deliveries && Queued(s.deliveries[id].status)
    requires id in t.deliveries ==> !t.deliveries[id].status.Canceled?
    ensures id in t.deliveries && KeepsPlace(s.deliveries[id], t.deliveries[id])
  {
    assert id in t.deliveries ==> Moves(c, s.now, s.deliveries[id], t.deliveries[id], false);
  }

  lemma StillNoneLive(c: Settings, s: State, step: Step, ep: nat)
    requires ValidSettings(c) && Enabled(c, s, step) && IdsBelow(s.deliveries, s.nextId) && LiveOfEndpoint(s, ep) == {}
    requires forall d :: d in Leased(c, s, step) ==> d.endpoint != ep
    ensures LiveOfEndpoint(Apply(c, s, step), ep) == {}
  {
    if IsClaim(step) {
      ClaimNoneLive(c, s, step, ep);
    } else {
      StepRows(c, s, step);
      TimeMoves(c, s, step);
      QuietStepNoLeases(c, s, Apply(c, s, step));
      NoneLiveStays(s, Apply(c, s, step), ep);
    }
  }

  lemma NoneLiveStays(s: State, t: State, ep: nat)
    requires NoNewLeases(s, t) && LiveOfEndpoint(s, ep) == {}
    ensures LiveOfEndpoint(t, ep) == {}
  {
    forall id | id in LiveOfEndpoint(t, ep) ensures id in LiveOfEndpoint(s, ep) {}
  }

  lemma ClaimNoneLive(c: Settings, s: State, step: Step, ep: nat)
    requires ValidSettings(c) && Enabled(c, s, step) && IsClaim(step) && LiveOfEndpoint(s, ep) == {}
    requires forall d :: d in Leased(c, s, step) ==> d.endpoint != ep
    ensures LiveOfEndpoint(Apply(c, s, step), ep) == {}
  {
    var limit, ids := step.work.limit, step.work.candidates;
    if ClaimCommits(c, s, limit, ids) {
      var t := Chosen(c, s, limit, ids);
      ChosenRows(c, s, limit, ids);
      LeaseNoneLive(c, s, ids, t, ep);
    }
  }

  lemma LeaseNoneLive(c: Settings, s: State, ids: seq<nat>, t: Sched, ep: nat)
    requires AllRows(s, ids) && AllCanSend(s, t.selected) && SelectedRows(s, ids, t.selected)
    requires LiveOfEndpoint(s, ep) == {} && forall d :: d in t.selected ==> d.endpoint != ep
    ensures LiveOfEndpoint(Lease(c, s, t), ep) == {}
  {
    forall id | id in LiveOfEndpoint(Lease(c, s, t), ep) ensures id in LiveOfEndpoint(s, ep) {
      LiveAfterClaim(c, s, ids, t, id);
    }
  }

  lemma NothingLeased(c: Settings, s: State, step: Step, ep: nat, p: nat, w: nat)
    requires ValidSettings(c) && Enabled(c, s, step) && Refs(s) && Stuck(s, ep, p, w)
    requires LeavesStuck(c, s, step, ep, p, w)
    ensures forall d :: d in Leased(c, s, step) ==> d.endpoint != ep && d.id != p && d.id != w
  {
    if IsClaim(step) {
      NothingPassesProbe(c, s, step, ep, p, w);
      forall d | d in Leased(c, s, step) ensures d.id != p && d.id != w { LeasedEndpoint(c, s, step, d); }
    }
  }

  lemma FinishedWasLive(s: State, step: Step, ep: nat)
    requires Finalizes(s, step, ep)
    ensures LiveOfEndpoint(s, ep) != {}
  {
    assert s.issued[step.work.token].id in LiveOfEndpoint(s, ep);
  }

  lemma CanceledNow(c: Settings, s: State, step: Step, p: nat)
    requires ValidSettings(c) && Enabled(c, s, step) && Cancels(s, step, p)
    ensures p in Apply(c, s, step).deliveries && Apply(c, s, step).deliveries[p].status.Canceled?
  {
  }

  lemma EndpointStays(c: Settings, s: State, step: Step, p: nat)
    requires ValidSettings(c) && Enabled(c, s, step) && Leases(c, s) && Refs(s) && p in Apply(c, s, step).deliveries
    ensures Apply(c, s, step).deliveries[p].endpoint in Apply(c, s, step).runtime
  {
    StepKeepsRefs(c, s, step);
    KnownEndpoint(Apply(c, s, step), p);
  }

  lemma KnownEndpoint(s: State, p: nat)
    requires Refs(s) && p in s.deliveries
    ensures s.deliveries[p].endpoint in s.runtime
  {
    assert RowRefs(s.projects, s.endpoints, s.events, s.deliveries[p]);
  }

  lemma StuckIsUndisturbed(c: Settings, s: State, step: Step, ep: nat, p: nat, w: nat)
    requires ValidSettings(c) && Enabled(c, s, step) && Leases(c, s) && Refs(s) && Stuck(s, ep, p, w)
    requires LeavesStuck(c, s, step, ep, p, w) && p in Apply(c, s, step).deliveries
    requires Apply(c, s, step).deliveries[p].endpoint == ep
    ensures Undisturbed(c, s, step, ep, p)
  {
    EndpointStays(c, s, step, p);
    if Finalizes(s, step, ep) { FinishedWasLive(s, step, ep); }
    if Cancels(s, step, p) { CanceledNow(c, s, step, p); }
  }

  lemma StuckAgain(s: State, t: State, ep: nat, p: nat, w: nat)
    requires Stuck(s, ep, p, w) && Probing(t, ep, p) && LiveOfEndpoint(t, ep) == {} && s.now <= t.now
    requires p in t.deliveries && KeepsPlace(s.deliveries[p], t.deliveries[p])
    requires w in t.deliveries && KeepsPlace(s.deliveries[w], t.deliveries[w])
    ensures Stuck(t, ep, p, w)
  {
  }

  lemma StepStaysStuck(c: Settings, s: State, step: Step, ep: nat, p: nat, w: nat)
    requires ValidSettings(c) && Enabled(c, s, step) && Leases(c, s) && Refs(s) && Stuck(s, ep, p, w)
    requires LeavesStuck(c, s, step, ep, p, w)
    ensures Stuck(Apply(c, s, step), ep, p, w)
  {
    NothingLeased(c, s, step, ep, p, w);
    QueuedRowStays(c, s, step, p);
    QueuedRowStays(c, s, step, w);
    StuckIsUndisturbed(c, s, step, ep, p, w);
    ProbeStays(c, s, step, ep, p);
    StillNoneLive(c, s, step, ep);
    TimeMoves(c, s, step);
    StuckAgain(s, Apply(c, s, step), ep, p, w);
  }

  ghost predicate RunLeavesStuck(c: Settings, s: State, steps: seq<Step>, ep: nat, p: nat, w: nat)
    requires ValidSettings(c) && IsRun(c, s, steps)
    decreases |steps|
  {
    steps == [] ||
    (LeavesStuck(c, s, steps[0], ep, p, w) && RunLeavesStuck(c, Apply(c, s, steps[0]), steps[1..], ep, p, w))
  }

  /** A half-open endpoint whose probe is queued behind older due work leases
      nothing, however long the run, until one of the two rows is canceled or an
      operator recovers the circuit. */
  lemma {:induction false} StuckForever(c: Settings, s: State, steps: seq<Step>, ep: nat, p: nat, w: nat)
    requires ValidSettings(c) && IsRun(c, s, steps) && Leases(c, s) && Refs(s)
    requires Stuck(s, ep, p, w) && RunLeavesStuck(c, s, steps, ep, p, w)
    ensures LeasedOn(c, s, steps, ep) == [] && Stuck(After(c, s, steps), ep, p, w)
    decreases |steps|
  {
    if steps != [] {
      NothingLeased(c, s, steps[0], ep, p, w);
      NoneOnEndpoint(Leased(c, s, steps[0]), ep);
      StepStaysStuck(c, s, steps[0], ep, p, w);
      StepKeepsLeases(c, s, steps[0]);
      StepKeepsRefs(c, s, steps[0]);
      StuckForever(c, Apply(c, s, steps[0]), steps[1..], ep, p, w);
    }
  }

  /** Releasing the probe leads there exactly when other work of the endpoint was
      due before now, or now with a smaller id. */
  lemma ReleaseSticks(s: State, k: Claim, w: nat)
    requires Holds(s, k) && Probing(s, s.deliveries[k.id].endpoint, k.id)
    requires LiveOfEndpoint(s, s.deliveries[k.id].endpoint) <= {k.id}
    requires w in s.deliveries && w != k.id && s.deliveries[w].endpoint == s.deliveries[k.id].endpoint
    requires Queued(s.deliveries[w].status)
    ensures Stuck(Release(s, k), s.deliveries[k.id].endpoint, k.id, w) <==>
              || s.deliveries[w].nextAttemptAt < s.now
              || (s.deliveries[w].nextAttemptAt == s.now && w < k.id)
  {
    var t, ep := Release(s, k), s.deliveries[k.id].endpoint;
    forall id | id in LiveOfEndpoint(t, ep) ensures id in LiveOfEndpoint(s, ep) {}
    assert LiveOfEndpoint(t, ep) == {};
  }
}
