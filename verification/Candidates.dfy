/** The candidate query of the scheduler, `fair_candidate_ids` in
    `app/scheduling.py`: due rows ranked within their endpoint, then within
    their organization, then listed by rank up to two limits. */
module Candidates {
  import opened Base
  import opened Types
  import opened Platform

  // ---- the three orders -----------------------------------------------------------------

  function DueIds(s: State): set<nat> {
    set id | id in s.deliveries && Due(s.deliveries[id], s.now)
  }

  /** By next attempt time, then id. */
  predicate Sooner(s: State, a: nat, b: nat)
    requires a in s.deliveries && b in s.deliveries
  {
    || s.deliveries[a].nextAttemptAt < s.deliveries[b].nextAttemptAt
    || (s.deliveries[a].nextAttemptAt == s.deliveries[b].nextAttemptAt && a < b)
  }

  predicate SameQueue(s: State, a: nat, b: nat)
    requires a in s.deliveries && b in s.deliveries
  {
    s.deliveries[a].org == s.deliveries[b].org && s.deliveries[a].endpoint == s.deliveries[b].endpoint
  }

  function AheadInQueue(s: State, id: nat): set<nat>
    requires id in s.deliveries
  {
    set x | x in DueIds(s) && SameQueue(s, x, id) && Sooner(s, x, id)
  }

  function EndpointRank(s: State, id: nat): nat
    requires id in s.deliveries
  {
    1 + |AheadInQueue(s, id)|
  }

  /** Within an organization: by endpoint rank, then time, then id. */
  predicate TenantFirst(s: State, a: nat, b: nat)
    requires a in s.deliveries && b in s.deliveries
  {
    || EndpointRank(s, a) < EndpointRank(s, b)
    || (EndpointRank(s, a) == EndpointRank(s, b) && Sooner(s, a, b))
  }

  function AheadInOrg(s: State, id: nat): set<nat>
    requires id in s.deliveries
  {
    set x | x in DueIds(s) && s.deliveries[x].org == s.deliveries[id].org && TenantFirst(s, x, id)
  }

  function TenantRank(s: State, id: nat): nat
    requires id in s.deliveries
  {
    1 + |AheadInOrg(s, id)|
  }

  /** Across organizations: by tenant rank, then time, then id. */
  predicate ListedFirst(s: State, a: nat, b: nat)
    requires a in s.deliveries && b in s.deliveries
  {
    || TenantRank(s, a) < TenantRank(s, b)
    || (TenantRank(s, a) == TenantRank(s, b) && Sooner(s, a, b))
  }

  // ---- ranks follow the order --------------------------------------------------------------

  lemma EndpointRankOrders(s: State, a: nat, b: nat)
    requires a in DueIds(s) && b in DueIds(s) && SameQueue(s, a, b) && Sooner(s, a, b)
    ensures EndpointRank(s, a) < EndpointRank(s, b)
  {
    assert a in AheadInQueue(s, b) && a !in AheadInQueue(s, a);
    SubsetCardinality(AheadInQueue(s, a), AheadInQueue(s, b) - {a});
  }

  lemma TenantRankOrders(s: State, a: nat, b: nat)
    requires a in DueIds(s) && b in DueIds(s)
    requires s.deliveries[a].org == s.deliveries[b].org && TenantFirst(s, a, b)
    ensures TenantRank(s, a) < TenantRank(s, b)
  {
    assert a in AheadInOrg(s, b) && a !in AheadInOrg(s, a);
    SubsetCardinality(AheadInOrg(s, a), AheadInOrg(s, b) - {a});
  }

  // ---- sorting by a strict order -----------------------------------------------------------------

  type Order = (nat, nat) -> bool

  ghost predicate Strict(less: Order) {
    && (forall a, b :: a != b ==> less(a, b) || less(b, a))
    && (forall a, b :: !(less(a, b) && less(b, a)))
    && (forall a, b, c :: less(a, b) && less(b, c) ==> less(a, c))
  }

  ghost predicate Heads(less: Order, ids: set<nat>, m: nat) {
    m in ids && forall x :: x in ids && x != m ==> less(m, x)
  }

  lemma {:induction false} HasHead(less: Order, ids: set<nat>)
    requires Strict(less) && ids != {}
    ensures exists m :: Heads(less, ids, m)
  {
    var x :| x in ids;
    var rest := ids - {x};
    assert forall y :: y in ids ==> y == x || y in rest;
    if rest == {} {
      assert Heads(less, ids, x);
    } else {
      HasHead(less, rest);
      var m :| Heads(less, rest, m);
      assert Heads(less, ids, if less(x, m) then x else m);
    }
  }

  ghost function Head(less: Order, ids: set<nat>): (m: nat)
    requires Strict(less) && ids != {}
    ensures Heads(less, ids, m)
  {
    HasHead(less, ids);
    var m :| Heads(less, ids, m);
    m
  }

  ghost function Listed(less: Order, ids: set<nat>): (r: seq<nat>)
    requires Strict(less)
    ensures |r| == |ids| && forall x :: x in r <==> x in ids
  {
    if ids == {} then [] else [Head(less, ids)] + Listed(less, ids - {Head(less, ids)})
  }

  lemma {:induction false} ListedInOrder(less: Order, ids: set<nat>, i: nat, j: nat)
    requires Strict(less) && i < j < |Listed(less, ids)|
    ensures less(Listed(less, ids)[i], Listed(less, ids)[j])
    decreases |ids|
  {
    var m := Head(less, ids);
    var r, rest := Listed(less, ids), Listed(less, ids - {m});
    assert r == [m] + rest;
    assert rest[j - 1] in rest;
    if i > 0 { ListedInOrder(less, ids - {m}, i - 1, j - 1); }
  }

  // ---- the list -------------------------------------------------------------------------------

  /** Listing order, with unknown rows last. */
  function Listing(s: State): Order {
    (a: nat, b: nat) =>
      if a in s.deliveries && b in s.deliveries then ListedFirst(s, a, b)
      else (a in s.deliveries) || (b !in s.deliveries && a < b)
  }

  lemma ListingIsStrict(s: State)
    ensures Strict(Listing(s))
  {
    forall a: nat, b: nat ensures a != b ==> Listing(s)(a, b) || Listing(s)(b, a) {}
    forall a: nat, b: nat ensures !(Listing(s)(a, b) && Listing(s)(b, a)) {}
    forall a: nat, b: nat, c: nat ensures Listing(s)(a, b) && Listing(s)(b, c) ==> Listing(s)(a, c) {}
  }

  function WithinShare(s: State, perTenant: nat): set<nat> {
    set x | x in DueIds(s) && TenantRank(s, x) <= perTenant
  }

  ghost function Ranked(s: State, perTenant: nat): (r: seq<nat>)
    ensures forall x :: x in r <==> x in WithinShare(s, perTenant)
  {
    ListingIsStrict(s);
    Listed(Listing(s), WithinShare(s, perTenant))
  }

  /** At most `perTenant` rows of an organization and `scanLimit` in all. */
  ghost function FairCandidateIds(s: State, scanLimit: nat, perTenant: nat): seq<nat> {
    var r := Ranked(s, perTenant);
    r[..MinInt(scanLimit, |r|)]
  }

  lemma RankedInOrder(s: State, perTenant: nat, i: nat, j: nat)
    requires i < j < |Ranked(s, perTenant)|
    ensures var a, b := Ranked(s, perTenant)[i], Ranked(s, perTenant)[j];
            a in WithinShare(s, perTenant) && b in WithinShare(s, perTenant) && a != b && ListedFirst(s, a, b)
  {
    var r := Ranked(s, perTenant);
    assert r[i] in r && r[j] in r;
    ListingIsStrict(s);
    ListedInOrder(Listing(s), WithinShare(s, perTenant), i, j);
  }

  // ---- what the list guarantees -----------------------------------------------------------------

  /** The list is closed under listing order. */
  lemma PrefixClosed(s: State, scanLimit: nat, perTenant: nat, x: nat, y: nat)
    requires y in FairCandidateIds(s, scanLimit, perTenant) && x in WithinShare(s, perTenant)
    requires y in s.deliveries && ListedFirst(s, x, y)
    ensures exists i, j :: 0 <= i < j < |FairCandidateIds(s, scanLimit, perTenant)|
              && FairCandidateIds(s, scanLimit, perTenant)[i] == x && FairCandidateIds(s, scanLimit, perTenant)[j] == y
  {
    var r, ids := Ranked(s, perTenant), FairCandidateIds(s, scanLimit, perTenant);
    var j :| 0 <= j < |ids| && ids[j] == y;
    assert x in r;
    var i :| 0 <= i < |r| && r[i] == x;
    if j < i { RankedInOrder(s, perTenant, j, i); }
    assert ids[i] == x && ids[j] == y;
  }

  /** Within an endpoint the list never skips: whatever is due before a listed
      delivery of the same endpoint is listed before it. */
  lemma OldestFirst(s: State, scanLimit: nat, perTenant: nat, x: nat, y: nat)
    requires x in DueIds(s) && y in s.deliveries && y in FairCandidateIds(s, scanLimit, perTenant)
    requires SameQueue(s, x, y) && Sooner(s, x, y)
    ensures exists i, j :: 0 <= i < j < |FairCandidateIds(s, scanLimit, perTenant)|
              && FairCandidateIds(s, scanLimit, perTenant)[i] == x && FairCandidateIds(s, scanLimit, perTenant)[j] == y
  {
    assert y in Ranked(s, perTenant);
    EndpointRankOrders(s, x, y);
    TenantRankOrders(s, x, y);
    PrefixClosed(s, scanLimit, perTenant, x, y);
  }

  function DueOrgs(s: State): set<nat> { set id | id in DueIds(s) :: s.deliveries[id].org }

  function DueOf(s: State, org: nat): set<nat> { set id | id in DueIds(s) && s.deliveries[id].org == org }

  /** The order within organizations, with unknown rows last. */
  function OrgListing(s: State): Order {
    (a: nat, b: nat) =>
      if a in s.deliveries && b in s.deliveries then TenantFirst(s, a, b)
      else (a in s.deliveries) || (b !in s.deliveries && a < b)
  }

  lemma OrgListingIsStrict(s: State)
    ensures Strict(OrgListing(s))
  {
    forall a: nat, b: nat ensures a != b ==> OrgListing(s)(a, b) || OrgListing(s)(b, a) {}
    forall a: nat, b: nat ensures !(OrgListing(s)(a, b) && OrgListing(s)(b, a)) {}
    forall a: nat, b: nat, c: nat ensures OrgListing(s)(a, b) && OrgListing(s)(b, c) ==> OrgListing(s)(a, c) {}
  }

  /** Some due row of the organization has nothing ahead of it. */
  lemma FirstHasRankOne(s: State, org: nat) returns (m: nat)
    requires org in DueOrgs(s)
    ensures m in DueOf(s, org) && TenantRank(s, m) == 1
  {
    var id :| id in DueIds(s) && s.deliveries[id].org == org;
    assert id in DueOf(s, org);
    OrgListingIsStrict(s);
    HasHead(OrgListing(s), DueOf(s, org));
    m :| Heads(OrgListing(s), DueOf(s, org), m);
    NothingAhead(s, org, m);
  }

  lemma NothingAhead(s: State, org: nat, m: nat)
    requires Strict(OrgListing(s)) && Heads(OrgListing(s), DueOf(s, org), m)
    ensures AheadInOrg(s, m) == {}
  {
    forall x | x in DueIds(s) && s.deliveries[x].org == org ensures !TenantFirst(s, x, m) {
      if x != m { assert x in DueOf(s, org) && OrgListing(s)(m, x); }
    }
  }

  /** The organizations of the first `n` listed rows. */
  function ListedOrgs(s: State, r: seq<nat>, n: nat): seq<nat>
    requires n <= |r| && forall x :: x in r ==> x in s.deliveries
  {
    seq(n, k requires 0 <= k < n => assert r[k] in r; s.deliveries[r[k]].org)
  }

  /** If the scan limit is at least the number of organizations with due work,
      every one of them is in the list. */
  lemma EveryOrgListed(s: State, scanLimit: nat, perTenant: nat, org: nat)
    requires |DueOrgs(s)| <= scanLimit && perTenant >= 1 && org in DueOrgs(s)
    ensures exists id :: id in FairCandidateIds(s, scanLimit, perTenant) && id in s.deliveries && s.deliveries[id].org == org
  {
    var m := FirstHasRankOne(s, org);
    var r := Ranked(s, perTenant);
    assert m in r;
    var i :| 0 <= i < |r| && r[i] == m;
    FirstRowsDiffer(s, perTenant, i);
    var orgs := ListedOrgs(s, r, i + 1);
    forall v | v in orgs ensures v in DueOrgs(s) {
      var k :| 0 <= k < |orgs| && orgs[k] == v;
      assert r[k] in r;
    }
    DistinctBound(orgs, DueOrgs(s));
    assert FairCandidateIds(s, scanLimit, perTenant)[i] == m;
  }

  /** Up to a row of rank one all rows have rank one, so no organization occurs
      twice. */
  lemma FirstRowsDiffer(s: State, perTenant: nat, i: nat)
    requires i < |Ranked(s, perTenant)| && Ranked(s, perTenant)[i] in s.deliveries
    requires TenantRank(s, Ranked(s, perTenant)[i]) == 1
    ensures Distinct(ListedOrgs(s, Ranked(s, perTenant), i + 1))
  {
    var r := Ranked(s, perTenant);
    forall k | 0 <= k < |r| ensures r[k] in s.deliveries { assert r[k] in r; }
    forall a, b | 0 <= a < b < i + 1 ensures s.deliveries[r[a]].org != s.deliveries[r[b]].org {
      RankedInOrder(s, perTenant, a, b);
      if b < i { RankedInOrder(s, perTenant, b, i); }
      SameRankOtherOrg(s, r[a], r[b]);
    }
  }

  lemma SameRankOtherOrg(s: State, a: nat, b: nat)
    requires a in DueIds(s) && b in DueIds(s) && a != b && TenantRank(s, a) == TenantRank(s, b)
    ensures s.deliveries[a].org != s.deliveries[b].org
  {
    if s.deliveries[a].org == s.deliveries[b].org {
      if TenantFirst(s, a, b) { TenantRankOrders(s, a, b); } else { TenantRankOrders(s, b, a); }
    }
  }

  /** Nothing of the organization is due sooner. */
  predicate FirstOfOrg(s: State, id: nat)
    requires id in s.deliveries
  {
    id in DueIds(s) && forall x :: x in DueIds(s) && s.deliveries[x].org == s.deliveries[id].org && x != id ==> Sooner(s, id, x)
  }

  lemma SoonestLeads(s: State, id: nat)
    requires id in s.deliveries && FirstOfOrg(s, id)
    ensures TenantRank(s, id) == 1
  {
    assert AheadInQueue(s, id) == {};
    forall x | x in DueIds(s) && s.deliveries[x].org == s.deliveries[id].org ensures !TenantFirst(s, x, id) {
      if x != id { assert Sooner(s, id, x); }
    }
    assert AheadInOrg(s, id) == {};
  }

  /** Between organizations time decides: if the soonest row of one is listed and
      the soonest row of another is sooner, that one is listed before it. */
  lemma SoonestOrgFirst(s: State, scanLimit: nat, perTenant: nat, a: nat, b: nat)
    requires a in s.deliveries && b in s.deliveries && FirstOfOrg(s, a) && FirstOfOrg(s, b) && Sooner(s, a, b)
    requires b in FairCandidateIds(s, scanLimit, perTenant)
    ensures exists i, j :: 0 <= i < j < |FairCandidateIds(s, scanLimit, perTenant)|
              && FairCandidateIds(s, scanLimit, perTenant)[i] == a && FairCandidateIds(s, scanLimit, perTenant)[j] == b
  {
    SoonestLeads(s, a);
    SoonestLeads(s, b);
    assert b in Ranked(s, perTenant);
    PrefixClosed(s, scanLimit, perTenant, a, b);
  }

  // ---- every endpoint of an organization ------------------------------------------------------

  function DueEndpoints(s: State, org: nat): set<nat> {
    set id | id in DueIds(s) && s.deliveries[id].org == org :: s.deliveries[id].endpoint
  }

  /** Nothing of the endpoint is due sooner. */
  predicate FirstOfQueue(s: State, id: nat)
    requires id in s.deliveries
  {
    id in DueIds(s) && forall x :: x in DueIds(s) && SameQueue(s, x, id) && x != id ==> Sooner(s, id, x)
  }

  function DueOfQueue(s: State, org: nat, ep: nat): set<nat> {
    set id | id in DueIds(s) && s.deliveries[id].org == org && s.deliveries[id].endpoint == ep
  }

  /** By time and id, with unknown rows last. */
  function ByTime(s: State): Order {
    (a: nat, b: nat) =>
      if a in s.deliveries && b in s.deliveries then Sooner(s, a, b)
      else (a in s.deliveries) || (b !in s.deliveries && a < b)
  }

  lemma ByTimeIsStrict(s: State)
    ensures Strict(ByTime(s))
  {
    forall a: nat, b: nat ensures a != b ==> ByTime(s)(a, b) || ByTime(s)(b, a) {}
    forall a: nat, b: nat ensures !(ByTime(s)(a, b) && ByTime(s)(b, a)) {}
    forall a: nat, b: nat, c: nat ensures ByTime(s)(a, b) && ByTime(s)(b, c) ==> ByTime(s)(a, c) {}
  }

  lemma HasFirst(s: State, org: nat, ep: nat) returns (id: nat)
    requires ep in DueEndpoints(s, org)
    ensures id in DueOfQueue(s, org, ep) && FirstOfQueue(s, id) && EndpointRank(s, id) == 1
  {
    var x :| x in DueIds(s) && s.deliveries[x].org == org && s.deliveries[x].endpoint == ep;
    assert x in DueOfQueue(s, org, ep);
    ByTimeIsStrict(s);
    HasHead(ByTime(s), DueOfQueue(s, org, ep));
    id :| Heads(ByTime(s), DueOfQueue(s, org, ep), id);
    forall y | y in DueIds(s) && SameQueue(s, y, id) && y != id ensures Sooner(s, id, y) {
      assert y in DueOfQueue(s, org, ep) && ByTime(s)(id, y);
    }
    assert AheadInQueue(s, id) == {};
  }

  /** First rows of different endpoints only stand ahead of a first row. */
  lemma FewAhead(s: State, id: nat)
    requires id in DueIds(s) && EndpointRank(s, id) == 1
    ensures TenantRank(s, id) <= |DueEndpoints(s, s.deliveries[id].org)|
  {
    var org := s.deliveries[id].org;
    var ahead := AheadInOrg(s, id) + {id};
    forall x | x in ahead ensures x in DueIds(s) && s.deliveries[x].org == org && EndpointRank(s, x) == 1 {}
    OnePerEndpoint(s, ahead, org);
    assert id !in AheadInOrg(s, id);
  }

  lemma {:induction false} OnePerEndpoint(s: State, rows: set<nat>, org: nat)
    requires forall x :: x in rows ==> x in DueIds(s) && s.deliveries[x].org == org && EndpointRank(s, x) == 1
    ensures |rows| <= |DueEndpoints(s, org)|
  {
    var eps := set x | x in rows :: s.deliveries[x].endpoint;
    forall x, y | x in rows && y in rows && s.deliveries[x].endpoint == s.deliveries[y].endpoint ensures x == y {
      if x != y {
        if Sooner(s, x, y) { EndpointRankOrders(s, x, y); } else { EndpointRankOrders(s, y, x); }
      }
    }
    ImageSize(s, rows);
    SubsetCardinality(eps, DueEndpoints(s, org));
  }

  lemma {:induction false} ImageSize(s: State, rows: set<nat>)
    requires forall x :: x in rows ==> x in s.deliveries
    requires forall x, y :: x in rows && y in rows && s.deliveries[x].endpoint == s.deliveries[y].endpoint ==> x == y
    ensures |set x | x in rows :: s.deliveries[x].endpoint| == |rows|
  {
    var image := set x | x in rows :: s.deliveries[x].endpoint;
    if rows != {} {
      var x :| x in rows;
      var rest := rows - {x};
      ImageSize(s, rest);
      var small := set y | y in rest :: s.deliveries[y].endpoint;
      assert image == small + {s.deliveries[x].endpoint} by { assert rows == rest + {x}; }
      assert s.deliveries[x].endpoint !in small;
    }
  }

  /** Rows of one organization with ranks up to `k` are at most `k`. */
  lemma RanksFit(s: State, rows: set<nat>, org: nat, k: nat)
    requires forall x :: x in rows ==> x in DueIds(s) && s.deliveries[x].org == org && TenantRank(s, x) <= k
    ensures |rows| <= k
  {
    RankImage(s, rows, org);
    var ranks := set x | x in rows :: TenantRank(s, x) as int;
    SubsetCardinality(ranks, Range(1, k + 1));
  }

  lemma {:induction false} RankImage(s: State, rows: set<nat>, org: nat)
    requires forall x :: x in rows ==> x in s.deliveries && x in DueIds(s) && s.deliveries[x].org == org
    ensures |set x | x in rows :: TenantRank(s, x) as int| == |rows|
  {
    var image := set x | x in rows :: TenantRank(s, x) as int;
    if rows != {} {
      var x :| x in rows;
      var rest := rows - {x};
      RankImage(s, rest, org);
      var small := set y | y in rest :: TenantRank(s, y) as int;
      assert image == small + {TenantRank(s, x)} by { assert rows == rest + {x}; }
      if TenantRank(s, x) in small {
        var y :| y in rest && TenantRank(s, y) == TenantRank(s, x);
        SameRankOtherOrg(s, y, x);
      }
    }
  }

  function Shares(n: nat, k: nat): nat { if n == 0 then 0 else Shares(n - 1, k) + k }

  lemma {:induction false} SharesProduct(n: nat, k: nat)
    ensures Shares(n, k) == n * k
  {
    if n > 0 { SharesProduct(n - 1, k); }
  }

  function OwnedBy(owner: map<nat, nat>, rows: set<nat>, o: nat): set<nat> {
    set x | x in rows && x in owner && owner[x] == o
  }

  /** At most `k` rows for each of `n` owners are at most `n` times `k` rows. */
  lemma {:induction false} OwnersFit(owner: map<nat, nat>, rows: set<nat>, owners: seq<nat>, k: nat)
    requires forall x :: x in rows ==> x in owner && owner[x] in owners
    requires forall o :: |OwnedBy(owner, rows, o)| <= k
    ensures |rows| <= Shares(|owners|, k)
    decreases |owners|
  {
    if owners == [] {
      assert rows == {};
    } else {
      var mine := OwnedBy(owner, rows, owners[0]);
      var others := rows - mine;
      forall o ensures |OwnedBy(owner, others, o)| <= k {
        SubsetCardinality(OwnedBy(owner, others, o), OwnedBy(owner, rows, o));
      }
      OwnersFit(owner, others, owners[1..], k);
      PartSize(rows, mine);
    }
  }

  lemma PartSize(all: set<nat>, part: set<nat>)
    requires part <= all
    ensures |all| == |all - part| + |part|
  {
    assert all == (all - part) + part;
  }

  /** Rows of some organizations with ranks up to `k`. */
  lemma SharesFit(s: State, rows: set<nat>, orgs: set<nat>, k: nat)
    requires forall x :: x in rows ==> x in DueIds(s) && s.deliveries[x].org in orgs && TenantRank(s, x) <= k
    ensures |rows| <= |orgs| * k
  {
    var owner := map x | x in rows :: s.deliveries[x].org;
    forall o ensures |OwnedBy(owner, rows, o)| <= k { RanksFit(s, OwnedBy(owner, rows, o), o, k); }
    OwnersFit(owner, rows, Sorted(orgs), k);
    SharesProduct(|orgs|, k);
  }

  /** If an organization's share is at least the number of its endpoints with due
      work, and the scan limit at least that for every organization with due
      work, then the soonest due row of each of its endpoints is in the list. */
  lemma EveryEndpointListed(s: State, scanLimit: nat, perTenant: nat, org: nat, ep: nat)
    requires ep in DueEndpoints(s, org) && |DueEndpoints(s, org)| <= perTenant
    requires |DueOrgs(s)| * |DueEndpoints(s, org)| <= scanLimit
    ensures exists id :: id in FairCandidateIds(s, scanLimit, perTenant) && id in DueOfQueue(s, org, ep) && FirstOfQueue(s, id)
  {
    var id := HasFirst(s, org, ep);
    FewAhead(s, id);
    var r, k := Ranked(s, perTenant), |DueEndpoints(s, org)|;
    assert id in r;
    var i :| 0 <= i < |r| && r[i] == id;
    RankedUpTo(s, perTenant, i, k);
    assert FairCandidateIds(s, scanLimit, perTenant)[i] == id;
  }

  lemma RankedUpTo(s: State, perTenant: nat, i: nat, k: nat)
    requires i < |Ranked(s, perTenant)| && Ranked(s, perTenant)[i] in s.deliveries
    requires TenantRank(s, Ranked(s, perTenant)[i]) <= k
    ensures i + 1 <= |DueOrgs(s)| * k
  {
    var r := Ranked(s, perTenant);
    var upTo := r[..i + 1];
    var rows := set x | x in upTo;
    forall x | x in rows ensures x in DueIds(s) && s.deliveries[x].org in DueOrgs(s) && TenantRank(s, x) <= k {
      var a :| 0 <= a < |upTo| && upTo[a] == x;
      RankAtMost(s, perTenant, a, i);
    }
    RankedDistinct(s, perTenant, i + 1);
    DistinctBound(upTo, rows);
    SharesFit(s, rows, DueOrgs(s), k);
  }

  lemma RankAtMost(s: State, perTenant: nat, a: nat, i: nat)
    requires a <= i < |Ranked(s, perTenant)| && Ranked(s, perTenant)[i] in s.deliveries
    ensures var r := Ranked(s, perTenant);
            r[a] in DueIds(s) && s.deliveries[r[a]].org in DueOrgs(s) && TenantRank(s, r[a]) <= TenantRank(s, r[i])
  {
    var r := Ranked(s, perTenant);
    assert r[a] in r;
    if a < i { RankedInOrder(s, perTenant, a, i); }
  }

  lemma RankedDistinct(s: State, perTenant: nat, n: nat)
    requires n <= |Ranked(s, perTenant)|
    ensures Distinct(Ranked(s, perTenant)[..n])
  {
    var r := Ranked(s, perTenant);
    forall a, b | 0 <= a < b < n ensures r[..n][a] != r[..n][b] { RankedInOrder(s, perTenant, a, b); }
  }
}
