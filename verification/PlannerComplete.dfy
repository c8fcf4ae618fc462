/** Greedy placement of a single service is complete: it is refused exactly when
    no admissible selection of devices satisfies the spread rules. */
module PlannerComplete {
  import opened Base
  import opened Order
  import opened Model
  import opened Eligibility
  import opened DependencyGraph
  import opened Planner
  import opened PlannerSound

  // ---------------------------------------------------------------------
  // What any selection may look like.
  // ---------------------------------------------------------------------

  /** Devices the service may run on: admissible, and not owned by another scope. */
  ghost function Pool(r: Request, s: Service): set<Dpu> {
    set d | d in r.dpus && Admissible(d, s, r.policy, r.now) && ScopeFree(s, Owners(r.grants), d.id)
  }

  ghost function Within(ds: set<Dpu>, domain: Id): set<Dpu> {
    set d | d in ds && d.domain == domain
  }

  /** The per-domain cap and the distinct-domain rule. */
  ghost predicate Spread(g: Group, ds: set<Dpu>) {
    forall domain {:trigger Within(ds, domain)} ::
      && (g.antiAffinity.maxPerDomain.Some? ==> |Within(ds, domain)| <= g.antiAffinity.maxPerDomain.value)
      && (g.antiAffinity.distinctDomains ==> |Within(ds, domain)| <= 1)
  }

  ghost predicate Selection(r: Request, s: Service, desired: nat, ds: set<Dpu>) {
    ds <= Pool(r, s) && |ds| == desired && Spread(r.group, ds)
  }

  /** What of them an earlier part of the plan leaves: not at its cap, and with room. */
  ghost function Remaining(r: Request, s: Service, u: Usage): set<Dpu> {
    set d | d in r.dpus && Admissible(d, s, r.policy, r.now) && ScopeFree(s, u.owner, d.id) && HasPlace(r.group, r.policy, s, u, d)
  }

  predicate HasPlace(g: Group, p: Policy, s: Service, u: Usage, d: Dpu) {
    Count(u.onDpu, d.id) < MaxPerDpu(g, p) && Covers(FreeOn(u, d), s.resources)
  }

  /** The domain rules, on top of what the domains hold already. */
  ghost predicate SpreadOver(g: Group, u: Usage, ds: set<Dpu>, domain: Id) {
    Within(ds, domain) != {} ==>
      && (g.antiAffinity.maxPerDomain.Some? ==> Count(u.inDomain, domain) + |Within(ds, domain)| <= g.antiAffinity.maxPerDomain.value)
      && (g.antiAffinity.distinctDomains ==> |Within(ds, domain)| <= 1)
  }

  ghost predicate SpreadsOver(g: Group, u: Usage, ds: set<Dpu>) {
    forall domain :: SpreadOver(g, u, ds, domain)
  }

  ghost predicate FitsBeside(r: Request, s: Service, u: Usage, ds: set<Dpu>) {
    ds <= Remaining(r, s, u) && SpreadsOver(r.group, u, ds)
  }

  /** A selection against the usage that earlier services left. */
  ghost predicate SelectionBeside(r: Request, s: Service, u: Usage, desired: nat, ds: set<Dpu>) {
    FitsBeside(r, s, u, ds) && |ds| == desired
  }

  ghost predicate HasSelection(r: Request, s: Service, u: Usage, desired: nat) {
    exists ds :: SelectionBeside(r, s, u, desired, ds)
  }

  /** A set that has, domain by domain, no more than another is no larger. */
  lemma {:induction false} DomainwiseLeq(a: set<Dpu>, b: set<Dpu>)
    requires forall domain :: |Within(a, domain)| <= |Within(b, domain)|
    ensures |a| <= |b|
    decreases |a|
  {
    if a != {} {
      var d :| d in a;
      var dom := d.domain;
      var a', b' := a - Within(a, dom), b - Within(b, dom);
      assert d in Within(a, dom);
      assert a == a' + Within(a, dom) && b == b' + Within(b, dom);
      forall domain ensures |Within(a', domain)| <= |Within(b', domain)| {
        if domain == dom { assert Within(a', domain) == {}; }
        else { assert Within(a', domain) == Within(a, domain) && Within(b', domain) == Within(b, domain); }
      }
      DomainwiseLeq(a', b');
    }
  }

  // ---------------------------------------------------------------------
  // The devices greedy placement picks.
  // ---------------------------------------------------------------------

  function Picked(g: Group, p: Policy, s: Service, desired: nat, a: Placing, cs: seq<Candidate>): seq<Dpu>
    decreases |cs|
  {
    if cs == [] || |a.replicas| >= desired then []
    else
      (if Allowed(g, p, s, a, cs[0].dpu) then [cs[0].dpu] else [])
      + Picked(g, p, s, desired, Consider(g, p, s, a, cs[0]), cs[1..])
  }

  function CountDomain(ds: seq<Dpu>, domain: Id): nat {
    if ds == [] then 0 else (if ds[0].domain == domain then 1 else 0) + CountDomain(ds[1..], domain)
  }

  lemma {:induction false} PickedCounts(g: Group, p: Policy, s: Service, desired: nat, a: Placing, cs: seq<Candidate>, domain: Id)
    ensures var done := Place(g, p, s, desired, a, cs);
      var ds := Picked(g, p, s, desired, a, cs);
      && |done.replicas| == |a.replicas| + |ds|
      && CountIn(done.replicas, domain) == CountIn(a.replicas, domain) + CountDomain(ds, domain)
    decreases |cs|
  {
    if cs != [] && |a.replicas| < desired {
      var b := Consider(g, p, s, a, cs[0]);
      if Allowed(g, p, s, a, cs[0].dpu) { assert b.replicas[..|a.replicas|] == a.replicas; }
      PickedCounts(g, p, s, desired, b, cs[1..], domain);
      var rest := Picked(g, p, s, desired, b, cs[1..]);
      assert ([cs[0].dpu] + rest)[1..] == rest && [] + rest == rest;
    }
  }

  lemma DistinctCons<T>(x: T, s: seq<T>)
    requires Distinct(s) && x !in s
    ensures Distinct([x] + s)
  {
    var r := [x] + s;
    forall i, j | 0 <= i < j < |r| ensures r[i] != r[j] {
      assert r[j] == s[j - 1] && s[j - 1] in s;
    }
  }

  ghost predicate OfCandidate(d: Dpu, cs: seq<Candidate>) {
    exists c :: c in cs && c.dpu == d
  }

  lemma LaterCandidate(cs: seq<Candidate>, d: Dpu)
    requires cs != [] && Distinct(Map(CandidateId, cs)) && OfCandidate(d, cs[1..])
    ensures OfCandidate(d, cs) && d != cs[0].dpu
  {
    var c :| c in cs[1..] && c.dpu == d;
    var j :| 1 <= j < |cs| && cs[j] == c;
    assert Map(CandidateId, cs)[0] != Map(CandidateId, cs)[j];
    assert c in cs;
  }

  lemma {:induction false} PickedFrom(g: Group, p: Policy, s: Service, desired: nat, a: Placing, cs: seq<Candidate>)
    requires Distinct(Map(CandidateId, cs))
    ensures var ds := Picked(g, p, s, desired, a, cs);
      Distinct(ds) && forall d :: d in ds ==> OfCandidate(d, cs)
    decreases |cs|
  {
    hide Allowed;
    hide Consider;
    if cs != [] && |a.replicas| < desired {
      assert Map(CandidateId, cs)[1..] == Map(CandidateId, cs[1..]);
      PickedFrom(g, p, s, desired, Consider(g, p, s, a, cs[0]), cs[1..]);
      var rest := Picked(g, p, s, desired, Consider(g, p, s, a, cs[0]), cs[1..]);
      forall d | d in rest ensures OfCandidate(d, cs) && d != cs[0].dpu { LaterCandidate(cs, d); }
      assert cs[0] in cs && OfCandidate(cs[0].dpu, cs);
      DistinctCons(cs[0].dpu, rest);
      assert [] + rest == rest;
    }
  }

  ghost function Devices(ds: seq<Dpu>): set<Dpu> { set d | d in ds }

  lemma {:induction false} DevicesCard(ds: seq<Dpu>, domain: Id)
    requires Distinct(ds)
    ensures |Devices(ds)| == |ds|
    ensures |Within(Devices(ds), domain)| == CountDomain(ds, domain)
  {
    if ds != [] {
      var rest := ds[1..];
      DevicesCard(rest, domain);
      assert ds[0] !in rest;
      assert Devices(ds) == Devices(rest) + {ds[0]};
      if ds[0].domain == domain {
        assert Within(Devices(ds), domain) == Within(Devices(rest), domain) + {ds[0]};
      } else {
        assert Within(Devices(ds), domain) == Within(Devices(rest), domain);
      }
    }
  }

  // ---------------------------------------------------------------------
  // A device that was passed over sits in a full domain.
  // ---------------------------------------------------------------------

  ghost predicate Full(g: Group, a: Placing, domain: Id) {
    || (g.antiAffinity.maxPerDomain.Some? && Count(a.usage.inDomain, domain) >= g.antiAffinity.maxPerDomain.value)
    || (g.antiAffinity.distinctDomains && Count(a.domains, domain) > 0)
  }

  lemma {:induction false} FullStays(g: Group, p: Policy, s: Service, desired: nat, a: Placing, cs: seq<Candidate>, domain: Id)
    requires Full(g, a, domain)
    ensures Full(g, Place(g, p, s, desired, a, cs), domain)
    decreases |cs|
  {
    if cs != [] && |a.replicas| < desired {
      FullStays(g, p, s, desired, Consider(g, p, s, a, cs[0]), cs[1..], domain);
    }
  }

  /** From a full domain nothing more is picked. */
  lemma {:induction false} FullPicksNone(g: Group, p: Policy, s: Service, desired: nat, a: Placing, cs: seq<Candidate>, domain: Id)
    requires Full(g, a, domain)
    ensures CountDomain(Picked(g, p, s, desired, a, cs), domain) == 0
    decreases |cs|
  {
    if cs != [] && |a.replicas| < desired {
      var b := Consider(g, p, s, a, cs[0]);
      FullPicksNone(g, p, s, desired, b, cs[1..], domain);
      var rest := Picked(g, p, s, desired, b, cs[1..]);
      assert ([cs[0].dpu] + rest)[1..] == rest && [] + rest == rest;
    }
  }

  /** Considering one device leaves the others as they were. */
  lemma OthersKeepPlace(g: Group, p: Policy, s: Service, a: Placing, c: Candidate, d: Dpu)
    requires d.id != c.dpu.id
    ensures HasPlace(g, p, s, Consider(g, p, s, a, c).usage, d) <==> HasPlace(g, p, s, a.usage, d)
  {
  }

  lemma LaterDiffers(cs: seq<Candidate>, c: Candidate)
    requires cs != [] && Distinct(Map(CandidateId, cs)) && c in cs[1..]
    ensures c.dpu.id != cs[0].dpu.id && Distinct(Map(CandidateId, cs[1..]))
  {
    var j :| 1 <= j < |cs| && cs[j] == c;
    assert Map(CandidateId, cs)[0] != Map(CandidateId, cs)[j];
    assert Map(CandidateId, cs)[1..] == Map(CandidateId, cs[1..]);
  }

  /** What is picked had a place from the start. */
  lemma {:induction false} PickedHadPlace(g: Group, p: Policy, s: Service, desired: nat, a: Placing, cs: seq<Candidate>, d: Dpu)
    requires Distinct(Map(CandidateId, cs)) && d in Picked(g, p, s, desired, a, cs)
    ensures HasPlace(g, p, s, a.usage, d)
    decreases |cs|
  {
    hide Consider, HasPlace;
    if Allowed(g, p, s, a, cs[0].dpu) && d == cs[0].dpu {
      AllowedHasPlace(g, p, s, a, d);
    } else {
      hide Allowed;
      assert Map(CandidateId, cs)[1..] == Map(CandidateId, cs[1..]);
      PickedFrom(g, p, s, desired, Consider(g, p, s, a, cs[0]), cs[1..]);
      var c :| c in cs[1..] && c.dpu == d;
      LaterDiffers(cs, c);
      PickedHadPlace(g, p, s, desired, Consider(g, p, s, a, cs[0]), cs[1..], d);
      OthersKeepPlace(g, p, s, a, cs[0], d);
    }
  }

  lemma AllowedHasPlace(g: Group, p: Policy, s: Service, a: Placing, d: Dpu)
    ensures Allowed(g, p, s, a, d) ==> HasPlace(g, p, s, a.usage, d)
    ensures HasPlace(g, p, s, a.usage, d) && !Allowed(g, p, s, a, d) ==> Full(g, a, d.domain)
  {
  }

  /** A device with a place that was not picked sits in a domain that is full by now. */
  lemma {:induction false} PassedOver(g: Group, p: Policy, s: Service, desired: nat, a: Placing, cs: seq<Candidate>, c: Candidate)
    requires Distinct(Map(CandidateId, cs)) && c in cs && HasPlace(g, p, s, a.usage, c.dpu)
    requires |Place(g, p, s, desired, a, cs).replicas| < desired
    ensures c.dpu in Picked(g, p, s, desired, a, cs) || Full(g, Place(g, p, s, desired, a, cs), c.dpu.domain)
    decreases |cs|
  {
    hide HasPlace, Full;
    var b := Consider(g, p, s, a, cs[0]);
    PickedCounts(g, p, s, desired, a, cs, c.dpu.domain);
    assert |a.replicas| < desired;
    AllowedHasPlace(g, p, s, a, c.dpu);
    if c == cs[0] {
      if !Allowed(g, p, s, a, c.dpu) { FullStays(g, p, s, desired, b, cs[1..], c.dpu.domain); }
    } else {
      LaterDiffers(cs, c);
      OthersKeepPlace(g, p, s, a, cs[0], c.dpu);
      hide Consider, Allowed;
      PassedOver(g, p, s, desired, b, cs[1..], c);
    }
  }

  // ---------------------------------------------------------------------
  // Completeness of one placement, beside whatever is placed already.
  // ---------------------------------------------------------------------

  function Start(u: Usage): Placing { Placing([], u, map[]) }

  lemma RemainingRanked(r: Request, s: Service, u: Usage, d: Dpu)
    requires Distinct(DpuIds(r.dpus))
    ensures d in Remaining(r, s, u) <==> OfCandidate(d, Ranked(r, s, u)) && HasPlace(r.group, r.policy, s, u, d)
  {
    hide Ranked, Admissible, Score, HasPlace;
    RankedExact(r, s, u);
    EligibleExact(d, s, r.policy, r.now);
    if d in Remaining(r, s, u) { assert Candidate(d, ScoreOf(r, s, u, d)) in Ranked(r, s, u); }
  }

  ghost predicate Domainwise(a: set<Dpu>, b: set<Dpu>, domain: Id) {
    |Within(a, domain)| <= |Within(b, domain)|
  }

  /** What placement took from a domain, and whether the domain is full afterwards. */
  lemma DomainTally(g: Group, p: Policy, s: Service, desired: nat, u: Usage, cs: seq<Candidate>, domain: Id)
    requires Distinct(Map(CandidateId, cs))
    ensures var done, n := Place(g, p, s, desired, Start(u), cs), |Within(Devices(Picked(g, p, s, desired, Start(u), cs)), domain)|;
      && Count(done.usage.inDomain, domain) == Count(u.inDomain, domain) + n && Count(done.domains, domain) == n
      && (n > 0 && g.antiAffinity.maxPerDomain.Some? ==> Count(u.inDomain, domain) + n <= g.antiAffinity.maxPerDomain.value)
      && (g.antiAffinity.distinctDomains ==> n <= 1)
  {
    PickedFrom(g, p, s, desired, Start(u), cs);
    DevicesCard(Picked(g, p, s, desired, Start(u), cs), domain);
    PickedCounts(g, p, s, desired, Start(u), cs, domain);
    PlaceCountsDomain(g, p, s, desired, Start(u), cs, domain);
    if Full(g, Start(u), domain) { FullPicksNone(g, p, s, desired, Start(u), cs, domain); }
    hide Place, Picked, Devices, Within;
  }

  /** If placement stopped short, it had already taken as many devices from each
      domain as any selection could. */
  lemma ShortIsMaximal(r: Request, s: Service, u: Usage, desired: nat, ds: set<Dpu>, domain: Id)
    requires Distinct(DpuIds(r.dpus))
    requires |Place(r.group, r.policy, s, desired, Start(u), Ranked(r, s, u)).replicas| < desired
    requires FitsBeside(r, s, u, ds)
    ensures Domainwise(ds, Devices(Picked(r.group, r.policy, s, desired, Start(u), Ranked(r, s, u))), domain)
  {
    hide Ranked, Place, Picked, Remaining, HasPlace;
    var cs := Ranked(r, s, u);
    var picked := Picked(r.group, r.policy, s, desired, Start(u), cs);
    RankedExact(r, s, u);
    DomainTally(r.group, r.policy, s, desired, u, cs, domain);
    assert SpreadOver(r.group, u, ds, domain);
    if !Full(r.group, Place(r.group, r.policy, s, desired, Start(u), cs), domain) {
      forall d | d in Within(ds, domain) ensures d in Within(Devices(picked), domain) {
        RemainingRanked(r, s, u, d);
        var c :| c in cs && c.dpu == d;
        PassedOver(r.group, r.policy, s, desired, Start(u), cs, c);
      }
      SubsetCard(Within(ds, domain), Within(Devices(picked), domain));
    }
  }

  lemma PickedFits(r: Request, s: Service, u: Usage, desired: nat)
    requires Distinct(DpuIds(r.dpus))
    ensures FitsBeside(r, s, u, Devices(Picked(r.group, r.policy, s, desired, Start(u), Ranked(r, s, u))))
  {
    hide Ranked, Picked, Remaining, HasPlace;
    var cs := Ranked(r, s, u);
    var picked := Picked(r.group, r.policy, s, desired, Start(u), cs);
    RankedExact(r, s, u);
    PickedFrom(r.group, r.policy, s, desired, Start(u), cs);
    forall d | d in picked ensures d in Remaining(r, s, u) {
      PickedHadPlace(r.group, r.policy, s, desired, Start(u), cs, d);
      RemainingRanked(r, s, u, d);
    }
    forall domain ensures SpreadOver(r.group, u, Devices(picked), domain) {
      DomainTally(r.group, r.policy, s, desired, u, cs, domain);
    }
  }

  /** From any usage, a service gets all its replicas exactly when a selection of that
      many devices exists beside what is placed already. */
  lemma PlacementComplete(r: Request, s: Service, u: Usage, desired: nat)
    requires Distinct(DpuIds(r.dpus))
    ensures |Place(r.group, r.policy, s, desired, Start(u), Ranked(r, s, u)).replicas| <= desired
    ensures |Place(r.group, r.policy, s, desired, Start(u), Ranked(r, s, u)).replicas| == desired
            <==> HasSelection(r, s, u, desired)
  {
    hide Ranked, Place, Picked, FitsBeside;
    var cs := Ranked(r, s, u);
    var done := Place(r.group, r.policy, s, desired, Start(u), cs);
    var picked := Picked(r.group, r.policy, s, desired, Start(u), cs);
    RankedExact(r, s, u);
    PlaceFresh(r.group, r.policy, s, desired, Start(u), cs);
    PickedFrom(r.group, r.policy, s, desired, Start(u), cs);
    PickedCounts(r.group, r.policy, s, desired, Start(u), cs, "");
    DevicesCard(picked, "");
    if |done.replicas| == desired {
      PickedFits(r, s, u, desired);
      assert SelectionBeside(r, s, u, desired, Devices(picked));
    } else {
      forall ds | FitsBeside(r, s, u, ds) ensures |ds| <= |picked| {
        forall domain ensures |Within(ds, domain)| <= |Within(Devices(picked), domain)| {
          ShortIsMaximal(r, s, u, desired, ds, domain);
        }
        DomainwiseLeq(ds, Devices(picked));
      }
    }
  }

  // ---------------------------------------------------------------------
  // An unused usage.
  // ---------------------------------------------------------------------

  /** Nothing has been planned yet. */
  ghost predicate Unused(u: Usage) { u.onDpu == map[] && u.inDomain == map[] && u.remaining == map[] }

  lemma AdmissibleFits(d: Dpu, s: Service, policy: Policy, now: nat)
    requires Admissible(d, s, policy, now)
    ensures Fits(d, s) && Covers(HeadroomOrNone(d), s.resources)
  {
  }

  lemma PoolRemains(r: Request, s: Service, u: Usage)
    requires Unused(u) && u.owner == Owners(r.grants) && 0 < MaxPerDpu(r.group, r.policy)
    ensures Remaining(r, s, u) == Pool(r, s)
  {
    hide Admissible, MaxPerDpu;
    forall d | Admissible(d, s, r.policy, r.now) ensures HasPlace(r.group, r.policy, s, u, d) {
      AdmissibleFits(d, s, r.policy, r.now);
    }
  }

  lemma SpreadsAlike(g: Group, u: Usage, ds: set<Dpu>)
    requires Unused(u)
    ensures Spread(g, ds) <==> SpreadsOver(g, u, ds)
  {
    hide Within;
    if SpreadsOver(g, u, ds) {
      forall domain {:trigger Within(ds, domain)}
        ensures g.antiAffinity.maxPerDomain.Some? ==> |Within(ds, domain)| <= g.antiAffinity.maxPerDomain.value
        ensures g.antiAffinity.distinctDomains ==> |Within(ds, domain)| <= 1
      {
        assert SpreadOver(g, u, ds, domain);
      }
    }
  }

  /** Beside nothing, a selection is a selection. */
  lemma SelectionFirst(r: Request, s: Service, u: Usage, desired: nat, ds: set<Dpu>)
    requires Unused(u) && u.owner == Owners(r.grants) && 0 < MaxPerDpu(r.group, r.policy)
    ensures SelectionBeside(r, s, u, desired, ds) <==> Selection(r, s, desired, ds)
  {
    PoolRemains(r, s, u);
    SpreadsAlike(r.group, u, ds);
    hide Pool, Remaining, Spread, SpreadsOver, MaxPerDpu;
  }

  lemma FirstPlacement(r: Request, s: Service, u: Usage, desired: nat)
    requires Distinct(DpuIds(r.dpus)) && Unused(u) && u.owner == Owners(r.grants) && 0 < MaxPerDpu(r.group, r.policy)
    ensures |Place(r.group, r.policy, s, desired, Start(u), Ranked(r, s, u)).replicas| <= desired
    ensures |Place(r.group, r.policy, s, desired, Start(u), Ranked(r, s, u)).replicas| == desired
            <==> exists ds :: Selection(r, s, desired, ds)
  {
    hide Ranked, Place, SelectionBeside, Selection, MaxPerDpu;
    PlacementComplete(r, s, u, desired);
    forall ds ensures SelectionBeside(r, s, u, desired, ds) <==> Selection(r, s, desired, ds) { SelectionFirst(r, s, u, desired, ds); }
  }

  lemma PoolIsRanked(r: Request, s: Service, u: Usage, d: Dpu)
    requires Distinct(DpuIds(r.dpus)) && u.owner == Owners(r.grants)
    ensures d in Pool(r, s) <==> OfCandidate(d, Ranked(r, s, u))
  {
    hide Ranked;
    hide Admissible;
    hide Score;
    RankedExact(r, s, u);
    EligibleExact(d, s, r.policy, r.now);
    if d in Pool(r, s) {
      assert Candidate(d, ScoreOf(r, s, u, d)) in Ranked(r, s, u);
    }
  }

  // ---------------------------------------------------------------------
  // The theorem, on the planner itself.
  // ---------------------------------------------------------------------

  lemma SingleOrder(r: Request, entry: ReplicaIntent)
    requires r.intent.services == [entry] && Validation(r) == Nominal && WellBuilt(r.edges)
    ensures OrderFor(r) == Some([entry.service])
    ensures FindService(r.services, entry.service).Some?
    ensures FindService(r.services, entry.service).value.id == entry.service
    ensures Desired(r.intent.services, entry.service) == entry.desired
  {
    OrderForExact(r);
    var order := OrderFor(r).value;
    assert IntentServices(r) == [entry.service];
    assert entry.service in order;
    FoundService(r.services, entry.service);
    SetBound(order, [entry.service]);
    var k :| 0 <= k < |order| && order[k] == entry.service;
    assert order == [entry.service];
  }

  lemma SinglePlaced(r: Request, entry: ReplicaIntent)
    requires r.intent.services == [entry] && Validation(r) == Nominal && WellBuilt(r.edges)
    ensures FindService(r.services, entry.service).Some?
    ensures var s := FindService(r.services, entry.service).value;
      s.id == entry.service && Desired(r.intent.services, s.id) == entry.desired
      && Placed(r) == PlaceService(r, s, Progress(StartUsage(r), [], Nominal))
  {
    SingleOrder(r, entry);
    hide Validation;
    hide OrderFor;
    hide PlaceService;
    hide FindService;
    var s := FindService(r.services, entry.service).value;
    var p := Progress(StartUsage(r), [], Nominal);
    assert [entry.service][1..] == [];
    assert PlaceServices(r, [entry.service], p) == PlaceServices(r, [], PlaceService(r, s, p));
  }

  /** The refusal for want of devices, in both of its forms. */
  predicate NoRoom(o: PlanOutcome) {
    o == Infeasible(NoEligibleDpu) || o == Infeasible(InsufficientEligibleDpus)
  }

  /** A valid single-service intent is refused for want of devices exactly when no
      selection of the desired size exists, whatever the scores. */
  lemma GreedyComplete(r: Request, entry: ReplicaIntent)
    requires r.intent.services == [entry] && Validation(r) == Nominal && WellBuilt(r.edges)
    requires Distinct(DpuIds(r.dpus)) && AntiAffinityStatus(r.group.antiAffinity) == Nominal
    ensures FindService(r.services, entry.service).Some?
    ensures var s := FindService(r.services, entry.service).value;
      && (NoRoom(BuildPlan(r)) <==> !exists ds :: Selection(r, s, entry.desired, ds))
      && (BuildPlan(r) == Infeasible(NoEligibleDpu) <==> Pool(r, s) == {} && entry.desired > 0)
  {
    SinglePlaced(r, entry);
    var s := FindService(r.services, entry.service).value;
    var u := StartUsage(r);
    FirstPlacement(r, s, u, entry.desired);
    SingleOutcome(r, s, entry.desired);
    hide *;
    PoolEmpty(r, s, u);
  }

  lemma PoolEmpty(r: Request, s: Service, u: Usage)
    requires Distinct(DpuIds(r.dpus)) && u.owner == Owners(r.grants)
    ensures Pool(r, s) == {} <==> Ranked(r, s, u) == []
  {
    hide Pool;
    hide Ranked;
    forall d ensures d in Pool(r, s) <==> OfCandidate(d, Ranked(r, s, u)) { PoolIsRanked(r, s, u, d); }
    if Ranked(r, s, u) != [] {
      assert Ranked(r, s, u)[0] in Ranked(r, s, u);
      assert Ranked(r, s, u)[0].dpu in Pool(r, s);
    }
  }

  lemma SingleOutcome(r: Request, s: Service, desired: nat)
    requires Validation(r) == Nominal && desired == Desired(r.intent.services, s.id)
    requires Placed(r) == PlaceService(r, s, Progress(StartUsage(r), [], Nominal))
    ensures var cs := Ranked(r, s, StartUsage(r));
      var placed := |Place(r.group, r.policy, s, desired, Start(StartUsage(r)), cs).replicas|;
      && (NoRoom(BuildPlan(r)) <==> placed < desired)
      && (BuildPlan(r) == Infeasible(NoEligibleDpu) <==> placed < desired && cs == [])
      && (cs == [] ==> placed == 0)
  {
  }

  // ---------------------------------------------------------------------
  // Any number of services.
  // ---------------------------------------------------------------------

  /** How far the plan is before the service at position `k` of the order. */
  function PlacedBefore(r: Request, order: seq<Id>, k: nat): Progress
    requires k <= |order|
  {
    PlaceServices(r, order[..k], Progress(StartUsage(r), [], Nominal))
  }

  /** The service at position `k` finds devices beside those before it. */
  ghost predicate FindsRoom(r: Request, order: seq<Id>, k: nat)
    requires k < |order|
  {
    var s := FindService(r.services, order[k]);
    s.Some? && HasSelection(r, s.value, PlacedBefore(r, order, k).usage, Desired(r.intent.services, s.value.id))
  }

  lemma {:induction false} PlaceSnoc(r: Request, order: seq<Id>, id: Id, p: Progress)
    ensures var q := PlaceServices(r, order, p);
      var s := FindService(r.services, id);
      PlaceServices(r, order + [id], p) == if s.Some? then PlaceService(r, s.value, q) else q
    decreases |order|
  {
    hide FindService, PlaceService;
    if order == [] {
      assert [] + [id] == [id] && [id][1..] == [];
      var s := FindService(r.services, id);
      var q := if s.Some? then PlaceService(r, s.value, p) else p;
      assert PlaceServices(r, [], q) == q;
    } else {
      var s := FindService(r.services, order[0]);
      var q := if s.Some? then PlaceService(r, s.value, p) else p;
      assert (order + [id])[0] == order[0] && (order + [id])[1..] == order[1..] + [id];
      PlaceSnoc(r, order[1..], id, q);
    }
  }

  /** A service fails with one of the two codes, or leaves the verdict as it was. */
  lemma ServiceVerdict(r: Request, s: Service, p: Progress)
    requires Distinct(DpuIds(r.dpus))
    ensures var q := PlaceService(r, s, p);
      if HasSelection(r, s, p.usage, Desired(r.intent.services, s.id)) then q.failure == p.failure
      else q.failure == NoEligibleDpu || q.failure == InsufficientEligibleDpus
  {
    hide Ranked, Place, HasSelection, Desired;
    PlacementComplete(r, s, p.usage, Desired(r.intent.services, s.id));
  }

  lemma BeforeNext(r: Request, order: seq<Id>, k: nat)
    requires k < |order| && FindService(r.services, order[k]).Some?
    ensures PlacedBefore(r, order, k + 1) == PlaceService(r, FindService(r.services, order[k]).value, PlacedBefore(r, order, k))
  {
    hide PlaceServices, PlaceService, FindService, StartUsage;
    assert order[..k + 1] == order[..k] + [order[k]];
    PlaceSnoc(r, order[..k], order[k], Progress(StartUsage(r), [], Nominal));
  }

  predicate Judged(f: Reason, placed: bool) {
    if placed then f == Nominal else f == NoEligibleDpu || f == InsufficientEligibleDpus
  }

  ghost predicate AllFind(r: Request, order: seq<Id>, k: nat)
    requires k <= |order|
  {
    forall i :: 0 <= i < k ==> FindsRoom(r, order, i)
  }

  lemma VerdictNext(r: Request, order: seq<Id>, k: nat)
    requires k < |order| && Distinct(DpuIds(r.dpus)) && FindService(r.services, order[k]).Some?
    requires Judged(PlacedBefore(r, order, k).failure, AllFind(r, order, k))
    ensures Judged(PlacedBefore(r, order, k + 1).failure, AllFind(r, order, k) && FindsRoom(r, order, k))
  {
    hide PlaceService, FindService, HasSelection, PlacedBefore, AllFind, Desired;
    BeforeNext(r, order, k);
    ServiceVerdict(r, FindService(r.services, order[k]).value, PlacedBefore(r, order, k));
  }

  lemma {:induction false} VerdictSoFar(r: Request, order: seq<Id>, k: nat)
    requires k <= |order| && Distinct(DpuIds(r.dpus)) && forall id :: id in order ==> FindService(r.services, id).Some?
    ensures Judged(PlacedBefore(r, order, k).failure, AllFind(r, order, k))
    decreases k
  {
    hide PlaceService, FindService, FindsRoom, StartUsage, Judged;
    if k == 0 {
      assert order[..0] == [];
      NoneYet(r, order);
    } else {
      VerdictSoFar(r, order, k - 1);
      assert order[k - 1] in order;
      VerdictNext(r, order, k - 1);
      assert AllFind(r, order, k) <==> AllFind(r, order, k - 1) && FindsRoom(r, order, k - 1);
    }
  }

  lemma NoneYet(r: Request, order: seq<Id>)
    ensures Judged(PlacedBefore(r, order, 0).failure, AllFind(r, order, 0))
  {
    hide PlaceService, StartUsage;
    assert order[..0] == [];
  }

  /** A valid intent of any number of services is refused for want of devices exactly when
      some service, taken in order, has no selection beside those before it. */
  lemma RoomExactly(r: Request)
    requires Validation(r) == Nominal && WellBuilt(r.edges) && Distinct(DpuIds(r.dpus))
    ensures NoRoom(BuildPlan(r)) <==> exists k :: 0 <= k < |OrderFor(r).value| && !FindsRoom(r, OrderFor(r).value, k)
  {
    hide PlaceServices, FindsRoom, FindService, RolloutOrder, Stages;
    OrderForExact(r);
    hide OrderOf, Nodes, Induced, Canonical, Rejected, Unsatisfied;
    var order := OrderFor(r).value;
    VerdictSoFar(r, order, |order|);
    assert order[..|order|] == order;
  }
}
