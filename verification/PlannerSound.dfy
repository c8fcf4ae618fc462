/** Feasible plans are sound: exact replica counts, eligible distinct devices,
    caps, resources, ownership and staging. */
module PlannerSound {
  import opened Base
  import opened Order
  import opened Model
  import opened Eligibility
  import opened DependencyGraph
  import opened Planner

  // ---------------------------------------------------------------------
  // Totals read off the plan itself.
  // ---------------------------------------------------------------------

  function CountOn(rs: seq<Replica>, dpu: Id): nat {
    if rs == [] then 0 else CountOn(rs[..|rs| - 1], dpu) + (if rs[|rs| - 1].dpu == dpu then 1 else 0)
  }

  function CountIn(rs: seq<Replica>, domain: Id): nat {
    if rs == [] then 0 else CountIn(rs[..|rs| - 1], domain) + (if rs[|rs| - 1].domain == domain then 1 else 0)
  }

  function Add(a: Resources, b: Resources): Resources {
    Resources(a.cpu + b.cpu, a.memory + b.memory, a.network + b.network, a.crypto + b.crypto, a.storage + b.storage)
  }

  /** Resources the listed replicas take from one device. */
  function LoadOf(rs: seq<Replica>, dpu: Id, each: Resources): Resources {
    if rs == [] then NO_RESOURCES
    else
      var rest := LoadOf(rs[..|rs| - 1], dpu, each);
      if rs[|rs| - 1].dpu == dpu then Add(rest, each) else rest
  }

  function OnDpu(plans: seq<ServicePlan>, dpu: Id): nat {
    if plans == [] then 0 else OnDpu(plans[..|plans| - 1], dpu) + CountOn(plans[|plans| - 1].replicas, dpu)
  }

  function InDomain(plans: seq<ServicePlan>, domain: Id): nat {
    if plans == [] then 0 else InDomain(plans[..|plans| - 1], domain) + CountIn(plans[|plans| - 1].replicas, domain)
  }

  function ResourcesOf(services: seq<Service>, id: Id): Resources {
    var s := FindService(services, id);
    if s.Some? then s.value.resources else NO_RESOURCES
  }

  function Load(services: seq<Service>, plans: seq<ServicePlan>, dpu: Id): Resources {
    if plans == [] then NO_RESOURCES
    else
      var p := plans[|plans| - 1];
      Add(Load(services, plans[..|plans| - 1], dpu), LoadOf(p.replicas, dpu, ResourcesOf(services, p.service)))
  }

  // ---------------------------------------------------------------------
  // One service: what greedy placement keeps, device by device.
  // ---------------------------------------------------------------------

  lemma {:induction false} PlaceCountsDpu(g: Group, p: Policy, s: Service, desired: nat, a: Placing, cs: seq<Candidate>, dpu: Id)
    ensures var done := Place(g, p, s, desired, a, cs);
      && Count(done.usage.onDpu, dpu) - CountOn(done.replicas, dpu) == Count(a.usage.onDpu, dpu) - CountOn(a.replicas, dpu)
      && (Count(a.usage.onDpu, dpu) <= MaxPerDpu(g, p) ==> Count(done.usage.onDpu, dpu) <= MaxPerDpu(g, p))
    decreases |cs|
  {
    if cs != [] && |a.replicas| < desired {
      var b := Consider(g, p, s, a, cs[0]);
      if Allowed(g, p, s, a, cs[0].dpu) { assert b.replicas[..|a.replicas|] == a.replicas; }
      PlaceCountsDpu(g, p, s, desired, b, cs[1..], dpu);
    }
  }

  lemma {:induction false} PlaceCountsDomain(g: Group, p: Policy, s: Service, desired: nat, a: Placing, cs: seq<Candidate>, domain: Id)
    ensures var done := Place(g, p, s, desired, a, cs);
      && Count(done.usage.inDomain, domain) - CountIn(done.replicas, domain)
           == Count(a.usage.inDomain, domain) - CountIn(a.replicas, domain)
      && Count(done.domains, domain) - CountIn(done.replicas, domain) == Count(a.domains, domain) - CountIn(a.replicas, domain)
      && (g.antiAffinity.maxPerDomain.Some? && Count(a.usage.inDomain, domain) <= g.antiAffinity.maxPerDomain.value ==>
            Count(done.usage.inDomain, domain) <= g.antiAffinity.maxPerDomain.value)
      && (g.antiAffinity.distinctDomains && Count(a.domains, domain) <= 1 ==> Count(done.domains, domain) <= 1)
    decreases |cs|
  {
    if cs != [] && |a.replicas| < desired {
      var b := Consider(g, p, s, a, cs[0]);
      if Allowed(g, p, s, a, cs[0].dpu) { assert b.replicas[..|a.replicas|] == a.replicas; }
      PlaceCountsDomain(g, p, s, desired, b, cs[1..], domain);
    }
  }

  /** Identities name devices. */
  ghost predicate NamesDevices(cs: seq<Candidate>, d: Dpu) {
    forall c :: c in cs && c.dpu.id == d.id ==> c.dpu == d
  }

  /** What a device has left plus what was placed on it never changes. */
  lemma {:induction false} PlaceConserves(g: Group, p: Policy, s: Service, desired: nat, a: Placing, cs: seq<Candidate>, d: Dpu)
    requires NamesDevices(cs, d)
    ensures var done := Place(g, p, s, desired, a, cs);
      Add(LoadOf(done.replicas, d.id, s.resources), FreeOn(done.usage, d))
        == Add(LoadOf(a.replicas, d.id, s.resources), FreeOn(a.usage, d))
    decreases |cs|
  {
    if cs != [] && |a.replicas| < desired {
      var b := Consider(g, p, s, a, cs[0]);
      assert cs[0] in cs;
      if Allowed(g, p, s, a, cs[0].dpu) { assert b.replicas[..|a.replicas|] == a.replicas; }
      assert NamesDevices(cs[1..], d);
      PlaceConserves(g, p, s, desired, b, cs[1..], d);
    }
  }

  ghost predicate FromCandidate(x: Replica, cs: seq<Candidate>) {
    exists c :: c in cs && x.dpu == c.dpu.id && x.attachment == c.dpu.attachment && x.domain == c.dpu.domain
                && x.score == c.score
  }

  function CandidateId(c: Candidate): Id { c.dpu.id }
  function ReplicaDpu(x: Replica): Id { x.dpu }

  ghost predicate FreshFor(a: Placing, cs: seq<Candidate>) {
    && Distinct(Map(CandidateId, cs))
    && Distinct(Map(ReplicaDpu, a.replicas))
    && (forall x, c :: x in a.replicas && c in cs ==> x.dpu != c.dpu.id)
    && (forall i :: 0 <= i < |a.replicas| ==> a.replicas[i].index == i)
  }

  lemma ConsiderFresh(g: Group, p: Policy, s: Service, a: Placing, cs: seq<Candidate>)
    requires cs != [] && FreshFor(a, cs)
    ensures FreshFor(Consider(g, p, s, a, cs[0]), cs[1..])
  {
    var b := Consider(g, p, s, a, cs[0]);
    assert Map(CandidateId, cs)[1..] == Map(CandidateId, cs[1..]);
    assert cs[0] in cs;
    forall c | c in cs[1..] ensures c in cs && c.dpu.id != cs[0].dpu.id {
      var j :| 1 <= j < |cs| && cs[j] == c;
      assert Map(CandidateId, cs)[0] != Map(CandidateId, cs)[j];
    }
    if Allowed(g, p, s, a, cs[0].dpu) {
      assert Map(ReplicaDpu, b.replicas) == Map(ReplicaDpu, a.replicas) + [cs[0].dpu.id];
      forall i | 0 <= i < |a.replicas| ensures Map(ReplicaDpu, a.replicas)[i] != cs[0].dpu.id {
        assert a.replicas[i] in a.replicas;
      }
    }
  }

  /** Replicas are numbered, sit on distinct devices, and come from the candidates. */
  lemma {:induction false} PlaceFresh(g: Group, p: Policy, s: Service, desired: nat, a: Placing, cs: seq<Candidate>)
    requires FreshFor(a, cs)
    ensures var done := Place(g, p, s, desired, a, cs);
      && FreshFor(done, [])
      && (forall x :: x in done.replicas ==> x in a.replicas || FromCandidate(x, cs))
      && |a.replicas| <= |done.replicas| <= Max(desired, |a.replicas|)
    decreases |cs|
  {
    if cs != [] && |a.replicas| < desired {
      var b := Consider(g, p, s, a, cs[0]);
      ConsiderFresh(g, p, s, a, cs);
      PlaceFresh(g, p, s, desired, b, cs[1..]);
      var done := Place(g, p, s, desired, a, cs);
      assert cs[0] in cs;
      forall x | x in done.replicas && x !in a.replicas ensures FromCandidate(x, cs) {
        if x in b.replicas {
          assert x == b.replicas[|a.replicas|];
        } else {
          var c :| c in cs[1..] && x.dpu == c.dpu.id && x.attachment == c.dpu.attachment
                   && x.domain == c.dpu.domain && x.score == c.score;
          assert c in cs;
        }
      }
    }
  }

  /** Ownership only grows, and every replica of a scoped service is recorded. */
  lemma {:induction false} PlaceOwners(g: Group, p: Policy, s: Service, desired: nat, a: Placing, cs: seq<Candidate>)
    requires forall c :: c in cs ==> ScopeFree(s, a.usage.owner, c.dpu.id)
    requires s.scope.Some? ==> forall x :: x in a.replicas ==> HeldBy(a.usage.owner, x.dpu, s.scope.value)
    ensures var done := Place(g, p, s, desired, a, cs);
      && OwnersExtend(a.usage.owner, done.usage.owner)
      && (s.scope.Some? ==> forall x :: x in done.replicas ==> HeldBy(done.usage.owner, x.dpu, s.scope.value))
    decreases |cs|
  {
    if cs != [] && |a.replicas| < desired {
      var b := Consider(g, p, s, a, cs[0]);
      assert cs[0] in cs;
      forall c | c in cs[1..] ensures ScopeFree(s, b.usage.owner, c.dpu.id) { assert c in cs; }
      PlaceOwners(g, p, s, desired, b, cs[1..]);
    }
  }

  ghost predicate HeldBy(owner: map<Id, Id>, dpu: Id, scope: Id) { dpu in owner && owner[dpu] == scope }

  ghost predicate OwnersExtend(a: map<Id, Id>, b: map<Id, Id>) {
    forall k :: k in a ==> k in b && b[k] == a[k]
  }

  // ---------------------------------------------------------------------
  // Candidates are exactly the selectable devices.
  // ---------------------------------------------------------------------

  function ScoreOf(r: Request, s: Service, u: Usage, d: Dpu): nat {
    Score(d, s, Count(u.onDpu, d.id), Count(u.inDomain, d.domain), r.weights)
  }

  lemma {:induction false} CandidatesExact(r: Request, s: Service, u: Usage, devices: seq<Dpu>, c: Candidate)
    ensures c in Candidates(r, s, u, devices) <==>
            c.dpu in devices && Selectable(r, s, u, c.dpu) && c.score == ScoreOf(r, s, u, c.dpu)
  {
    hide Selectable;
    hide Score;
    if devices != [] {
      var n := |devices| - 1;
      CandidatesExact(r, s, u, devices[..n], c);
      assert devices == devices[..n] + [devices[n]];
    }
  }

  lemma {:induction false} CandidatesDistinct(r: Request, s: Service, u: Usage, devices: seq<Dpu>)
    requires Distinct(DpuIds(devices))
    ensures Distinct(Map(CandidateId, Candidates(r, s, u, devices)))
  {
    hide Selectable;
    hide Score;
    if devices != [] {
      var n := |devices| - 1;
      var rest := Candidates(r, s, u, devices[..n]);
      assert DpuIds(devices[..n]) == DpuIds(devices)[..n];
      CandidatesDistinct(r, s, u, devices[..n]);
      forall i | 0 <= i < |rest| ensures Map(CandidateId, rest)[i] != devices[n].id {
        assert rest[i] in rest;
        CandidatesExact(r, s, u, devices[..n], rest[i]);
        var j :| 0 <= j < n && devices[..n][j] == rest[i].dpu;
        assert DpuIds(devices)[j] != DpuIds(devices)[n];
      }
      var cs := Candidates(r, s, u, devices);
      assert cs != rest ==> Map(CandidateId, cs) == Map(CandidateId, rest) + [devices[n].id];
    }
  }

  lemma RankedExact(r: Request, s: Service, u: Usage)
    requires Distinct(DpuIds(r.dpus))
    ensures Distinct(Map(CandidateId, Ranked(r, s, u)))
    ensures forall c :: c in Ranked(r, s, u) <==>
              c.dpu in r.dpus && Selectable(r, s, u, c.dpu) && c.score == ScoreOf(r, s, u, c.dpu)
  {
    var devices := Sort(r.dpus, DpuLess);
    SortKeeps(r.dpus, DpuLess);
    MapPermutes(DpuId, devices, r.dpus);
    PermutationDistinct(DpuIds(devices), DpuIds(r.dpus));
    var cs := Candidates(r, s, u, devices);
    CandidatesDistinct(r, s, u, devices);
    SortKeeps(cs, CandidateLess);
    MapPermutes(CandidateId, Ranked(r, s, u), cs);
    PermutationDistinct(Map(CandidateId, Ranked(r, s, u)), Map(CandidateId, cs));
    forall c ensures c in Ranked(r, s, u) <==>
              c.dpu in r.dpus && Selectable(r, s, u, c.dpu) && c.score == ScoreOf(r, s, u, c.dpu)
    {
      CandidatesExact(r, s, u, devices, c);
    }
  }

  // ---------------------------------------------------------------------
  // All services: what the running totals mean.
  // ---------------------------------------------------------------------

  ghost predicate UsageTallied(r: Request, p: Progress) {
    && (forall dpu :: Count(p.usage.onDpu, dpu) == OnDpu(p.plans, dpu))
    && (forall domain :: Count(p.usage.inDomain, domain) == InDomain(p.plans, domain))
  }

  ghost predicate WithinCaps(r: Request, plans: seq<ServicePlan>) {
    && (forall dpu :: OnDpu(plans, dpu) <= MaxPerDpu(r.group, r.policy))
    && (r.group.antiAffinity.maxPerDomain.Some? ==>
          forall domain :: InDomain(plans, domain) <= r.group.antiAffinity.maxPerDomain.value)
  }

  ghost predicate Conserved(r: Request, p: Progress) {
    forall d :: d in r.dpus ==> Add(Load(r.services, p.plans, d.id), FreeOn(p.usage, d)) == HeadroomOrNone(d)
  }

  ghost predicate OnAdmissible(r: Request, s: Service, x: Replica) {
    exists d :: d in r.dpus && d.id == x.dpu && d.attachment == x.attachment && d.domain == x.domain
                && Admissible(d, s, r.policy, r.now)
  }

  /** One service's share of the plan, apart from having found every replica. */
  ghost predicate ServicePlanOk(r: Request, sp: ServicePlan) {
    var s := FindService(r.services, sp.service);
    && s.Some? && sp.version == s.value.version
    && sp.desired == Desired(r.intent.services, sp.service)
    && sp.placed == |sp.replicas| <= sp.desired
    && (forall i :: 0 <= i < |sp.replicas| ==> sp.replicas[i].index == i)
    && Distinct(Map(ReplicaDpu, sp.replicas))
    && (forall x :: x in sp.replicas ==> OnAdmissible(r, s.value, x))
    && (r.group.antiAffinity.distinctDomains ==> forall domain :: CountIn(sp.replicas, domain) <= 1)
  }

  /** Every replica of a scoped service is recorded under its scope. */
  ghost predicate Recorded(r: Request, owner: map<Id, Id>, sp: ServicePlan) {
    var s := FindService(r.services, sp.service);
    s.Some? && s.value.scope.Some? ==> forall x :: x in sp.replicas ==> HeldBy(owner, x.dpu, s.value.scope.value)
  }

  function PlanService(sp: ServicePlan): Id { sp.service }

  ghost predicate PlansOk(r: Request, done: seq<Id>, p: Progress) {
    && Map(PlanService, p.plans) == done
    && (forall sp :: sp in p.plans ==> ServicePlanOk(r, sp) && Recorded(r, p.usage.owner, sp))
    && OwnersExtend(Owners(r.grants), p.usage.owner)
    && (p.failure == Nominal ==> forall sp :: sp in p.plans ==> sp.placed == sp.desired)
  }

  lemma FoundService(services: seq<Service>, id: Id)
    requires FindService(services, id).Some?
    ensures FindService(services, id).value.id == id
  {
    var k := IndexOf(Map(ServiceIdOf, services), id);
    assert Map(ServiceIdOf, services)[k] == id;
  }

  /** The placement one call of `PlaceService` performs. */
  function Outcome1(r: Request, s: Service, p: Progress): Placing {
    Place(r.group, r.policy, s, Desired(r.intent.services, s.id), Placing([], p.usage, map[]), Ranked(r, s, p.usage))
  }

  lemma PlaceServiceTallies(r: Request, s: Service, p: Progress)
    requires UsageTallied(r, p) && WithinCaps(r, p.plans)
    ensures UsageTallied(r, PlaceService(r, s, p)) && WithinCaps(r, PlaceService(r, s, p).plans)
  {
    hide Ranked;
    hide Place;
    hide FindService;
    hide MaxPerDpu;
    var q := PlaceService(r, s, p);
    var done := Outcome1(r, s, p);
    var start := Placing([], p.usage, map[]);
    var cs := Ranked(r, s, p.usage);
    var desired := Desired(r.intent.services, s.id);
    assert q.plans[..|p.plans|] == p.plans && q.usage == done.usage;
    forall dpu
      ensures Count(q.usage.onDpu, dpu) == OnDpu(q.plans, dpu) <= MaxPerDpu(r.group, r.policy)
    {
      PlaceCountsDpu(r.group, r.policy, s, desired, start, cs, dpu);
    }
    forall domain
      ensures Count(q.usage.inDomain, domain) == InDomain(q.plans, domain)
      ensures r.group.antiAffinity.maxPerDomain.Some? ==>
                InDomain(q.plans, domain) <= r.group.antiAffinity.maxPerDomain.value
    {
      PlaceCountsDomain(r.group, r.policy, s, desired, start, cs, domain);
    }
  }

  lemma RankedNames(r: Request, s: Service, u: Usage, d: Dpu)
    requires Distinct(DpuIds(r.dpus)) && d in r.dpus
    ensures NamesDevices(Ranked(r, s, u), d)
  {
    hide Ranked;
    hide Selectable;
    RankedExact(r, s, u);
    forall c | c in Ranked(r, s, u) && c.dpu.id == d.id ensures c.dpu == d { SameDevice(r.dpus, c.dpu, d); }
  }

  lemma PlaceServiceConserves(r: Request, s: Service, p: Progress)
    requires Distinct(DpuIds(r.dpus)) && FindService(r.services, s.id) == Some(s) && Conserved(r, p)
    ensures Conserved(r, PlaceService(r, s, p))
  {
    hide Ranked;
    hide Place;
    hide FindService;
    hide FreeOn;
    hide HeadroomOrNone;
    var q := PlaceService(r, s, p);
    assert q.plans[..|p.plans|] == p.plans;
    forall d | d in r.dpus
      ensures Add(Load(r.services, q.plans, d.id), FreeOn(q.usage, d)) == HeadroomOrNone(d)
    {
      RankedNames(r, s, p.usage, d);
      PlaceConserves(r.group, r.policy, s, Desired(r.intent.services, s.id), Placing([], p.usage, map[]),
                     Ranked(r, s, p.usage), d);
    }
  }

  lemma SameDevice(dpus: seq<Dpu>, a: Dpu, b: Dpu)
    requires Distinct(DpuIds(dpus)) && a in dpus && b in dpus && a.id == b.id
    ensures a == b
  {
    var i :| 0 <= i < |dpus| && dpus[i] == a;
    var j :| 0 <= j < |dpus| && dpus[j] == b;
    assert DpuIds(dpus)[i] == DpuIds(dpus)[j];
  }

  lemma NewServicePlanOk(r: Request, s: Service, p: Progress)
    requires Distinct(DpuIds(r.dpus)) && FindService(r.services, s.id) == Some(s)
    ensures var q := PlaceService(r, s, p);
      var sp := q.plans[|p.plans|];
      ServicePlanOk(r, sp) && Recorded(r, q.usage.owner, sp) && OwnersExtend(p.usage.owner, q.usage.owner)
  {
    hide Ranked;
    hide Place;
    hide FindService;
    hide Admissible;
    var desired := Desired(r.intent.services, s.id);
    var start := Placing([], p.usage, map[]);
    var cs := Ranked(r, s, p.usage);
    var done := Outcome1(r, s, p);
    RankedExact(r, s, p.usage);
    PlaceFresh(r.group, r.policy, s, desired, start, cs);
    PlaceOwners(r.group, r.policy, s, desired, start, cs);
    forall x | x in done.replicas ensures OnAdmissible(r, s, x) {
      var c :| c in cs && x.dpu == c.dpu.id && x.attachment == c.dpu.attachment && x.domain == c.dpu.domain
               && x.score == c.score;
      EligibleExact(c.dpu, s, r.policy, r.now);
    }
    forall domain
      ensures r.group.antiAffinity.distinctDomains ==> CountIn(done.replicas, domain) <= 1
    {
      PlaceCountsDomain(r.group, r.policy, s, desired, start, cs, domain);
    }
  }

  lemma PlaceServicePlans(r: Request, s: Service, done: seq<Id>, p: Progress)
    requires Distinct(DpuIds(r.dpus)) && FindService(r.services, s.id) == Some(s) && PlansOk(r, done, p)
    ensures PlansOk(r, done + [s.id], PlaceService(r, s, p))
  {
    hide ServicePlanOk;
    hide Ranked;
    hide Place;
    hide FindService;
    var q := PlaceService(r, s, p);
    NewServicePlanOk(r, s, p);
    assert Map(PlanService, q.plans) == Map(PlanService, p.plans) + [s.id];
    forall sp | sp in q.plans ensures ServicePlanOk(r, sp) && Recorded(r, q.usage.owner, sp) {
      if sp != q.plans[|p.plans|] { assert sp in p.plans; }
    }
    if q.failure == Nominal {
      PlaceFresh(r.group, r.policy, s, Desired(r.intent.services, s.id), Placing([], p.usage, map[]), Ranked(r, s, p.usage))
        by { RankedExact(r, s, p.usage); }
      forall sp | sp in q.plans ensures sp.placed == sp.desired {
        if sp != q.plans[|p.plans|] { assert sp in p.plans; }
      }
    }
  }

  ghost predicate ProgressOk(r: Request, done: seq<Id>, p: Progress) {
    PlansOk(r, done, p) && UsageTallied(r, p) && WithinCaps(r, p.plans) && Conserved(r, p)
  }

  lemma PlaceServiceOk(r: Request, s: Service, done: seq<Id>, p: Progress)
    requires Distinct(DpuIds(r.dpus)) && FindService(r.services, s.id) == Some(s) && ProgressOk(r, done, p)
    ensures ProgressOk(r, done + [s.id], PlaceService(r, s, p))
  {
    hide *;
    Unpack(r, done, p);
    PlaceServicePlans(r, s, done, p);
    PlaceServiceTallies(r, s, p);
    PlaceServiceConserves(r, s, p);
    Pack(r, done + [s.id], PlaceService(r, s, p));
  }

  lemma Unpack(r: Request, done: seq<Id>, p: Progress)
    requires ProgressOk(r, done, p)
    ensures PlansOk(r, done, p) && UsageTallied(r, p) && WithinCaps(r, p.plans) && Conserved(r, p)
  {
  }

  lemma Pack(r: Request, done: seq<Id>, p: Progress)
    requires PlansOk(r, done, p) && UsageTallied(r, p) && WithinCaps(r, p.plans) && Conserved(r, p)
    ensures ProgressOk(r, done, p)
  {
  }

  lemma {:induction false} PlaceServicesOk(r: Request, order: seq<Id>, done: seq<Id>, p: Progress)
    requires Distinct(DpuIds(r.dpus)) && ProgressOk(r, done, p)
    requires forall id :: id in order ==> FindService(r.services, id).Some?
    ensures ProgressOk(r, done + order, PlaceServices(r, order, p))
    decreases |order|
  {
    hide ProgressOk;
    hide FindService;
    hide PlaceService;
    if order == [] {
      assert done + order == done;
    } else {
      assert order[0] in order;
      FoundService(r.services, order[0]);
      var s := FindService(r.services, order[0]).value;
      PlaceServiceOk(r, s, done, p);
      PlaceServicesOk(r, order[1..], done + [order[0]], PlaceService(r, s, p));
      assert done + order == done + [order[0]] + order[1..];
    }
  }

  lemma StartOk(r: Request)
    ensures ProgressOk(r, [], Progress(StartUsage(r), [], Nominal))
  {
    var p := Progress(StartUsage(r), [], Nominal);
    StartPlans(r, p);
    StartTotals(r, p);
    hide PlansOk, UsageTallied, WithinCaps, Conserved;
  }

  lemma StartPlans(r: Request, p: Progress)
    requires p == Progress(StartUsage(r), [], Nominal)
    ensures PlansOk(r, [], p)
  {
    hide ServicePlanOk, Recorded, Owners;
  }

  lemma StartTotals(r: Request, p: Progress)
    requires p == Progress(StartUsage(r), [], Nominal)
    ensures UsageTallied(r, p) && WithinCaps(r, p.plans) && Conserved(r, p)
  {
    hide Owners, HeadroomOrNone, OnDpu, InDomain, Load, FreeOn, Add, MaxPerDpu, Count;
    forall id ensures OnDpu([], id) == 0 == Count(map[], id) && InDomain([], id) == 0 { NoneOn(id); }
    forall d | d in r.dpus ensures Add(Load(r.services, [], d.id), FreeOn(p.usage, d)) == HeadroomOrNone(d) {
      AllFree(r.services, p.usage, d);
    }
  }

  lemma NoneOn(id: Id)
    ensures OnDpu([], id) == 0 && InDomain([], id) == 0 && Count(map[], id) == 0
  {
  }

  lemma AllFree(services: seq<Service>, u: Usage, d: Dpu)
    requires u.remaining == map[]
    ensures Add(Load(services, [], d.id), FreeOn(u, d)) == HeadroomOrNone(d)
  {
    hide HeadroomOrNone;
  }

  /** The order the plan follows is the canonical dependency order of the intent. */
  lemma OrderForExact(r: Request)
    requires Validation(r) == Nominal && WellBuilt(r.edges)
    ensures var nodes := Nodes(IntentServices(r));
      Canonical(OrderFor(r).value, nodes, Induced(r.edges, nodes))
    ensures forall id :: id in OrderFor(r).value <==> id in IntentServices(r)
    ensures forall id :: id in OrderFor(r).value ==> FindService(r.services, id).Some?
  {
    var ids := IntentServices(r);
    NodesExact(ids);
    InducedProper(r.edges, Nodes(ids));
    KahnCanonical(Nodes(ids), Induced(r.edges, Nodes(ids)));
    forall id | id in ids ensures FindService(r.services, id).Some? {
      var i :| 0 <= i < |r.intent.services| && r.intent.services[i].service == id;
      assert EntryOk(r, r.intent.services[i]);
    }
  }

  // ---------------------------------------------------------------------
  // Staging.
  // ---------------------------------------------------------------------

  function StageIds(stages: seq<Stage>): seq<Id> {
    if stages == [] then [] else stages[0].instances + StageIds(stages[1..])
  }

  /** Stages are consecutive full batches, numbered, the last possibly shorter. */
  ghost predicate Batches(stages: seq<Stage>, batch: nat, first: nat) {
    && (forall i :: 0 <= i < |stages| ==> stages[i].index == first + i && 0 < |stages[i].instances| <= batch)
    && (forall i :: 0 <= i < |stages| - 1 ==> |stages[i].instances| == batch)
  }

  lemma {:induction false} StagesExact(ids: seq<Id>, batch: nat, maxUnavailable: nat, first: nat)
    requires batch > 0
    ensures var stages := Stages(ids, batch, maxUnavailable, first);
      && StageIds(stages) == ids
      && Batches(stages, batch, first)
      && (ids == [] <==> stages == [])
    decreases |ids|
  {
    if ids != [] {
      var k := Min(batch, |ids|);
      StagesExact(ids[k..], batch, maxUnavailable, first + 1);
      var stages := Stages(ids, batch, maxUnavailable, first);
      assert stages[1..] == Stages(ids[k..], batch, maxUnavailable, first + 1);
      assert ids == ids[..k] + ids[k..];
      forall i | 0 <= i < |stages| ensures stages[i].index == first + i && 0 < |stages[i].instances| <= batch {
        if i > 0 { assert stages[i] == stages[1..][i - 1]; }
      }
      forall i | 0 <= i < |stages| - 1 ensures |stages[i].instances| == batch {
        if i > 0 { assert stages[i] == stages[1..][i - 1]; }
      }
    }
  }

  // ---------------------------------------------------------------------
  // Ownership.
  // ---------------------------------------------------------------------

  lemma {:induction false} OwnersExact(grants: seq<Grant>, g: Grant)
    requires Distinct(Map(GrantDpu, grants)) && g in grants
    ensures HeldBy(Owners(grants), g.dpu, g.scope)
    ensures Owners(grants).Keys == set h | h in grants :: h.dpu
  {
    OwnersKeys(grants);
    var n := |grants| - 1;
    var init := grants[..n];
    assert grants == init + [grants[n]];
    assert Map(GrantDpu, init) == Map(GrantDpu, grants)[..n];
    OwnersKeys(init);
    if g in init {
      OwnersExact(init, g);
    }
    forall h | h in init ensures h.dpu != grants[n].dpu {
      var i :| 0 <= i < n && init[i] == h;
      assert Map(GrantDpu, grants)[i] != Map(GrantDpu, grants)[n];
    }
  }

  lemma {:induction false} OwnersKeys(grants: seq<Grant>)
    ensures Owners(grants).Keys == set h | h in grants :: h.dpu
  {
    if grants != [] {
      var n := |grants| - 1;
      OwnersKeys(grants[..n]);
      assert grants == grants[..n] + [grants[n]];
    }
  }

  /** The scope, if any, a planned service holds its devices under. */
  function ScopeOf(services: seq<Service>, id: Id): Option<Id> {
    var s := FindService(services, id);
    if s.Some? then s.value.scope else None
  }

  /** No device is planned for two scopes, nor for a scope other than its owner's. */
  ghost predicate SingleOwner(r: Request, plans: seq<ServicePlan>) {
    && (forall a, b, x, y | a in plans && b in plans && x in a.replicas && y in b.replicas ::
          SameScope(x.dpu == y.dpu, ScopeOf(r.services, a.service), ScopeOf(r.services, b.service)))
    && (forall a, x, g | a in plans && x in a.replicas && g in r.grants ::
          SameScope(g.dpu == x.dpu, ScopeOf(r.services, a.service), Some(g.scope)))
  }

  /** On one device, two scopes have to be the same scope. */
  ghost predicate SameScope(oneDevice: bool, a: Option<Id>, b: Option<Id>) {
    oneDevice && a.Some? && b.Some? ==> a == b
  }

  lemma PlansSingleOwner(r: Request, done: seq<Id>, p: Progress)
    requires PlansOk(r, done, p) && Distinct(Map(GrantDpu, r.grants))
    ensures SingleOwner(r, p.plans)
  {
    hide ServicePlanOk;
    forall a, x | a in p.plans && x in a.replicas && ScopeOf(r.services, a.service).Some?
      ensures HeldBy(p.usage.owner, x.dpu, ScopeOf(r.services, a.service).value)
    {
      assert Recorded(r, p.usage.owner, a);
    }
    forall g | g in r.grants ensures HeldBy(p.usage.owner, g.dpu, g.scope) {
      OwnersExact(r.grants, g);
    }
  }

  // ---------------------------------------------------------------------
  // The theorem.
  // ---------------------------------------------------------------------

  /** Services in canonical order, each fully placed, within caps and resources. */
  ghost predicate SoundServices(r: Request, order: seq<Id>, plans: seq<ServicePlan>) {
    && Map(PlanService, plans) == order
    && (forall sp :: sp in plans ==> ServicePlanOk(r, sp) && sp.placed == sp.desired)
    && WithinCaps(r, plans)
    && (forall d :: d in r.dpus ==> Covers(HeadroomOrNone(d), Load(r.services, plans, d.id)))
  }

  /** The stages partition the rollout order into numbered batches. */
  ghost predicate SoundStages(r: Request, plan: Plan) {
    && StageIds(plan.stages) == RolloutOrder(r, plan.services)
    && Batches(plan.stages, r.intent.staging.batchSize, 0)
    && |plan.stages| <= r.bounds.maxStages
  }

  lemma FinalProgress(r: Request)
    requires Distinct(DpuIds(r.dpus)) && WellBuilt(r.edges) && Validation(r) == Nominal
    ensures OrderFor(r).Some? && ProgressOk(r, OrderFor(r).value, Placed(r))
  {
    hide ProgressOk;
    hide WellBuilt;
    OrderForExact(r);
    hide Canonical;
    hide FindService;
    StartOk(r);
    PlaceServicesOk(r, OrderFor(r).value, [], Progress(StartUsage(r), [], Nominal));
    assert [] + OrderFor(r).value == OrderFor(r).value;
  }

  lemma ProgressSound(r: Request, order: seq<Id>, p: Progress)
    requires ProgressOk(r, order, p) && p.failure == Nominal
    ensures SoundServices(r, order, p.plans)
    ensures Distinct(Map(GrantDpu, r.grants)) ==> SingleOwner(r, p.plans)
  {
    hide ServicePlanOk;
    hide SingleOwner;
    hide FreeOn;
    forall d | d in r.dpus ensures Covers(HeadroomOrNone(d), Load(r.services, p.plans, d.id)) {
      assert Add(Load(r.services, p.plans, d.id), FreeOn(p.usage, d)) == HeadroomOrNone(d);
    }
    if Distinct(Map(GrantDpu, r.grants)) { PlansSingleOwner(r, order, p); }
  }

  /** Every feasible plan places every service exactly, on distinct eligible
      devices, within all caps and resources, never mixes owners, and stages the
      whole rollout. */
  lemma FeasiblePlanSound(r: Request)
    requires Distinct(DpuIds(r.dpus)) && WellBuilt(r.edges) && BuildPlan(r).Feasible?
    ensures OrderFor(r).Some? && SoundServices(r, OrderFor(r).value, BuildPlan(r).plan.services)
    ensures SoundStages(r, BuildPlan(r).plan)
    ensures Distinct(Map(GrantDpu, r.grants)) ==> SingleOwner(r, BuildPlan(r).plan.services)
  {
    FeasibleParts(r);
    hide *;
    FinalProgress(r);
    ProgressSound(r, OrderFor(r).value, Placed(r));
  }

  lemma FeasibleParts(r: Request)
    requires BuildPlan(r).Feasible?
    ensures Validation(r) == Nominal && Placed(r).failure == Nominal && BuildPlan(r).plan.services == Placed(r).plans
    ensures SoundStages(r, BuildPlan(r).plan)
  {
    hide PlaceServices;
    hide OrderFor;
    hide Rejected;
    hide Unsatisfied;
    var p := Placed(r);
    StagesExact(RolloutOrder(r, p.plans), r.intent.staging.batchSize, r.intent.staging.maxUnavailable, 0);
  }
}
