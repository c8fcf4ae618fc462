/** Planning reads recorded evidence only: the derived freshness flag of a device
    never influences a plan. */
module FreshBlind {
  import opened Base
  import opened Order
  import opened Model
  import opened Eligibility
  import opened DependencyGraph
  import opened Planner

  /** The device without its derived freshness. */
  function Dim(d: Dpu): Dpu { d.(healthFresh := false) }

  function DimAll(dpus: seq<Dpu>): seq<Dpu> { Map(Dim, dpus) }

  function DimCandidate(c: Candidate): Candidate { Candidate(Dim(c.dpu), c.score) }

  function DimRequest(r: Request): Request { r.(dpus := DimAll(r.dpus)) }

  lemma DeviceBlind(d: Dpu, policy: Policy, now: nat)
    ensures EvidenceFinding(Dim(d), policy, now) == EvidenceFinding(d, policy, now)
    ensures DeviceFindings(Dim(d), policy, now) == DeviceFindings(d, policy, now)
  {
  }

  lemma ProfileBlind(d: Dpu, known: bool, s: Service, policy: Policy)
    ensures ProfileFindings(Dim(d), known, s.compatibility) == ProfileFindings(d, known, s.compatibility)
    ensures IsolationFindings(Dim(d), known, s.compatibility.isolation) == IsolationFindings(d, known, s.compatibility.isolation)
    ensures ScopeFindings(Dim(d), known, s, policy) == ScopeFindings(d, known, s, policy)
  {
  }

  lemma CapacityBlind(d: Dpu, known: bool, s: Service)
    ensures CapacityFinding(Dim(d), known, s) == CapacityFinding(d, known, s)
    ensures CapabilityFindings(Dim(d), known, s.compatibility.capabilities) == CapabilityFindings(d, known, s.compatibility.capabilities)
  {
    hide Headroom, Covers;
  }

  lemma EvaluateBlind(d: Dpu, s: Service, policy: Policy, now: nat)
    ensures Evaluate(Dim(d), s, policy, now) == Evaluate(d, s, policy, now)
  {
    hide EvidenceFinding, DeviceFindings, ProfileFindings, IsolationFindings, ScopeFindings, CapacityFinding, CapabilityFindings;
    hide Primary, Some3;
    var known := EvidenceFinding(d, policy, now).None?;
    DeviceBlind(d, policy, now);
    ProfileBlind(d, known, s, policy);
    CapacityBlind(d, known, s);
  }

  lemma SelectBlind(r: Request, s: Service, u: Usage, d: Dpu)
    ensures Selectable(DimRequest(r), s, u, Dim(d)) == Selectable(r, s, u, d)
    ensures Score(Dim(d), s, Count(u.onDpu, d.id), Count(u.inDomain, d.domain), r.weights)
         == Score(d, s, Count(u.onDpu, d.id), Count(u.inDomain, d.domain), r.weights)
  {
    EvaluateBlind(d, s, r.policy, r.now);
    hide Evaluate, HeadroomPermille, Headroom;
  }

  lemma {:induction false} CandidatesBlind(r: Request, s: Service, u: Usage, devices: seq<Dpu>)
    ensures Candidates(DimRequest(r), s, u, DimAll(devices)) == Map(DimCandidate, Candidates(r, s, u, devices))
  {
    hide Selectable, Score;
    if devices != [] {
      var n := |devices| - 1;
      assert DimAll(devices)[..n] == DimAll(devices[..n]);
      CandidatesBlind(r, s, u, devices[..n]);
      SelectBlind(r, s, u, devices[n]);
    }
  }

  lemma RankedBlind(r: Request, s: Service, u: Usage)
    ensures Ranked(DimRequest(r), s, u) == Map(DimCandidate, Ranked(r, s, u))
  {
    forall d | d in r.dpus ensures Agrees(d, r.dpus, Dim, DpuLess, DpuLess) { }
    SortMaps(r.dpus, Dim, DpuLess, DpuLess);
    var devices := Sort(r.dpus, DpuLess);
    CandidatesBlind(r, s, u, devices);
    var cs := Candidates(r, s, u, devices);
    hide Sort, Candidates;
    forall c | c in cs ensures Agrees(c, cs, DimCandidate, CandidateLess, CandidateLess) { }
    SortMaps(cs, DimCandidate, CandidateLess, CandidateLess);
  }

  lemma ConsiderBlind(g: Group, p: Policy, s: Service, a: Placing, c: Candidate)
    ensures Consider(g, p, s, a, DimCandidate(c)) == Consider(g, p, s, a, c)
  {
    hide Covers, Subtract;
  }

  lemma {:induction false} PlaceBlind(g: Group, p: Policy, s: Service, desired: nat, a: Placing, cs: seq<Candidate>)
    ensures Place(g, p, s, desired, a, Map(DimCandidate, cs)) == Place(g, p, s, desired, a, cs)
    decreases |cs|
  {
    hide Consider;
    if cs != [] && |a.replicas| < desired {
      ConsiderBlind(g, p, s, a, cs[0]);
      assert Map(DimCandidate, cs)[1..] == Map(DimCandidate, cs[1..]);
      PlaceBlind(g, p, s, desired, Consider(g, p, s, a, cs[0]), cs[1..]);
    }
  }

  lemma PlaceServiceBlind(r: Request, s: Service, p: Progress)
    ensures PlaceService(DimRequest(r), s, p) == PlaceService(r, s, p)
  {
    hide Ranked, Place;
    RankedBlind(r, s, p.usage);
    PlaceBlind(r.group, r.policy, s, Desired(r.intent.services, s.id), Placing([], p.usage, map[]), Ranked(r, s, p.usage));
  }

  lemma {:induction false} PlaceServicesBlind(r: Request, order: seq<Id>, p: Progress)
    ensures PlaceServices(DimRequest(r), order, p) == PlaceServices(r, order, p)
    decreases |order|
  {
    hide PlaceService, FindService;
    if order != [] {
      var s := FindService(r.services, order[0]);
      if s.Some? { PlaceServiceBlind(r, s.value, p); }
      PlaceServicesBlind(r, order[1..], if s.Some? then PlaceService(r, s.value, p) else p);
    }
  }

  lemma ValidationBlind(r: Request)
    ensures Validation(DimRequest(r)) == Validation(r) && OrderFor(DimRequest(r)) == OrderFor(r)
  {
    var r' := DimRequest(r);
    assert IntentServices(r') == IntentServices(r) && |r'.dpus| == |r.dpus|;
    assert forall e :: EntryOk(r', e) == EntryOk(r, e);
    hide OrderOf, Induced, Nodes, FindService;
    assert Rejected(r') == Rejected(r) && Unsatisfied(r') == Unsatisfied(r);
  }

  lemma {:induction false} RolloutBlind(r: Request, plans: seq<ServicePlan>)
    ensures RolloutOrder(DimRequest(r), plans) == RolloutOrder(r, plans)
  {
    if plans != [] { RolloutBlind(r, plans[..|plans| - 1]); }
  }

  /** Two topologies that differ only in freshness flags get the same plan. */
  lemma PlanBlind(r: Request)
    ensures BuildPlan(DimRequest(r)) == BuildPlan(r)
  {
    ValidationBlind(r);
    if Validation(r) == Nominal {
      PlaceServicesBlind(r, OrderFor(r).value, Progress(StartUsage(r), [], Nominal));
      RolloutBlind(r, Placed(r).plans);
    }
    hide Validation, OrderFor, PlaceServices, RolloutOrder, Stages;
  }

  lemma PlanBlindBetween(r: Request, dpus: seq<Dpu>)
    requires DimAll(dpus) == DimAll(r.dpus)
    ensures BuildPlan(r.(dpus := dpus)) == BuildPlan(r)
  {
    PlanBlind(r);
    PlanBlind(r.(dpus := dpus));
    hide BuildPlan;
  }
}
