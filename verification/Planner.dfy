/** Placement planning: validation, dependency closure, greedy placement and
    staging. `BuildPlan` is the value a request determines. */
module Planner {
  import opened Base
  import opened Order
  import opened Model
  import opened Eligibility
  import opened DependencyGraph

  datatype Request = Request(
    dpus: seq<Dpu>, topologyGeneration: nat, policy: Policy, services: seq<Service>,
    edges: seq<Dependency>, group: Group, intent: Intent, grants: seq<Grant>,
    now: nat, epoch: nat, boot: nat, bounds: Bounds, weights: Weights, hash: string -> string)

  datatype PlanOutcome = Feasible(plan: Plan) | Infeasible(code: Reason)

  // ---------------------------------------------------------------------
  // Validation.
  // ---------------------------------------------------------------------

  function ReplicaPolicyStatus(p: ReplicaPolicy, ceiling: nat): Reason {
    if p.max == 0 then ValueOutOfRange
    else if p.min > p.preferred || p.preferred > p.max then ValueOutOfRange
    else if p.max > ceiling then ReplicaBoundExceeded
    else Nominal
  }

  function AntiAffinityStatus(a: AntiAffinity): Reason {
    if a.maxPerDpu == 0 then ValueOutOfRange
    else if a.maxPerDomain == Some(0) then ValueOutOfRange
    else Nominal
  }

  function StagingStatus(s: Staging, ceiling: nat): Reason {
    if s.batchSize == 0 then ValueOutOfRange
    else if s.batchSize > ceiling then BoundExceeded
    else if s.maxUnavailable >= s.batchSize && s.batchSize > 1 then StagingInfeasible
    else Nominal
  }

  function FindService(services: seq<Service>, id: Id): Option<Service> {
    var k := IndexOf(Map(ServiceIdOf, services), id);
    if k < |services| then Some(services[k]) else None
  }

  predicate EntryOk(r: Request, entry: ReplicaIntent) {
    var s := FindService(r.services, entry.service);
    && s.Some?
    && entry.service in r.group.members
    && ReplicaPolicyStatus(s.value.replicas, r.bounds.maxReplicas) == Nominal
    && s.value.replicas.min <= entry.desired <= s.value.replicas.max
    && entry.desired <= r.policy.maxInstancesPerGroup
  }

  function EntryService(e: ReplicaIntent): Id { e.service }

  function IntentServices(r: Request): seq<Id> { Map(EntryService, r.intent.services) }

  predicate Repeats(ids: seq<Id>) {
    exists i, j :: 0 <= i < j < |ids| && ids[i] == ids[j]
  }

  /** Some entry is refused, or a service is asked for twice. */
  predicate Rejected(r: Request) {
    (exists e :: e in r.intent.services && !EntryOk(r, e)) || Repeats(IntentServices(r))
  }

  /** A requirement of some service is not part of the intent. */
  predicate Unsatisfied(r: Request) {
    exists s :: s in IntentServices(r) && !(forall n :: n in Needs(r.edges, s) ==> n in IntentServices(r))
  }

  function OrderFor(r: Request): Option<seq<Id>> {
    var nodes := Nodes(IntentServices(r));
    OrderOf(nodes, Induced(r.edges, nodes))
  }

  function Validation(r: Request): Reason {
    if r.intent.id == "" || r.intent.group == "" || r.intent.generation == 0 then MalformedInput
    else if r.intent.group != r.group.id then GroupNotDeclared
    else if r.intent.services == [] then MalformedInput
    else if |r.intent.services| > r.bounds.maxServices then BoundExceeded
    else if StagingStatus(r.intent.staging, r.policy.maxStageBatch) != Nominal then
      StagingStatus(r.intent.staging, r.policy.maxStageBatch)
    else if Rejected(r) then IntentNotAccepted
    else if OrderFor(r).None? then DependencyCycle
    else if Unsatisfied(r) then DependencyUnsatisfied
    else if |r.dpus| > r.bounds.maxDpus then BoundExceeded
    else Nominal
  }

  // ---------------------------------------------------------------------
  // Candidates.
  // ---------------------------------------------------------------------

  function SatAdd(a: nat, b: nat): nat { Min(a + b, U64_MAX) }
  function SatMul(a: nat, b: nat): nat { Min(a * b, U64_MAX) }

  function Score(d: Dpu, s: Service, onDpu: nat, inDomain: nat, w: Weights): nat {
    var free := Headroom(d.capacity, d.used);
    var permille := if free.Ok? then HeadroomPermille(free.value, s.resources) else Err(ValueOutOfRange);
    var base := if permille.Ok? then SatMul(permille.value, w.capacity) else 0;
    var matched :=
      if s.isolation != NoIsolation && s.isolation in d.profile.isolation then SatAdd(base, w.isolationMatch) else base;
    var slack := if inDomain >= 100 then 0 else 100 - inDomain;
    var spread := SatAdd(matched, SatMul(slack, w.domainSpread));
    var penalty := SatMul(onDpu, w.dpuPressure);
    if spread > penalty then spread - penalty else 0
  }

  /** Running totals of the whole plan, and the local view of exclusive ownership. */
  datatype Usage = Usage(onDpu: map<Id, nat>, inDomain: map<Id, nat>, remaining: map<Id, Resources>, owner: map<Id, Id>)

  function Count(m: map<Id, nat>, k: Id): nat { if k in m then m[k] else 0 }

  function Owners(grants: seq<Grant>): map<Id, Id> {
    if grants == [] then map[]
    else
      var n := |grants| - 1;
      var rest := Owners(grants[..n]);
      if grants[n].dpu in rest then rest else rest[grants[n].dpu := grants[n].scope]
  }

  datatype Candidate = Candidate(dpu: Dpu, score: nat)

  predicate CandidateLess(a: Candidate, b: Candidate) {
    if a.score != b.score then a.score > b.score else Less(a.dpu.id, b.dpu.id)
  }

  predicate ScopeFree(s: Service, owner: map<Id, Id>, dpu: Id) {
    s.scope.Some? && dpu in owner ==> owner[dpu] == s.scope.value
  }

  predicate Selectable(r: Request, s: Service, u: Usage, d: Dpu) {
    Evaluate(d, s, r.policy, r.now).eligible && ScopeFree(s, u.owner, d.id)
  }

  function Candidates(r: Request, s: Service, u: Usage, devices: seq<Dpu>): seq<Candidate> {
    if devices == [] then []
    else
      var n := |devices| - 1;
      var rest := Candidates(r, s, u, devices[..n]);
      var d := devices[n];
      if Selectable(r, s, u, d)
      then rest + [Candidate(d, Score(d, s, Count(u.onDpu, d.id), Count(u.inDomain, d.domain), r.weights))]
      else rest
  }

  // ---------------------------------------------------------------------
  // Greedy placement of one service.
  // ---------------------------------------------------------------------

  datatype Placing = Placing(replicas: seq<Replica>, usage: Usage, domains: map<Id, nat>)

  function MaxPerDpu(g: Group, p: Policy): nat { Min(g.antiAffinity.maxPerDpu, Max(1, p.maxPerDpuCeiling)) }

  function HeadroomOrNone(d: Dpu): Resources {
    var free := Headroom(d.capacity, d.used);
    if free.Ok? then free.value else NO_RESOURCES
  }

  function FreeOn(u: Usage, d: Dpu): Resources {
    if d.id in u.remaining then u.remaining[d.id] else HeadroomOrNone(d)
  }

  /** The caps, the distinct-domain rule and the remaining resources all allow it. */
  predicate Allowed(g: Group, p: Policy, s: Service, a: Placing, d: Dpu) {
    && Count(a.usage.onDpu, d.id) < MaxPerDpu(g, p)
    && (g.antiAffinity.maxPerDomain.Some? ==>
          Count(a.usage.inDomain, d.domain) < g.antiAffinity.maxPerDomain.value)
    && (g.antiAffinity.distinctDomains ==> Count(a.domains, d.domain) == 0)
    && Covers(FreeOn(a.usage, d), s.resources)
  }

  function Take(u: Usage, s: Service, d: Dpu): Usage {
    var after := Subtract(FreeOn(u, d), s.resources);
    Usage(
      u.onDpu[d.id := Count(u.onDpu, d.id) + 1],
      u.inDomain[d.domain := Count(u.inDomain, d.domain) + 1],
      if after.Ok? then u.remaining[d.id := after.value] else u.remaining,
      if s.scope.Some? then u.owner[d.id := s.scope.value] else u.owner)
  }

  function PlaceOn(s: Service, a: Placing, c: Candidate): Placing {
    var d := c.dpu;
    Placing(
      a.replicas + [Replica(|a.replicas|, d.id, d.attachment, d.domain, c.score)],
      Take(a.usage, s, d),
      a.domains[d.domain := Count(a.domains, d.domain) + 1])
  }

  function Consider(g: Group, p: Policy, s: Service, a: Placing, c: Candidate): Placing {
    if Allowed(g, p, s, a, c.dpu) then PlaceOn(s, a, c) else a
  }

  function Place(g: Group, p: Policy, s: Service, desired: nat, a: Placing, cs: seq<Candidate>): Placing
    decreases |cs|
  {
    if cs == [] || |a.replicas| >= desired then a
    else Place(g, p, s, desired, Consider(g, p, s, a, cs[0]), cs[1..])
  }

  // ---------------------------------------------------------------------
  // All services, in dependency order.
  // ---------------------------------------------------------------------

  function Desired(entries: seq<ReplicaIntent>, service: Id): nat {
    var k := IndexOf(Map(EntryService, entries), service);
    if k < |entries| then entries[k].desired else 0
  }

  datatype Progress = Progress(usage: Usage, plans: seq<ServicePlan>, failure: Reason)

  function Ranked(r: Request, s: Service, u: Usage): seq<Candidate> {
    Sort(Candidates(r, s, u, Sort(r.dpus, DpuLess)), CandidateLess)
  }

  function PlaceService(r: Request, s: Service, p: Progress): Progress {
    var desired := Desired(r.intent.services, s.id);
    var cs := Ranked(r, s, p.usage);
    var done := Place(r.group, r.policy, s, desired, Placing([], p.usage, map[]), cs);
    var placed := |done.replicas|;
    Progress(
      done.usage,
      p.plans + [ServicePlan(s.id, s.version, desired, placed, done.replicas)],
      if placed < desired then (if cs == [] then NoEligibleDpu else InsufficientEligibleDpus) else p.failure)
  }

  function PlaceServices(r: Request, order: seq<Id>, p: Progress): Progress
    decreases |order|
  {
    if order == [] then p
    else
      var s := FindService(r.services, order[0]);
      PlaceServices(r, order[1..], if s.Some? then PlaceService(r, s.value, p) else p)
  }

  function StartUsage(r: Request): Usage { Usage(map[], map[], map[], Owners(r.grants)) }

  // ---------------------------------------------------------------------
  // Staging.
  // ---------------------------------------------------------------------

  function ReplicaNames(r: Request, service: Id, replicas: seq<Replica>): seq<Id> {
    seq(|replicas|, i requires 0 <= i < |replicas| => InstanceName(r.hash, r.group.id, service, replicas[i].index))
  }

  function RolloutOrder(r: Request, plans: seq<ServicePlan>): seq<Id> {
    if plans == [] then []
    else
      var n := |plans| - 1;
      RolloutOrder(r, plans[..n]) + ReplicaNames(r, plans[n].service, plans[n].replicas)
  }

  function Stages(ids: seq<Id>, batch: nat, maxUnavailable: nat, index: nat): seq<Stage>
    requires batch > 0
    decreases |ids|
  {
    if ids == [] then []
    else
      var k := Min(batch, |ids|);
      [Stage(index, ids[..k], maxUnavailable)] + Stages(ids[k..], batch, maxUnavailable, index + 1)
  }

  function Placed(r: Request): Progress
    requires Validation(r) == Nominal
  {
    PlaceServices(r, OrderFor(r).value, Progress(StartUsage(r), [], Nominal))
  }

  function BuildPlan(r: Request): PlanOutcome {
    var bad := Validation(r);
    if bad != Nominal then Infeasible(bad)
    else
      var p := Placed(r);
      if p.failure != Nominal then Infeasible(p.failure)
      else
        var stages := Stages(RolloutOrder(r, p.plans), r.intent.staging.batchSize, r.intent.staging.maxUnavailable, 0);
        if |stages| > r.bounds.maxStages then Infeasible(BoundExceeded)
        else
          Feasible(Plan(r.intent.generation, r.group.id, r.intent.kind, p.plans, stages,
                        r.topologyGeneration, 0, r.policy.generation, r.epoch, r.boot, r.now))
  }
}
