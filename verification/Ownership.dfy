/** Grants follow the topology: after every event each granted device is one of the
    current devices, unless a rollback brings back a device that has gone. */
module Ownership {
  import opened Base
  import opened Order
  import opened Model
  import opened Authority
  import opened Eligibility
  import opened DependencyGraph
  import opened Planner
  import opened PlannerSound
  import opened Reducers
  import opened Claims
  import opened Invariant

  /** After successful claims exactly the wanted devices are added to the holders. */
  lemma {:induction false} ClaimAllHolders(grants: seq<Grant>, wants: seq<Want>, group: Id, st: RuntimeState, at: nat, maxGrants: nat, d: Id)
    requires GrantsSorted(grants) && ClaimAll(grants, wants, group, st, at, maxGrants).Ok?
    ensures d in Holders(ClaimAll(grants, wants, group, st, at, maxGrants).value) <==> Wanted(wants, d) || d in Holders(grants)
    decreases |wants|
  {
    if wants != [] {
      ClaimExact(grants, wants[0].scope, group, wants[0].dpu, st.epoch, st.boot, at, maxGrants);
      var r := Claim(grants, wants[0].scope, group, wants[0].dpu, st.epoch, st.boot, at, maxGrants);
      hide Claim, GrantsSorted;
      ClaimAllHolders(r.value, wants[1..], group, st, at, maxGrants, d);
      WantedStep(wants, d);
    }
  }

  lemma {:induction false} RemovedExact(old_: seq<Dpu>, dpus: seq<Dpu>, d: Id)
    ensures d in Removed(old_, dpus) <==> d in DpuIds(old_) && d !in DpuIds(dpus)
  {
    if old_ != [] {
      RemovedExact(old_[1..], dpus, d);
      assert DpuIds(old_) == [old_[0].id] + DpuIds(old_[1..]);
    }
  }

  lemma {:induction false} RemoveDevicesGrants(st: RuntimeState, removed: seq<Id>, at: nat, g: Grant)
    requires GrantsSorted(st.grants)
    ensures g in RemoveDevices(st, removed, at).grants <==> g in st.grants && g.dpu !in removed
    decreases |removed|
  {
    hide GrantsSorted, LoseDevice;
    if removed != [] {
      ReleaseDeviceExact(st.grants, removed[0]);
      hide ReleaseDevice;
      RemoveDevicesGrants(st.(instances := LoseDevice(st.instances, removed[0], at), grants := ReleaseDevice(st.grants, removed[0])),
                          removed[1..], at, g);
      assert removed == [removed[0]] + removed[1..];
    }
  }

  /** Every grant left is on a listed device. */
  ghost predicate HeldOn(grants: seq<Grant>, devices: seq<Id>) {
    forall g :: g in grants ==> g.dpu in devices
  }

  lemma HeldOnIs(st: RuntimeState)
    ensures GrantsPlaced(st) <==> HeldOn(st.grants, DpuIds(st.topology.dpus))
  {
    forall d ensures d in Holders(st.grants) <==> exists g :: g in st.grants && g.dpu == d { HolderIn(st.grants, d); }
  }

  lemma FewerHeld(a: RuntimeState, b: RuntimeState)
    requires GrantsPlaced(a) && DpuIds(b.topology.dpus) == DpuIds(a.topology.dpus)
    requires forall g :: g in b.grants ==> g in a.grants
    ensures GrantsPlaced(b)
  {
    HeldOnIs(a);
    HeldOnIs(b);
  }

  lemma TopologyPlaced(st: RuntimeState, at: nat, snapshot: Topology, b: Bounds)
    requires GrantsSorted(st.grants) && GrantsPlaced(st)
    ensures GrantsPlaced(ReduceTopology(st, at, snapshot, b).state)
  {
    var r := ReduceTopology(st, at, snapshot, b);
    if r.applied {
      var admitted := AdmitDpus(Sort(snapshot.dpus, DpuLess), st.capabilityGeneration, at, b.maxCapabilities).value;
      hide AdmitDpus, Sort, GrantsSorted;
      var removed := Removed(st.topology.dpus, admitted);
      var installed := st.(topology := snapshot.(dpus := admitted), topologyGeneration := snapshot.generation);
      var out := RemoveDevices(installed, removed, at);
      assert r.state.grants == out.grants && DpuIds(r.state.topology.dpus) == DpuIds(admitted);
      hide ReduceTopology;
      HeldOnIs(st);
      HeldOnIs(r.state);
      hide GrantsPlaced;
      forall g | g in out.grants ensures g.dpu in DpuIds(admitted) {
        RemoveDevicesGrants(installed, removed, at, g);
        RemovedExact(st.topology.dpus, admitted, g.dpu);
      }
    }
  }

  /** The plan behind an intent that passes the first checks. */
  function PlanOf(cfg: Config, st: RuntimeState, at: nat, intent: Intent): Result<Plan>
    requires IntentStatus(st, intent) == Nominal
  {
    PlanFor(st, FindGroup(st.groups, intent.group).value, intent, at, cfg)
  }

  /** A rollback that passes the first checks, whose retained plan is still available,
      whose claims the registry accepts and whose instances find room, and that claims a
      device the topology no longer has. */
  ghost predicate Strands(cfg: Config, st: RuntimeState, e: Event) {
    && e.body.IntentSubmitted? && e.body.intent.kind.Rollback?
    && IntentStatus(st, e.body.intent) == Nominal && PlanOf(cfg, st, e.at, e.body.intent).Ok?
    && Carries(cfg, st, e.at, FindGroup(st.groups, e.body.intent.group).value, PlanOf(cfg, st, e.at, e.body.intent).value)
    && !WantsPlaced(st, PlanOf(cfg, st, e.at, e.body.intent).value)
  }

  /** The claims of the plan are accepted, and its reconciliation stays within bounds. */
  predicate Carries(cfg: Config, st: RuntimeState, at: nat, group: Group, plan: Plan) {
    && ClaimPlans(st.grants, plan.services, group.id, st, at, cfg.bounds.maxDpus).Ok?
    && Reconcile(Work(st.instances, st.fences), plan, group.id, at, cfg.bounds.maxInstances, cfg.hash).Ok?
  }

  ghost predicate WantsPlaced(st: RuntimeState, plan: Plan) {
    forall w :: w in Wants(st.services, plan.services) ==> w.dpu in DpuIds(st.topology.dpus)
  }

  lemma AppliedIntent(st: RuntimeState, at: nat, intent: Intent, cfg: Config)
    ensures ReduceIntent(st, at, intent, cfg).applied <==>
      && IntentStatus(st, intent) == Nominal && PlanOf(cfg, st, at, intent).Ok?
      && Carries(cfg, st, at, FindGroup(st.groups, intent.group).value, PlanOf(cfg, st, at, intent).value)
    ensures ReduceIntent(st, at, intent, cfg).applied ==>
      var plan := PlanOf(cfg, st, at, intent).value;
      var group := FindGroup(st.groups, intent.group).value;
      var claimed := ClaimPlans(st.grants, plan.services, group.id, st, at, cfg.bounds.maxDpus);
      claimed.Ok? && ReduceIntent(st, at, intent, cfg).state.grants == claimed.value
    ensures ReduceIntent(st, at, intent, cfg).state.topology == st.topology
  {
    hide PlanFor, ClaimPlans, Reconcile;
  }

  lemma IntentPlacedExactly(st: RuntimeState, at: nat, intent: Intent, cfg: Config)
    requires GrantsSorted(st.grants) && GrantsPlaced(st) && ReduceIntent(st, at, intent, cfg).applied
    ensures IntentStatus(st, intent) == Nominal && PlanOf(cfg, st, at, intent).Ok?
    ensures GrantsPlaced(ReduceIntent(st, at, intent, cfg).state) <==> WantsPlaced(st, PlanOf(cfg, st, at, intent).value)
  {
    AppliedIntent(st, at, intent, cfg);
    var plan := PlanOf(cfg, st, at, intent).value;
    var group := FindGroup(st.groups, intent.group).value;
    var wants := Wants(st.services, plan.services);
    var out := ReduceIntent(st, at, intent, cfg).state;
    hide IntentStatus, PlanOf, ReduceIntent, ClaimPlans, FindGroup, GrantsSorted, Wants;
    ClaimPlansIs(st.grants, plan.services, group.id, st, at, cfg.bounds.maxDpus);
    forall d ensures d in Holders(out.grants) <==> Wanted(wants, d) || d in Holders(st.grants) {
      ClaimAllHolders(st.grants, wants, group.id, st, at, cfg.bounds.maxDpus, d);
    }
    forall w | w in wants ensures Wanted(wants, w.dpu) { }
  }

  lemma {:induction false} WithdrawnReplicas(services: seq<Service>, entries: seq<ReplicaIntent>)
    requires WithdrawPlans(services, entries).Some?
    ensures forall sp :: sp in WithdrawPlans(services, entries).value ==> sp.replicas == []
  {
    if entries != [] { WithdrawnReplicas(services, entries[..|entries| - 1]); }
  }

  lemma WithdrawWantsNothing(st: RuntimeState, group: Group, intent: Intent, at: nat, cfg: Config, w: Want)
    requires intent.kind == Withdraw && PlanFor(st, group, intent, at, cfg).Ok?
    ensures w !in Wants(st.services, PlanFor(st, group, intent, at, cfg).value.services)
  {
    WithdrawnReplicas(st.services, intent.services);
    hide WithdrawPlans;
    WantsFrom(st.services, PlanFor(st, group, intent, at, cfg).value.services, w);
    hide Wants;
  }

  lemma PlannedWantsPlaced(st: RuntimeState, group: Group, intent: Intent, at: nat, cfg: Config, w: Want)
    requires Distinct(DpuIds(st.topology.dpus))
    requires intent.kind != Withdraw && !intent.kind.Rollback? && PlanFor(st, group, intent, at, cfg).Ok?
    requires w in Wants(st.services, PlanFor(st, group, intent, at, cfg).value.services)
    ensures w.dpu in DpuIds(st.topology.dpus)
  {
    var edges := BuildGraph(st.dependencies, cfg.bounds.maxDependencies).value;
    var r := RequestOf(st, edges, group, intent, at, cfg);
    PlannedBy(st, group, intent, at, cfg);
    BuiltGraph(st.dependencies, cfg.bounds.maxDependencies);
    RequestFields(st, edges, group, intent, at, cfg);
    hide *;
    FeasiblePlanSound(r);
    SoundPlaced(r, OrderFor(r).value, BuildPlan(r).plan.services);
    PlacedWant(st.services, BuildPlan(r).plan.services, DpuIds(st.topology.dpus), w);
  }

  lemma PlacedWant(services: seq<Service>, plans: seq<ServicePlan>, devices: seq<Id>, w: Want)
    requires PlacedOn(plans, devices) && w in Wants(services, plans)
    ensures w.dpu in devices
  {
    var a, x := WantSource(services, plans, w);
  }

  lemma IntentPlaced(st: RuntimeState, e: Event, cfg: Config)
    requires CoreOk(st) && GrantsPlaced(st) && e.body.IntentSubmitted?
    ensures GrantsPlaced(Apply(cfg, st, e).state) <==> !Strands(cfg, st, e)
  {
    hide CoreOk, GrantsPlaced;
    var intent := e.body.intent;
    assert Apply(cfg, st, e) == ReduceIntent(st, e.at, intent, cfg);
    hide Apply;
    AppliedIntent(st, e.at, intent, cfg);
    hide Carries;
    if ReduceIntent(st, e.at, intent, cfg).applied {
      StateParts(st);
      IntentPlacedExactly(st, e.at, intent, cfg);
      if !intent.kind.Rollback? { SteadyWants(st, e.at, intent, cfg); }
    }
    hide ReduceIntent, PlanOf, IntentStatus, WantsPlaced;
  }

  lemma SteadyWants(st: RuntimeState, at: nat, intent: Intent, cfg: Config)
    requires Distinct(DpuIds(st.topology.dpus)) && !intent.kind.Rollback?
    requires IntentStatus(st, intent) == Nominal && PlanOf(cfg, st, at, intent).Ok?
    ensures WantsPlaced(st, PlanOf(cfg, st, at, intent).value)
  {
    var group := FindGroup(st.groups, intent.group).value;
    hide IntentStatus, PlanFor, Wants;
    forall w | w in Wants(st.services, PlanOf(cfg, st, at, intent).value.services) ensures w.dpu in DpuIds(st.topology.dpus) {
      if intent.kind == Withdraw {
        WithdrawWantsNothing(st, group, intent, at, cfg, w);
      } else {
        PlannedWantsPlaced(st, group, intent, at, cfg, w);
      }
    }
  }

  lemma StateParts(st: RuntimeState)
    requires CoreOk(st)
    ensures GrantsSorted(st.grants) && Distinct(DpuIds(st.topology.dpus)) && "" !in DpuIds(st.topology.dpus)
  {
    StrictlySortedDistinct(DpuIds(st.topology.dpus));
  }

  /** Grants stay on current devices through every event, and only through a rollback
      that claims a device no longer in the topology can they leave it. */
  lemma GrantsStayPlaced(cfg: Config, st: RuntimeState, e: Event)
    requires CoreOk(st) && GrantsPlaced(st)
    ensures GrantsPlaced(Apply(cfg, st, e).state) <==> !Strands(cfg, st, e)
  {
    if e.body.IntentSubmitted? {
      IntentPlaced(st, e, cfg);
    } else {
      StateParts(st);
      OtherPlaced(cfg, st, e);
    }
    hide CoreOk, Apply, GrantsPlaced;
  }

  lemma OtherPlaced(cfg: Config, st: RuntimeState, e: Event)
    requires GrantsSorted(st.grants) && GrantsPlaced(st) && !e.body.IntentSubmitted?
    ensures GrantsPlaced(Apply(cfg, st, e).state)
  {
    hide GrantsSorted, GrantsPlaced;
    hide ReduceTopology, ReduceEffect, ReduceLost, ReduceTime, ReduceQuiesce, ReduceAcknowledged;
    hide ReduceCapability, ReduceHealth, ReduceAttached, ReduceService, ReduceGroup, ReduceDependency;
    match e.body
    case TopologyObserved(snapshot) => TopologyPlaced(st, e.at, snapshot, cfg.bounds);
    case EffectReported(r) => EffectFewer(st, e.at, r);
    case CoordinatorAdvanced(epoch, coordinator) => FewerHeld(st, ReduceCoordinator(st, e.at, epoch, coordinator).state);
    case DpuLost(dpu) => LostFewer(st, e.at, dpu);
    case LogicalTimeAdvanced(now) => TimeQuiet(st, now); FewerHeld(st, ReduceTime(st, now).state);
    case QuiesceRequested(service) => InstancesQuiet(st, e.at, service, e.body); FewerHeld(st, ReduceQuiesce(st, e.at, service).state);
    case ExecutionAcknowledged(_, _, _) => InstancesQuiet(st, e.at, "", e.body); FewerHeld(st, ReduceAcknowledged(st, e.body).state);
    case CapabilityObserved(_, _, _, _, _) => CapabilityQuiet(st, e.at, e.body, cfg.bounds);
    case HealthObserved(_, _, _) => HealthQuiet(st, e.at, e.body);
    case DpuAttached(_, _, _, _, _) => AttachedQuiet(st, e.at, e.body);
    case ServiceDeclared(s) => ServiceQuiet(st, s, cfg.bounds);
    case GroupDeclared(g) => GroupQuiet(st, g, cfg.bounds);
    case DependencyDeclared(d) => DependencyQuiet(st, d, cfg.bounds);
    case PolicyAdvanced(p) => FewerHeld(st, ReducePolicy(st, e.at, p).state);
  }

  lemma TimeQuiet(st: RuntimeState, now: nat)
    ensures var r := ReduceTime(st, now).state; r.grants == st.grants && DpuIds(r.topology.dpus) == DpuIds(st.topology.dpus)
  {
    assert DpuIds(RefreshDpus(st.topology.dpus, now)) == DpuIds(st.topology.dpus);
  }

  lemma InstancesQuiet(st: RuntimeState, at: nat, service: Id, e: Body)
    ensures ReduceQuiesce(st, at, service).state.grants == st.grants
    ensures ReduceQuiesce(st, at, service).state.topology == st.topology
    ensures e.ExecutionAcknowledged? ==>
      ReduceAcknowledged(st, e).state.grants == st.grants && ReduceAcknowledged(st, e).state.topology == st.topology
  {
    hide Validates;
  }

  lemma CapabilityQuiet(st: RuntimeState, at: nat, e: Body, b: Bounds)
    requires e.CapabilityObserved? && GrantsPlaced(st)
    ensures GrantsPlaced(ReduceCapability(st, at, e, b).state)
  {
    hide GrantsPlaced, Normalize;
    var r := ReduceCapability(st, at, e, b);
    var k := IndexOf(DpuIds(st.topology.dpus), e.dpu);
    if r.applied { SetDpuCore(st, k, r.state.topology.dpus[k]); }
    FewerHeld(st, r.state);
  }

  lemma HealthQuiet(st: RuntimeState, at: nat, e: Body)
    requires e.HealthObserved? && GrantsPlaced(st)
    ensures GrantsPlaced(ReduceHealth(st, at, e).state)
  {
    hide GrantsPlaced, RefreshInstances;
    var r := ReduceHealth(st, at, e);
    assert r.applied ==> DpuIds(r.state.topology.dpus) == DpuIds(st.topology.dpus);
    FewerHeld(st, r.state);
  }

  lemma AttachedQuiet(st: RuntimeState, at: nat, e: Body)
    requires e.DpuAttached? && GrantsPlaced(st)
    ensures GrantsPlaced(ReduceAttached(st, at, e).state)
  {
    hide GrantsPlaced;
    var r := ReduceAttached(st, at, e);
    var k := IndexOf(DpuIds(st.topology.dpus), e.dpu);
    if r.applied { SetDpuCore(st, k, r.state.topology.dpus[k]); }
    FewerHeld(st, r.state);
  }

  lemma ServiceQuiet(st: RuntimeState, s: Service, b: Bounds)
    requires GrantsPlaced(st)
    ensures GrantsPlaced(ReduceService(st, s, b).state)
  {
    hide GrantsPlaced, Sort, FindService, ReplicaPolicyStatus;
    FewerHeld(st, ReduceService(st, s, b).state);
  }

  lemma GroupQuiet(st: RuntimeState, g: Group, b: Bounds)
    requires GrantsPlaced(st)
    ensures GrantsPlaced(ReduceGroup(st, g, b).state)
  {
    hide GrantsPlaced, Sort, FindService, AntiAffinityStatus;
    FewerHeld(st, ReduceGroup(st, g, b).state);
  }

  lemma DependencyQuiet(st: RuntimeState, d: Dependency, b: Bounds)
    requires GrantsPlaced(st)
    ensures GrantsPlaced(ReduceDependency(st, d, b).state)
  {
    hide GrantsPlaced, BuildGraph, FindService;
    FewerHeld(st, ReduceDependency(st, d, b).state);
  }

  lemma EffectFewer(st: RuntimeState, at: nat, r: Report)
    requires GrantsSorted(st.grants) && GrantsPlaced(st)
    ensures GrantsPlaced(ReduceEffect(st, at, r).state)
  {
    hide GrantsPlaced;
    var out := ReduceEffect(st, at, r).state;
    if ReportStatus(st, at, r) == Nominal {
      ReportAccepted(st, at, r);
      ReleaseDeviceExact(st.grants, st.instances[FindInstance(st.instances, r.instance).value].dpu);
    }
    hide GrantsSorted, ReleaseDevice, Decided, ReportStatus, FindInstance;
    FewerHeld(st, out);
  }

  lemma LostFewer(st: RuntimeState, at: nat, dpu: Id)
    requires GrantsSorted(st.grants) && GrantsPlaced(st)
    ensures GrantsPlaced(ReduceLost(st, at, dpu).state)
  {
    hide GrantsPlaced;
    var out := ReduceLost(st, at, dpu);
    ReleaseDeviceExact(st.grants, dpu);
    assert DpuIds(out.state.topology.dpus) == DpuIds(st.topology.dpus);
    FewerHeld(st, out.state);
  }
}
