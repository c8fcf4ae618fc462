/** One deployment from an empty store: a service, a group, a policy, one device, and an
    intent that places one replica on it. It works under every acceptable configuration. */
module Scenario {
  import opened Base
  import opened Order
  import opened Model
  import opened Authority
  import opened Eligibility
  import opened DependencyGraph
  import opened Planner
  import opened PlannerSound
  import opened PlannerComplete
  import opened Reducers
  import opened Runs
  import opened Delivery
  import opened Protocol
  import opened Deliveries

  const EVIDENCE := Evidence("v", 0, 1000, Real)
  const VERSION := Version(1, 0, 0, "")
  const SERVICE := Service("s", VERSION, "", Requirement(None, None, [], None, []), NO_RESOURCES, NoIsolation, Some("x"),
                           ReplicaPolicy(1, 1, 1))
  const GROUP := Group("g", ["s"], AntiAffinity(1, None, false))
  const POLICY := Policy(1, 1, 1, 1, true, true, true, 1, EVIDENCE)
  const DEVICE := Dpu("d", "p", "f", Profile(UnknownArchitecture, Firmware(0, 0), [], Unspecified), [],
                      Resources(1, 1, 1, 1, 1), NO_RESOURCES, Attached, 1, 1, EVIDENCE, NO_EVIDENCE, UnknownHealth, 0, false)
  const ENTRY := ReplicaIntent("s", 1)
  const INTENT := Intent("n", "g", Deploy, 1, [ENTRY], Staging(1, 0))
  const NAME := "i-g.s.0"

  function Ev(n: nat, body: Body): Event { Event("e", "o", 1, n, n, body, "") }

  const DECLARE := Ev(1, ServiceDeclared(SERVICE))
  const ASSEMBLE := Ev(2, GroupDeclared(GROUP))
  const GOVERN := Ev(3, PolicyAdvanced(POLICY))
  const OBSERVE := Ev(4, TopologyObserved(Topology(1, 0, [DEVICE])))
  const DEPLOY := Ev(5, IntentSubmitted(INTENT))

  // ---------------------------------------------------------------------
  // The states passed through.
  // ---------------------------------------------------------------------

  function Moved(st: RuntimeState, n: nat): RuntimeState { st.(watermark := n, clock := n, journaled := n) }

  function Declared(cfg: Config): RuntimeState { Moved(Init(cfg).(services := [SERVICE]), 1) }
  function Assembled(cfg: Config): RuntimeState { Moved(Declared(cfg).(groups := [GROUP]), 2) }
  function Governed(cfg: Config): RuntimeState { Moved(Assembled(cfg).(policy := POLICY, policyGeneration := 1), 3) }
  function Observed(cfg: Config): RuntimeState {
    Moved(Governed(cfg).(topology := Topology(1, 0, [DEVICE]), topologyGeneration := 1, capabilityGeneration := 1), 4)
  }

  function Sole(cfg: Config): Replica { Replica(0, "d", "p", "f", Score(DEVICE, SERVICE, 0, 0, cfg.weights)) }
  function Chosen(cfg: Config): ServicePlan { ServicePlan("s", VERSION, 1, 1, [Sole(cfg)]) }
  function Deployment(cfg: Config): Plan {
    Plan(1, "g", Deploy, [Chosen(cfg)], [Model.Stage.Stage(0, [NAME], 0)], 1, 0, 1, cfg.epoch, cfg.boot, 5)
  }
  function Placement(cfg: Config): Slot { Slot("s", VERSION, Sole(cfg)) }
  function Placed1(cfg: Config): Instance {
    CreateInstance(NAME, Placement(cfg), Deployment(cfg), "g", Token(cfg.epoch, cfg.boot, 1), 5)
  }
  function Held1(cfg: Config): Grant { Grant("d", "x", "g", cfg.epoch, cfg.boot, 5) }

  function Deployed(cfg: Config): RuntimeState {
    Moved(Observed(cfg).(instances := [Placed1(cfg)], grants := [Held1(cfg)], plans := [Deployment(cfg)], deploymentGeneration := 1,
                         fences := Fences(cfg.epoch, cfg.boot, map[NAME := 1])), 5)
  }

  // ---------------------------------------------------------------------
  // Declarations and devices.
  // ---------------------------------------------------------------------

  /** Nothing fresh, nothing to refresh. */
  predicate Dull(st: RuntimeState) {
    && (forall d :: d in st.topology.dpus ==> d.health == UnknownHealth && !d.healthFresh)
    && (forall i :: i in st.instances ==> i.health == UnknownHealth && !i.healthFresh)
  }

  lemma RefreshDull(st: RuntimeState)
    requires Dull(st)
    ensures RefreshHealth(st) == st
  {
    var dpus := RefreshDpus(st.topology.dpus, st.clock);
    assert dpus == st.topology.dpus;
    forall k | 0 <= k < |st.instances| ensures RefreshInstance(st.instances[k], dpus) == st.instances[k] {
      assert st.instances[k] in st.instances;
      var d := FindDpu(dpus, st.instances[k].dpu);
      if d.Some? { assert d.value in dpus; }
    }
    assert RefreshInstances(st.instances, dpus) == st.instances;
  }

  /** A delivery ahead of the clock that leaves a dull state. */
  lemma DeliveredDull(cfg: Config, st: RuntimeState, e: Event, after: RuntimeState)
    requires !e.body.LogicalTimeAdvanced? && e.at > st.clock && e.at > st.watermark && e.at == st.journaled + 1
    requires Apply(cfg, st.(journaled := e.at), e).state == after && Dull(after)
    ensures Delivered(cfg, st, e) == Moved(after, e.at)
  {
    hide Apply, RefreshHealth, Dull;
    DullMoved(after, e.at);
    RefreshDull(Moved(after, e.at));
  }

  lemma DullMoved(st: RuntimeState, n: nat)
    requires Dull(st)
    ensures Dull(Moved(st, n))
  {
  }

  lemma FoundIn(cfg: Config)
    ensures FindService([SERVICE], "s") == Some(SERVICE) && FindGroup([GROUP], "g") == Some(GROUP)
  {
    assert Map(ServiceIdOf, [SERVICE]) == ["s"] && Map(GroupIdOf, [GROUP]) == ["g"];
  }

  lemma ApplyDeclared(cfg: Config, st: RuntimeState, e: Event)
    ensures e.body.ServiceDeclared? ==> Apply(cfg, st, e) == ReduceService(st, e.body.definition, cfg.bounds)
    ensures e.body.GroupDeclared? ==> Apply(cfg, st, e) == ReduceGroup(st, e.body.group, cfg.bounds)
    ensures e.body.PolicyAdvanced? ==> Apply(cfg, st, e) == ReducePolicy(st, e.at, e.body.policy)
    ensures e.body.TopologyObserved? ==> Apply(cfg, st, e) == ReduceTopology(st, e.at, e.body.snapshot, cfg.bounds)
  {
    hide ReduceService, ReduceGroup, ReducePolicy, ReduceTopology;
  }

  lemma DeclareReduces(cfg: Config, st: RuntimeState)
    requires Acceptable(cfg) && st.services == []
    ensures ReduceService(st, SERVICE, cfg.bounds) == Accept(st.(services := [SERVICE]), Nominal)
  {
    assert Map(ServiceIdOf, []) == [];
    assert FindService([], "s") == None;
    SortOne(SERVICE, ServiceLess);
    assert [] + [SERVICE] == [SERVICE];
    hide Sort, FindService;
  }

  lemma DeclareIs(cfg: Config)
    requires Acceptable(cfg)
    ensures Delivered(cfg, Init(cfg), DECLARE) == Declared(cfg)
  {
    hide Delivered, Apply, ReduceService, ReduceGroup, ReducePolicy, ReduceTopology;
    var st := Init(cfg).(journaled := 1);
    ApplyDeclared(cfg, st, DECLARE);
    DeclareReduces(cfg, st);
    DeliveredDull(cfg, Init(cfg), DECLARE, st.(services := [SERVICE]));
  }

  lemma AssembleReduces(cfg: Config, st: RuntimeState)
    requires Acceptable(cfg) && st.services == [SERVICE] && st.groups == []
    ensures ReduceGroup(st, GROUP, cfg.bounds) == Accept(st.(groups := [GROUP]), Nominal)
  {
    hide Sort, FindService, FindGroup;
    FoundIn(cfg);
    NoGroups();
    SortOne(GROUP, GroupLess);
    assert [] + [GROUP] == [GROUP];
    assert forall m :: m in ["s"] ==> m == "s";
  }

  lemma NoGroups()
    ensures FindGroup([], "g") == None
  {
    assert Map(GroupIdOf, []) == [];
  }

  lemma AssembleIs(cfg: Config)
    requires Acceptable(cfg)
    ensures Delivered(cfg, Declared(cfg), ASSEMBLE) == Assembled(cfg)
  {
    hide Delivered, Apply, ReduceService, ReduceGroup, ReducePolicy, ReduceTopology;
    var st := Declared(cfg).(journaled := 2);
    ApplyDeclared(cfg, st, ASSEMBLE);
    AssembleReduces(cfg, st);
    DeliveredDull(cfg, Declared(cfg), ASSEMBLE, st.(groups := [GROUP]));
  }

  lemma GovernIs(cfg: Config)
    requires Acceptable(cfg)
    ensures Delivered(cfg, Assembled(cfg), GOVERN) == Governed(cfg)
  {
    hide Delivered, Apply, ReduceService, ReduceGroup, ReduceTopology;
    var st := Assembled(cfg).(journaled := 3);
    ApplyDeclared(cfg, st, GOVERN);
    assert ReducePolicy(st, 3, POLICY) == Accept(st.(policy := POLICY, policyGeneration := 1), Nominal);
    hide ReducePolicy;
    DeliveredDull(cfg, Assembled(cfg), GOVERN, st.(policy := POLICY, policyGeneration := 1));
  }

  lemma AdmitOne(cfg: Config, at: nat)
    ensures AdmitDpus([DEVICE], 0, at, cfg.bounds.maxCapabilities) == Ok([DEVICE])
  {
    assert Sort([], CapabilityLess) == [];
    assert Normalize([], cfg.bounds.maxCapabilities) == Ok([]);
    AdmitSingle(DEVICE, 0, at, cfg.bounds.maxCapabilities);
    hide AdmitDpus;
    assert AdmitDpu(DEVICE, [], 0, at) == DEVICE;
  }

  lemma AdmitSingle(d: Dpu, generation: nat, at: nat, max: nat)
    requires d.id != "" && d.attachment != "" && d.domain != "" && Normalize(d.capabilities, max).Ok?
    ensures AdmitDpus([d], generation, at, max) == Ok([AdmitDpu(d, Normalize(d.capabilities, max).value, generation, at)])
  {
    hide Normalize, AdmitDpu;
    var x := AdmitDpu(d, Normalize(d.capabilities, max).value, generation, at);
    assert [d][..0] == [] && [] + [x] == [x];
    assert AdmitDpus([], generation, at, max) == Ok([]);
    assert AdmitDpus([d], generation, at, max) == Ok([] + [x]);
  }

  lemma ObserveReduces(cfg: Config, st: RuntimeState)
    requires Acceptable(cfg) && st.topology.dpus == [] && st.topologyGeneration == 0 && st.capabilityGeneration == 0 && st.instances == []
    ensures ReduceTopology(st, 4, Topology(1, 0, [DEVICE]), cfg.bounds)
         == Accept(st.(topology := Topology(1, 0, [DEVICE]), topologyGeneration := 1, capabilityGeneration := 1), Nominal)
  {
    hide RefreshHealth, AdmitDpus;
    SortOne(DEVICE, DpuLess);
    AdmitOne(cfg, 4);
    hide Sort;
    assert [DEVICE][..0] == [];
    assert HighestCapability([], 0) == 0;
    assert HighestCapability([DEVICE], 0) == 1;
    hide HighestCapability;
    assert Removed([], [DEVICE]) == [];
    RefreshDull(st.(topology := Topology(1, 0, [DEVICE]), topologyGeneration := 1, capabilityGeneration := 1));
  }

  lemma ObserveIs(cfg: Config)
    requires Acceptable(cfg)
    ensures Delivered(cfg, Governed(cfg), OBSERVE) == Observed(cfg)
  {
    hide Delivered, Apply, ReduceService, ReduceGroup, ReducePolicy, ReduceTopology;
    var st := Governed(cfg).(journaled := 4);
    ApplyDeclared(cfg, st, OBSERVE);
    ObserveReduces(cfg, st);
    DeliveredDull(cfg, Governed(cfg), OBSERVE, st.(topology := Topology(1, 0, [DEVICE]), topologyGeneration := 1, capabilityGeneration := 1));
  }

  // ---------------------------------------------------------------------
  // The plan.
  // ---------------------------------------------------------------------

  function Asked(cfg: Config, at: nat): Request {
    RequestOf(Observed(cfg), [], GROUP, INTENT, at, cfg)
  }

  lemma OneNode()
    ensures Nodes(["s"]) == ["s"] && Induced([], ["s"]) == [] && OrderOf(["s"], []) == Some(["s"])
  {
    SortOne("s", Less);
    assert Unique(["s"]) == ["s"];
    assert InducedUnsorted([], ["s"]) == [] && Sort([], EdgeLess) == [];
    assert DependencyGraph.Ready("s", [], []) && FirstReady(["s"], [], []) == 0;
    assert [] + ["s"] == ["s"];
    assert !DependencyGraph.Ready("s", [], ["s"]);
    assert Kahn(["s"], [], ["s"]) == ["s"];
    assert Kahn(["s"], [], []) == Kahn(["s"], [], ["s"]);
  }

  lemma AskedValid(cfg: Config, at: nat)
    requires Acceptable(cfg)
    ensures Validation(Asked(cfg, at)) == Nominal && OrderFor(Asked(cfg, at)) == Some(["s"])
  {
    hide Validation, OrderFor;
    OneEntryValid(cfg, Asked(cfg, at));
  }

  lemma OneEntryValid(cfg: Config, r: Request)
    requires Acceptable(cfg) && r.services == [SERVICE] && r.group == GROUP && r.intent == INTENT && r.bounds == cfg.bounds && r.policy == POLICY
    requires r.edges == [] && |r.dpus| == 1
    ensures Validation(r) == Nominal && OrderFor(r) == Some(["s"])
  {
    hide Nodes, Induced, OrderOf, FindService, FindGroup, Needs;
    assert IntentServices(r) == ["s"];
    OneNode();
    EntryAccepted(cfg, r);
    assert OrderFor(r) == Some(["s"]);
    hide OrderFor, Rejected;
    NothingNeeded("s");
    assert !Unsatisfied(r);
  }

  lemma NothingNeeded(s: Id)
    ensures Needs([], s) == []
  {
  }

  lemma EntryAccepted(cfg: Config, r: Request)
    requires Acceptable(cfg) && r.services == [SERVICE] && r.group == GROUP && r.intent == INTENT && r.bounds == cfg.bounds && r.policy == POLICY
    ensures !Rejected(r)
  {
    hide FindService;
    FoundIn(cfg);
    assert EntryOk(r, ENTRY);
    hide EntryOk;
    assert IntentServices(r) == ["s"];
  }

  lemma DeviceEligible(cfg: Config, at: nat)
    requires at <= 1000
    ensures Evaluate(DEVICE, SERVICE, POLICY, at).eligible
  {
    EligibleExact(DEVICE, SERVICE, POLICY, at);
    hide Evaluate;
    assert Covers(Resources(1, 1, 1, 1, 1), NO_RESOURCES);
  }

  lemma OneCandidate(cfg: Config, at: nat)
    requires at <= 1000
    ensures Ranked(Asked(cfg, at), SERVICE, StartUsage(Asked(cfg, at))) == [Candidate(DEVICE, Sole(cfg).score)]
  {
    var r := Asked(cfg, at);
    var u := StartUsage(r);
    DeviceEligible(cfg, at);
    hide Evaluate, Score;
    SortOne(DEVICE, DpuLess);
    assert Owners([]) == map[];
    assert Selectable(r, SERVICE, u, DEVICE);
    assert [DEVICE][..0] == [];
    assert Candidates(r, SERVICE, u, []) == [];
    var c := Candidate(DEVICE, Sole(cfg).score);
    assert [] + [c] == [c];
    assert Candidates(r, SERVICE, u, [DEVICE]) == [c];
    SortOne(c, CandidateLess);
    hide Sort;
  }

  lemma OnePlaced(cfg: Config, at: nat)
    requires at <= 1000
    ensures var r := Asked(cfg, at);
      Place(GROUP, POLICY, SERVICE, 1, Placing([], StartUsage(r), map[]), [Candidate(DEVICE, Sole(cfg).score)]).replicas == [Sole(cfg)]
  {
    hide Score;
    var a := Placing([], StartUsage(Asked(cfg, at)), map[]);
    assert Covers(Resources(1, 1, 1, 1, 1), NO_RESOURCES);
    assert Allowed(GROUP, POLICY, SERVICE, a, DEVICE);
    hide Allowed, RequestOf, StartUsage;
    PlaceSingle(GROUP, POLICY, SERVICE, a.usage, Candidate(DEVICE, Sole(cfg).score));
  }

  lemma PlaceSingle(g: Group, p: Policy, s: Service, u: Usage, c: Candidate)
    requires Allowed(g, p, s, Placing([], u, map[]), c.dpu)
    ensures Place(g, p, s, 1, Placing([], u, map[]), [c]).replicas == [Replica(0, c.dpu.id, c.dpu.attachment, c.dpu.domain, c.score)]
  {
    hide Allowed, Planner.Take;
    assert [c][1..] == [];
    var a := Placing([], u, map[]);
    var b := PlaceOn(s, a, c);
    assert Place(g, p, s, 1, b, []) == b;
    assert Consider(g, p, s, a, c) == b;
  }

  lemma NameIs(hash: string -> string)
    ensures InstanceName(hash, "g", "s", 0) == NAME
  {
    assert Decimal(0) == "0";
    assert "i-" + "g" + "." + "s" + "." + "0" == NAME;
  }

  /** The intent is planned as expected. */
  lemma AskedPlan(cfg: Config)
    requires Acceptable(cfg)
    ensures BuildPlan(Asked(cfg, 5)) == Feasible(Deployment(cfg))
  {
    hide Validation, OrderFor, PlaceServices, RolloutOrder, Stages, Score;
    var r := Asked(cfg, 5);
    AskedValid(cfg, 5);
    AskedPlaced(cfg, r);
    hide Placed;
    OneStage(r, cfg);
  }

  lemma AskedPlaced(cfg: Config, r: Request)
    requires Acceptable(cfg) && r == Asked(cfg, 5) && Validation(r) == Nominal
    ensures Placed(r).plans == [Chosen(cfg)] && Placed(r).failure == Nominal
  {
    hide Validation, OrderFor, Place, Ranked, Score, PlaceServices, Placed, FindService;
    SinglePlaced(r, ENTRY);
    FoundIn(cfg);
    OneCandidate(cfg, 5);
    OnePlaced(cfg, 5);
    assert [] + [Chosen(cfg)] == [Chosen(cfg)];
  }

  lemma OneStage(r: Request, cfg: Config)
    requires r.group.id == "g" && r.hash == cfg.hash
    ensures RolloutOrder(r, [Chosen(cfg)]) == [NAME]
    ensures Stages([NAME], 1, 0, 0) == [Model.Stage.Stage(0, [NAME], 0)]
  {
    NameIs(cfg.hash);
    hide InstanceName, Score;
    assert [Chosen(cfg)][..0] == [];
    assert RolloutOrder(r, []) == [];
    assert ReplicaNames(r, "s", [Sole(cfg)]) == [NAME];
    assert [] + [NAME] == [NAME];
    assert [NAME][..1] == [NAME] && [NAME][1..] == [];
    assert Stages([], 1, 0, 1) == [];
  }

  // ---------------------------------------------------------------------
  // Carrying the plan out.
  // ---------------------------------------------------------------------

  lemma ClaimedOne(st: RuntimeState, cfg: Config, at: nat)
    requires st.services == [SERVICE] && st.epoch == cfg.epoch && st.boot == cfg.boot && cfg.bounds.maxDpus > 0
    ensures ClaimPlans([], [Chosen(cfg)], "g", st, at, cfg.bounds.maxDpus) == Ok([Grant("d", "x", "g", cfg.epoch, cfg.boot, at)])
  {
    hide Score;
    FoundIn(cfg);
    hide FindService;
    assert Holders([]) == [];
    var g := Grant("d", "x", "g", cfg.epoch, cfg.boot, at);
    assert [][..0] + [g] + [][0..] == [g];
    assert Claim([], "x", "g", "d", cfg.epoch, cfg.boot, at, cfg.bounds.maxDpus) == Ok([g]);
    assert [Sole(cfg)][1..] == [] && [Chosen(cfg)][1..] == [];
    assert ClaimReplicas([g], "x", [], "g", st, at, cfg.bounds.maxDpus) == Ok([g]);
    assert ClaimReplicas([], "x", [Sole(cfg)], "g", st, at, cfg.bounds.maxDpus) == Ok([g]);
    assert ClaimPlans([g], [], "g", st, at, cfg.bounds.maxDpus) == Ok([g]);
  }

  lemma OneSlot(cfg: Config)
    ensures Slots([Chosen(cfg)]) == [Placement(cfg)] && PlannedIds(cfg.hash, "g", [Placement(cfg)]) == [NAME]
    ensures SlotId(cfg.hash, "g", Placement(cfg)) == NAME
  {
    hide Score;
    NameIs(cfg.hash);
    hide InstanceName;
    assert [Chosen(cfg)][1..] == [] && Slots([]) == [];
    assert SlotsOf(Chosen(cfg)) == [Placement(cfg)];
  }

  lemma CreatedOne(cfg: Config)
    requires Acceptable(cfg)
    ensures Reconcile(Work([], Reset(cfg.epoch, cfg.boot)), Deployment(cfg), "g", 5, cfg.bounds.maxInstances, cfg.hash)
         == Ok(Work([Placed1(cfg)], Fences(cfg.epoch, cfg.boot, map[NAME := 1])))
  {
    hide Score;
    OneSlot(cfg);
    hide Slots, PlannedIds, SlotId;
    var w := Work([], Reset(cfg.epoch, cfg.boot));
    var x := Work([Placed1(cfg)], Fences(cfg.epoch, cfg.boot, map[NAME := 1]));
    assert Ids([]) == [];
    assert FindInstance([], NAME) == None;
    assert map[][NAME := 1] == map[NAME := 1];
    assert [] + [Placed1(cfg)] == [Placed1(cfg)];
    assert ReconcileSlot(w, Placement(cfg), Deployment(cfg), "g", 5, cfg.bounds.maxInstances, cfg.hash) == Ok(x);
    hide ReconcileSlot;
    assert [Placement(cfg)][1..] == [];
    assert ReconcileSlots(x, [], Deployment(cfg), "g", 5, cfg.bounds.maxInstances, cfg.hash) == Ok(x);
    assert ReconcileSlots(w, [Placement(cfg)], Deployment(cfg), "g", 5, cfg.bounds.maxInstances, cfg.hash) == Ok(x);
    KeptOne(cfg, x, Deployment(cfg), 5);
  }

  lemma FindOnly(i: Instance)
    ensures FindInstance([i], i.id) == Some(0)
  {
    LessTotal(i.id, i.id);
    assert Ids([i]) == [i.id];
    assert Answers([i.id], i.id) == [false];
    assert Halve([false], 0, 1) == Halve([false], 0, 0) == 0;
  }

  lemma ReleasedAll(g: Grant)
    ensures ReleaseDevice([g], g.dpu) == []
  {
    ReleaseDeviceExact([g], g.dpu);
    var r := ReleaseDevice([g], g.dpu);
    FrontIn(r);
  }

  lemma FrontIn<T>(s: seq<T>)
    ensures s == [] || s[0] in s
  {
  }

  /** The planned instance is not retired. */
  lemma KeptOne(cfg: Config, x: Work, plan: Plan, at: nat)
    requires |x.instances| == 1 && x.instances[0].id == NAME && x.instances[0].service == "s"
    requires plan.services == [Chosen(cfg)] && plan.kind != Withdraw
    ensures RetireFrom(x, 0, plan, "g", [NAME], at) == Ok(x)
  {
    hide Score;
    var i := x.instances[0];
    assert Chosen(cfg) in plan.services && NAME in [NAME];
    assert !Retires(i, plan, "g", [NAME]);
    assert RetireFrom(x, 1, plan, "g", [NAME], at) == Ok(x);
  }

  function Installed(cfg: Config): RuntimeState {
    Observed(cfg).(journaled := 5, instances := [Placed1(cfg)], grants := [Held1(cfg)], plans := [Deployment(cfg)],
                   deploymentGeneration := 1, fences := Fences(cfg.epoch, cfg.boot, map[NAME := 1]))
  }

  lemma DeployPlanned(cfg: Config)
    requires Acceptable(cfg)
    ensures PlanFor(Observed(cfg).(journaled := 5), GROUP, INTENT, 5, cfg) == Ok(Deployment(cfg))
    ensures IntentStatus(Observed(cfg).(journaled := 5), INTENT) == Nominal
  {
    hide BuildPlan, BuildGraph, FindGroup, Deployment, Score;
    var st := Observed(cfg).(journaled := 5);
    FoundIn(cfg);
    AskedPlan(cfg);
    NoDependencies(cfg);
    assert RequestOf(st, [], GROUP, INTENT, 5, cfg) == Asked(cfg, 5);
  }

  /** An intent that passes every stage. */
  lemma IntentAccepted(st: RuntimeState, at: nat, intent: Intent, cfg: Config, group: Group, plan: Plan, grants: seq<Grant>, w: Work)
    requires IntentStatus(st, intent) == Nominal && FindGroup(st.groups, intent.group) == Some(group)
    requires PlanFor(st, group, intent, at, cfg) == Ok(plan)
    requires ClaimPlans(st.grants, plan.services, group.id, st, at, cfg.bounds.maxDpus) == Ok(grants)
    requires Reconcile(Work(st.instances, st.fences), plan, group.id, at, cfg.bounds.maxInstances, cfg.hash) == Ok(w)
    ensures ReduceIntent(st, at, intent, cfg) == Accept(Install(st, plan, w, grants, cfg.bounds), Nominal)
  {
    hide FindGroup, ClaimPlans, Reconcile, PlanFor, IntentStatus, Install;
  }

  lemma ApplyIntentIs(cfg: Config, st: RuntimeState, e: Event)
    requires e.body.IntentSubmitted?
    ensures Apply(cfg, st, e) == ReduceIntent(st, e.at, e.body.intent, cfg)
  {
    hide ReduceIntent;
  }

  lemma InstallFirst(st: RuntimeState, plan: Plan, i: Instance, f: Fences, grants: seq<Grant>, b: Bounds)
    requires st.plans == [] && plan.kind != Withdraw && b.maxPlans > 0
    ensures Install(st, plan, Work([i], f), grants, b)
         == st.(grants := grants, fences := f, instances := [i], plans := [plan], deploymentGeneration := plan.generation)
  {
    SortOne(i, InstanceLess);
    hide Sort;
    assert [] + [plan] == [plan];
    assert Retain([plan], b.maxPlans) == [plan];
  }

  lemma DeployReduces(cfg: Config)
    requires Acceptable(cfg)
    ensures ReduceIntent(Observed(cfg).(journaled := 5), 5, INTENT, cfg) == Accept(Installed(cfg), Nominal)
  {
    hide FindGroup, ClaimPlans, Reconcile, PlanFor, IntentStatus, Placed1, ReduceIntent, Install, FindService;
    var st := Observed(cfg).(journaled := 5);
    DeployPlanned(cfg);
    FoundIn(cfg);
    ClaimedOne(st, cfg, 5);
    CreatedOne(cfg);
    assert Deployment(cfg).services == [Chosen(cfg)] && Deployment(cfg).kind == Deploy && Deployment(cfg).generation == 1;
    hide Deployment, Chosen;
    var w := Work([Placed1(cfg)], Fences(cfg.epoch, cfg.boot, map[NAME := 1]));
    IntentAccepted(st, 5, INTENT, cfg, GROUP, Deployment(cfg), [Held1(cfg)], w);
    InstallFirst(st, Deployment(cfg), Placed1(cfg), w.fences, [Held1(cfg)], cfg.bounds);
  }

  lemma DeployIs(cfg: Config)
    requires Acceptable(cfg)
    ensures Delivered(cfg, Observed(cfg), DEPLOY) == Deployed(cfg)
  {
    hide ReduceIntent, Score, Apply, Delivered;
    DeployReduces(cfg);
    ApplyIntentIs(cfg, Observed(cfg).(journaled := 5), DEPLOY);
    assert Dull(Installed(cfg));
    hide Placed1, Deployment, Dull;
    DeliveredDull(cfg, Observed(cfg), DEPLOY, Installed(cfg));
  }

  lemma NoDependencies(cfg: Config)
    ensures BuildGraph([], cfg.bounds.maxDependencies) == Ok([])
  {
    assert Sort([], DependencyLess) == [];
  }

  const OPENING := [DECLARE, ASSEMBLE, GOVERN, OBSERVE, DEPLOY]

  /** The deployment as a script. */
  lemma DeployedState(cfg: Config)
    requires Acceptable(cfg)
    ensures Scripted(OPENING) && StateAfter(cfg, OPENING) == Deployed(cfg)
  {
    hide Delivered, Score;
    DeclareIs(cfg);
    AssembleIs(cfg);
    GovernIs(cfg);
    ObserveIs(cfg);
    DeployIs(cfg);
    hide Declared, Assembled, Governed, Observed, Deployed;
    assert OPENING[..4] == [DECLARE, ASSEMBLE, GOVERN, OBSERVE] && OPENING[..4][..3] == [DECLARE, ASSEMBLE, GOVERN];
    assert [DECLARE, ASSEMBLE, GOVERN][..2] == [DECLARE, ASSEMBLE] && [DECLARE, ASSEMBLE][..1] == [DECLARE] && [DECLARE][..0] == [];
    assert StateAfter(cfg, []) == Init(cfg);
    assert StateAfter(cfg, [DECLARE]) == Declared(cfg);
    assert StateAfter(cfg, [DECLARE, ASSEMBLE]) == Assembled(cfg);
    assert StateAfter(cfg, [DECLARE, ASSEMBLE, GOVERN]) == Governed(cfg);
    assert StateAfter(cfg, [DECLARE, ASSEMBLE, GOVERN, OBSERVE]) == Observed(cfg);
  }
}
