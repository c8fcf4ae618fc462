/** Replay: applying a journal again reaches the state the live run reached, up to
    what is derived from the logical clock. */
module Replay {
  import opened Base
  import opened Order
  import opened Model
  import opened Authority
  import opened Eligibility
  import opened DependencyGraph
  import opened Planner
  import opened Reducers
  import opened FreshBlind
  import opened Lifecycle
  import opened Table
  import opened Invariant
  import opened Runs

  // ---------------------------------------------------------------------
  // States that differ only in derived health, clock and journal count.
  // ---------------------------------------------------------------------

  ghost predicate AlikeInstance(i: Instance, j: Instance) {
    j == i.(health := j.health, healthFresh := j.healthFresh, healthObservedAt := j.healthObservedAt)
  }

  ghost predicate AlikeTable(a: seq<Instance>, b: seq<Instance>) {
    |a| == |b| && forall k :: 0 <= k < |a| ==> AlikeInstance(a[k], b[k])
  }

  ghost predicate AlikeDpus(a: seq<Dpu>, b: seq<Dpu>) {
    |a| == |b| && forall k :: 0 <= k < |a| ==> Dim(a[k]) == Dim(b[k])
  }

  ghost predicate Alike(a: RuntimeState, b: RuntimeState) {
    && b == a.(clock := b.clock, journaled := b.journaled, instances := b.instances,
               topology := a.topology.(dpus := b.topology.dpus))
    && AlikeTable(a.instances, b.instances) && AlikeDpus(a.topology.dpus, b.topology.dpus)
  }

  ghost predicate AlikeOut(a: Applied, b: Applied) {
    Alike(a.state, b.state) && a.code == b.code && a.applied == b.applied
  }

  lemma AlikeColumns(a: RuntimeState, b: RuntimeState)
    requires Alike(a, b)
    ensures Ids(a.instances) == Ids(b.instances)
    ensures DpuIds(a.topology.dpus) == DpuIds(b.topology.dpus) && DimAll(a.topology.dpus) == DimAll(b.topology.dpus)
  {
    AlikeIds(a.instances, b.instances);
    AlikeDevices(a.topology.dpus, b.topology.dpus);
  }

  lemma AlikeIds(a: seq<Instance>, b: seq<Instance>)
    requires AlikeTable(a, b)
    ensures Ids(a) == Ids(b)
  {
    forall k | 0 <= k < |a| ensures Ids(a)[k] == Ids(b)[k] { assert AlikeInstance(a[k], b[k]); }
  }

  lemma AlikeDevices(a: seq<Dpu>, b: seq<Dpu>)
    requires AlikeDpus(a, b)
    ensures DpuIds(a) == DpuIds(b) && DimAll(a) == DimAll(b)
  {
    forall k | 0 <= k < |a| ensures DpuIds(a)[k] == DpuIds(b)[k] && DimAll(a)[k] == DimAll(b)[k] {
      assert Dim(a[k]) == Dim(b[k]);
      assert Dim(a[k]).id == a[k].id && Dim(b[k]).id == b[k].id;
    }
  }

  lemma AlikeTrans(a: RuntimeState, b: RuntimeState, c: RuntimeState)
    requires Alike(a, b) && Alike(b, c)
    ensures Alike(a, c)
  {
    forall k | 0 <= k < |a.instances| ensures AlikeInstance(a.instances[k], c.instances[k]) {
      assert AlikeInstance(a.instances[k], b.instances[k]) && AlikeInstance(b.instances[k], c.instances[k]);
    }
    forall k | 0 <= k < |a.topology.dpus| ensures Dim(a.topology.dpus[k]) == Dim(c.topology.dpus[k]) {
      assert Dim(a.topology.dpus[k]) == Dim(b.topology.dpus[k]);
    }
    hide Dim;
  }

  lemma AlikeSym(a: RuntimeState, b: RuntimeState)
    requires Alike(a, b)
    ensures Alike(b, a)
  {
    forall k | 0 <= k < |a.instances| ensures AlikeInstance(b.instances[k], a.instances[k]) {
      assert AlikeInstance(a.instances[k], b.instances[k]);
    }
    assert a == b.(clock := a.clock, journaled := a.journaled, instances := a.instances,
                   topology := b.topology.(dpus := a.topology.dpus));
    hide Dim;
  }

  lemma AlikeSelf(a: RuntimeState)
    ensures Alike(a, a)
  {
  }

  /** Re-evaluating freshness changes derived fields only. */
  lemma RefreshAlike(st: RuntimeState)
    ensures Alike(st, RefreshHealth(st))
  {
    var dpus := RefreshDpus(st.topology.dpus, st.clock);
    forall k | 0 <= k < |st.instances| ensures AlikeInstance(st.instances[k], RefreshInstance(st.instances[k], dpus)) { }
  }

  lemma BothRefreshed(a: RuntimeState, b: RuntimeState)
    requires Alike(a, b)
    ensures Alike(RefreshHealth(a), RefreshHealth(b)) && Alike(a, RefreshHealth(b)) && Alike(RefreshHealth(a), b)
  {
    hide Alike, RefreshHealth;
    RefreshAlike(a);
    RefreshAlike(b);
    AlikeSym(a, RefreshHealth(a));
    AlikeTrans(RefreshHealth(a), a, b);
    AlikeTrans(RefreshHealth(a), b, RefreshHealth(b));
    AlikeTrans(a, b, RefreshHealth(b));
  }

  lemma ClockFree(a: RuntimeState, b: RuntimeState, ca: nat, cb: nat)
    requires Alike(a, b)
    ensures Alike(a.(clock := ca), b.(clock := cb)) && Alike(a, b.(clock := cb)) && Alike(a.(clock := ca), b)
  {
  }

  // ---------------------------------------------------------------------
  // Reducers of alike states.
  // ---------------------------------------------------------------------

  lemma TimeAlike(a: RuntimeState, b: RuntimeState, now: nat)
    requires Alike(a, b)
    ensures Alike(ReduceTime(a, now).state, ReduceTime(b, now).state)
  {
    hide Alike, RefreshHealth;
    ClockFree(a, b, now, now);
    BothRefreshed(a, b.(clock := now));
    BothRefreshed(a.(clock := now), b);
    BothRefreshed(a.(clock := now), b.(clock := now));
  }

  lemma CoordinatorAlike(a: RuntimeState, b: RuntimeState, at: nat, epoch: nat, coordinator: Id)
    requires Alike(a, b)
    ensures AlikeOut(ReduceCoordinator(a, at, epoch, coordinator), ReduceCoordinator(b, at, epoch, coordinator))
  {
    var x, y := FenceAll(a.instances, at, StaleAuthority), FenceAll(b.instances, at, StaleAuthority);
    forall k | 0 <= k < |x| ensures AlikeInstance(x[k], y[k]) {
      assert AlikeInstance(a.instances[k], b.instances[k]);
    }
    hide FenceInstance, Dim;
  }

  lemma ServiceAlike(a: RuntimeState, b: RuntimeState, s: Service, bounds: Bounds)
    requires Alike(a, b)
    ensures AlikeOut(ReduceService(a, s, bounds), ReduceService(b, s, bounds))
  {
    hide AlikeTable, AlikeDpus, Sort, FindService, ReplicaPolicyStatus;
    assert a.services == b.services;
  }

  lemma GroupAlike(a: RuntimeState, b: RuntimeState, g: Group, bounds: Bounds)
    requires Alike(a, b)
    ensures AlikeOut(ReduceGroup(a, g, bounds), ReduceGroup(b, g, bounds))
  {
    hide AlikeTable, AlikeDpus, Sort, FindService, AntiAffinityStatus;
    assert a.services == b.services && a.groups == b.groups;
  }

  lemma DependencyAlike(a: RuntimeState, b: RuntimeState, d: Dependency, bounds: Bounds)
    requires Alike(a, b)
    ensures AlikeOut(ReduceDependency(a, d, bounds), ReduceDependency(b, d, bounds))
  {
    hide AlikeTable, AlikeDpus, BuildGraph, FindService;
    assert a.services == b.services && a.dependencies == b.dependencies;
  }

  lemma PolicyAlike(a: RuntimeState, b: RuntimeState, at: nat, p: Policy)
    requires Alike(a, b)
    ensures AlikeOut(ReducePolicy(a, at, p), ReducePolicy(b, at, p))
  {
    hide AlikeTable, AlikeDpus;
  }

  lemma SetDpuAlike(a: RuntimeState, b: RuntimeState, k: nat, x: Dpu, y: Dpu, generation: nat)
    requires Alike(a, b) && k < |a.topology.dpus| && Dim(x) == Dim(y)
    ensures Alike(SetDpu(a, k, x).(capabilityGeneration := generation), SetDpu(b, k, y).(capabilityGeneration := generation))
    ensures Alike(SetDpu(a, k, x), SetDpu(b, k, y))
  {
    hide Dim, AlikeTable;
  }

  /** What two alike devices have in common. */
  lemma DimParts(p: Dpu, q: Dpu)
    requires Dim(p) == Dim(q)
    ensures p.id == q.id && p.capabilityGeneration == q.capabilityGeneration && p.state == q.state
    ensures p.healthObservedAt == q.healthObservedAt
  {
    assert Dim(p).id == p.id && Dim(q).id == q.id;
  }

  lemma CapabilitiesDim(p: Dpu, q: Dpu, caps: seq<Capability>, e: Body)
    requires Dim(p) == Dim(q) && e.CapabilityObserved?
    ensures Dim(ObserveCapabilities(p, caps, e)) == Dim(ObserveCapabilities(q, caps, e))
  {
  }

  lemma AttachDim(p: Dpu, q: Dpu, e: Body)
    requires Dim(p) == Dim(q) && e.DpuAttached?
    ensures Dim(Attach(p, e)) == Dim(Attach(q, e))
  {
  }

  lemma CapabilityAlike(a: RuntimeState, b: RuntimeState, at: nat, e: Body, bounds: Bounds)
    requires Alike(a, b) && e.CapabilityObserved?
    ensures AlikeOut(ReduceCapability(a, at, e, bounds), ReduceCapability(b, at, e, bounds))
  {
    hide Normalize, AlikeTable, DimAll, Dim, ObserveCapabilities, Evidence.FreshAt;
    AlikeColumns(a, b);
    var k := IndexOf(DpuIds(a.topology.dpus), e.dpu);
    assert k <= |a.topology.dpus| == |b.topology.dpus|;
    hide IndexOf, DpuIds;
    if k < |a.topology.dpus| {
      var p, q := a.topology.dpus[k], b.topology.dpus[k];
      DimParts(p, q);
      var caps := Normalize(e.capabilities, bounds.maxCapabilities);
      if caps.Ok? {
        CapabilitiesDim(p, q, caps.value, e);
        SetDpuAlike(a, b, k, ObserveCapabilities(p, caps.value, e), ObserveCapabilities(q, caps.value, e),
                    Max(a.capabilityGeneration, e.generation));
      }
      assert a.capabilityGeneration == b.capabilityGeneration;
      hide SetDpu, Alike;
    }
  }

  lemma HealthAlike(a: RuntimeState, b: RuntimeState, at: nat, e: Body)
    requires Alike(a, b) && e.HealthObserved?
    ensures AlikeOut(ReduceHealth(a, at, e), ReduceHealth(b, at, e))
  {
    AlikeColumns(a, b);
    var k := IndexOf(DpuIds(a.topology.dpus), e.dpu);
    hide RefreshHealth, AlikeTable, DpuIds, DimAll;
    if k < |a.topology.dpus| {
      var p, q := a.topology.dpus[k], b.topology.dpus[k];
      assert Dim(p) == Dim(q);
      var x, y := ObserveHealth(p, e.health, e.evidence, at, a.clock), ObserveHealth(q, e.health, e.evidence, at, b.clock);
      assert Dim(x) == Dim(y);
      assert p.healthObservedAt == q.healthObservedAt;
      hide Dim, ObserveHealth;
      SetDpuAlike(a, b, k, x, y, 0);
      BothRefreshed(SetDpu(a, k, x), SetDpu(b, k, y));
      hide Alike, SetDpu;
    }
  }

  lemma AttachedAlike(a: RuntimeState, b: RuntimeState, at: nat, e: Body)
    requires Alike(a, b) && e.DpuAttached?
    ensures AlikeOut(ReduceAttached(a, at, e), ReduceAttached(b, at, e))
  {
    hide AlikeTable, DimAll, Dim, Attach, SetDpu, Evidence.FreshAt, Evidence.Present;
    AlikeColumns(a, b);
    var k := IndexOf(DpuIds(a.topology.dpus), e.dpu);
    assert k <= |a.topology.dpus| == |b.topology.dpus|;
    hide IndexOf, DpuIds;
    assert a.topologyGeneration == b.topologyGeneration;
    if k < |a.topology.dpus| { AttachedAt(a, b, k, e); }
    hide Alike;
  }

  lemma AttachedAt(a: RuntimeState, b: RuntimeState, k: nat, e: Body)
    requires Alike(a, b) && e.DpuAttached? && k < |a.topology.dpus| == |b.topology.dpus|
    ensures a.topology.dpus[k].healthObservedAt == b.topology.dpus[k].healthObservedAt
    ensures Alike(SetDpu(a, k, Attach(a.topology.dpus[k], e)), SetDpu(b, k, Attach(b.topology.dpus[k], e)))
  {
    hide AlikeTable, Dim, Attach;
    var p, q := a.topology.dpus[k], b.topology.dpus[k];
    DimParts(p, q);
    AttachDim(p, q, e);
    SetDpuAlike(a, b, k, Attach(p, e), Attach(q, e), 0);
  }

  lemma LoseAlike(a: seq<Instance>, b: seq<Instance>, dpu: Id, at: nat)
    requires AlikeTable(a, b)
    ensures AlikeTable(LoseDevice(a, dpu, at), LoseDevice(b, dpu, at))
  {
    forall k | 0 <= k < |a| ensures AlikeInstance(LoseOn(a[k], dpu, at), LoseOn(b[k], dpu, at)) {
      assert AlikeInstance(a[k], b[k]);
    }
  }

  lemma LostAlike(a: RuntimeState, b: RuntimeState, at: nat, dpu: Id)
    requires Alike(a, b)
    ensures AlikeOut(ReduceLost(a, at, dpu), ReduceLost(b, at, dpu))
  {
    AlikeColumns(a, b);
    LoseAlike(a.instances, b.instances, dpu, at);
    var k := IndexOf(DpuIds(a.topology.dpus), dpu);
    hide LoseDevice, DpuIds, DimAll, AlikeTable;
    if k < |a.topology.dpus| {
      var p, q := a.topology.dpus[k], b.topology.dpus[k];
      assert Dim(p) == Dim(q);
      SetDpuAlike(a, b, k, p.(state := LostState, health := UnknownHealth, healthFresh := false, healthObservedAt := at),
                  q.(state := LostState, health := UnknownHealth, healthFresh := false, healthObservedAt := at), 0);
    }
  }

  lemma {:induction false} RemoveAlike(a: RuntimeState, b: RuntimeState, removed: seq<Id>, at: nat)
    requires Alike(a, b)
    ensures Alike(RemoveDevices(a, removed, at), RemoveDevices(b, removed, at))
    decreases |removed|
  {
    if removed != [] {
      LoseAlike(a.instances, b.instances, removed[0], at);
      hide LoseDevice, AlikeTable, AlikeDpus;
      RemoveAlike(a.(instances := LoseDevice(a.instances, removed[0], at), grants := ReleaseDevice(a.grants, removed[0])),
                  b.(instances := LoseDevice(b.instances, removed[0], at), grants := ReleaseDevice(b.grants, removed[0])),
                  removed[1..], at);
    }
  }

  lemma {:induction false} RemovedAlike(a: seq<Dpu>, b: seq<Dpu>, dpus: seq<Dpu>)
    requires DpuIds(a) == DpuIds(b)
    ensures Removed(a, dpus) == Removed(b, dpus)
  {
    if a != [] {
      assert DpuIds(a)[0] == DpuIds(b)[0] && DpuIds(a[1..]) == DpuIds(a)[1..] && DpuIds(b[1..]) == DpuIds(b)[1..];
      RemovedAlike(a[1..], b[1..], dpus);
    }
  }

  lemma TopologyAlike(a: RuntimeState, b: RuntimeState, at: nat, snapshot: Topology, bounds: Bounds)
    requires Alike(a, b)
    ensures AlikeOut(ReduceTopology(a, at, snapshot, bounds), ReduceTopology(b, at, snapshot, bounds))
  {
    var admitted := AdmitDpus(Sort(snapshot.dpus, DpuLess), a.capabilityGeneration, at, bounds.maxCapabilities);
    hide AdmitDpus, Sort;
    if ReduceTopology(a, at, snapshot, bounds).applied {
      AlikeColumns(a, b);
      RemovedAlike(a.topology.dpus, b.topology.dpus, admitted.value);
      hide Removed, DpuIds, DimAll;
      var removed := Removed(a.topology.dpus, admitted.value);
      var x := a.(topology := snapshot.(dpus := admitted.value), topologyGeneration := snapshot.generation);
      var y := b.(topology := snapshot.(dpus := admitted.value), topologyGeneration := snapshot.generation);
      RemoveAlike(x, y, removed, at);
      hide RefreshHealth, RemoveDevices, AlikeTable, AlikeDpus;
      var c := HighestCapability(admitted.value, a.capabilityGeneration);
      BothRefreshed(RemoveDevices(x, removed, at).(capabilityGeneration := c),
                    RemoveDevices(y, removed, at).(capabilityGeneration := c));
    }
  }

  lemma QuiesceAlike(a: RuntimeState, b: RuntimeState, at: nat, service: Id)
    requires Alike(a, b)
    ensures AlikeOut(ReduceQuiesce(a, at, service), ReduceQuiesce(b, at, service))
  {
    forall k | 0 <= k < |a.instances|
      ensures QuiesceApplies(a.instances[k], service) == QuiesceApplies(b.instances[k], service)
      ensures AlikeInstance(Quiesce(a.instances[k], at), Quiesce(b.instances[k], at))
    {
      assert AlikeInstance(a.instances[k], b.instances[k]);
    }
    hide Quiesce, QuiesceApplies, Dim;
    assert (exists i :: i in a.instances && QuiesceApplies(i, service)) ==
           (exists i :: i in b.instances && QuiesceApplies(i, service)) by {
      AnyApplies(a.instances, service);
      AnyApplies(b.instances, service);
    }
  }

  lemma AnyApplies(s: seq<Instance>, service: Id)
    ensures (exists i :: i in s && QuiesceApplies(i, service)) <==> exists k :: 0 <= k < |s| && QuiesceApplies(s[k], service)
  {
  }

  lemma SetInstanceAlike(a: RuntimeState, b: RuntimeState, k: nat, i: Instance, j: Instance, grants: seq<Grant>)
    requires Alike(a, b) && k < |a.instances| && AlikeInstance(i, j)
    ensures Alike(SetInstance(a, k, i).(grants := grants), SetInstance(b, k, j).(grants := grants))
    ensures Alike(SetInstance(a, k, i), SetInstance(b, k, j))
  {
    hide AlikeInstance, AlikeDpus;
  }

  lemma FindAlike(a: seq<Instance>, b: seq<Instance>, id: Id)
    requires AlikeTable(a, b)
    ensures FindInstance(a, id) == FindInstance(b, id)
    ensures FindInstance(a, id).Some? ==> FindInstance(a, id).value < |a|
  {
    AlikeIds(a, b);
    var k := LowerBound(Ids(a), id);
    if k < |a| { assert AlikeInstance(a[k], b[k]); }
  }

  lemma AcknowledgedAlike(a: RuntimeState, b: RuntimeState, e: Body)
    requires Alike(a, b) && e.ExecutionAcknowledged?
    ensures AlikeOut(ReduceAcknowledged(a, e), ReduceAcknowledged(b, e))
  {
    FindAlike(a.instances, b.instances, e.instance);
    var k := FindInstance(a.instances, e.instance);
    hide FindInstance, AlikeDpus, Validates;
    if k.Some? {
      var i, j := a.instances[k.value], b.instances[k.value];
      assert AlikeInstance(i, j);
      if ReduceAcknowledged(a, e).applied {
        SetInstanceAlike(a, b, k.value,
          i.(attempts := SetLast(i.attempts, LastAttempt(i).(phase := Acknowledged)), state := Acknowledged),
          j.(attempts := SetLast(j.attempts, LastAttempt(j).(phase := Acknowledged)), state := Acknowledged), a.grants);
      }
    }
  }

  lemma StatusOnAlike(i: Instance, j: Instance, f: Fences, at: nat, r: Report)
    requires AlikeInstance(i, j)
    ensures StatusOn(i, f, at, r) == StatusOn(j, f, at, r)
  {
    hide Validates, Evidence.FreshAt, Evidence.Present;
  }

  lemma StatusAlike(a: RuntimeState, b: RuntimeState, at: nat, r: Report)
    requires Alike(a, b)
    ensures ReportStatus(a, at, r) == ReportStatus(b, at, r)
  {
    hide StatusOn, AlikeDpus, AlikeInstance;
    FindAlike(a.instances, b.instances, r.instance);
    var k := FindInstance(a.instances, r.instance);
    hide FindInstance;
    if k.Some? {
      assert AlikeInstance(a.instances[k.value], b.instances[k.value]);
      StatusOnAlike(a.instances[k.value], b.instances[k.value], a.fences, at, r);
    }
  }

  lemma DecidedAlike(i: Instance, j: Instance, at: nat, r: Report)
    requires AlikeInstance(i, j) && i.attempts != []
    ensures AlikeInstance(Decided(i, at, r), Decided(j, at, r))
  {
  }

  lemma DecisionAlike(a: RuntimeState, b: RuntimeState, at: nat, r: Report, k: nat)
    requires Alike(a, b) && ReportStatus(a, at, r) == Nominal && ReportStatus(b, at, r) == Nominal
    requires FindInstance(a.instances, r.instance) == FindInstance(b.instances, r.instance) == Some(k)
    requires k < |a.instances| && a.instances[k].attempts != []
    ensures AlikeOut(ReduceEffect(a, at, r), ReduceEffect(b, at, r))
  {
    var i, j := a.instances[k], b.instances[k];
    assert AlikeInstance(i, j);
    DecidedAlike(i, j, at, r);
    SetInstanceAlike(a, b, k, Decided(i, at, r), Decided(j, at, r), ReleaseDevice(a.grants, i.dpu));
    hide ReportStatus, FindInstance, Decided, AlikeTable, AlikeDpus;
  }

  lemma EffectAlike(a: RuntimeState, b: RuntimeState, at: nat, r: Report)
    requires Alike(a, b)
    ensures AlikeOut(ReduceEffect(a, at, r), ReduceEffect(b, at, r))
  {
    StatusAlike(a, b, at, r);
    if ReportStatus(a, at, r) == Nominal {
      ReportAccepted(a, at, r);
      FindAlike(a.instances, b.instances, r.instance);
      hide ReportStatus, FindInstance, Alike, ReduceEffect;
      DecisionAlike(a, b, at, r, FindInstance(a.instances, r.instance).value);
    }
    hide ReportStatus, Alike;
  }

  // ---------------------------------------------------------------------
  // Intents.
  // ---------------------------------------------------------------------

  lemma BuiltAlike(a: RuntimeState, b: RuntimeState, edges: seq<Dependency>, group: Group, intent: Intent, at: nat, cfg: Config)
    requires Alike(a, b)
    ensures BuildPlan(RequestOf(a, edges, group, intent, at, cfg)) == BuildPlan(RequestOf(b, edges, group, intent, at, cfg))
  {
    hide AlikeTable, AlikeDpus, BuildPlan, DimAll, DpuIds;
    AlikeColumns(a, b);
    var r := RequestOf(a, edges, group, intent, at, cfg);
    PlanBlindBetween(r, b.topology.dpus);
    assert RequestOf(b, edges, group, intent, at, cfg) == r.(dpus := b.topology.dpus);
  }

  lemma PlanForAlike(a: RuntimeState, b: RuntimeState, group: Group, intent: Intent, at: nat, cfg: Config)
    requires Alike(a, b)
    ensures PlanFor(a, group, intent, at, cfg) == PlanFor(b, group, intent, at, cfg)
  {
    hide AlikeTable, AlikeDpus, BuildPlan, BuildGraph, WithdrawPlans, RollbackSource, RequestOf;
    var built := BuildGraph(a.dependencies, cfg.bounds.maxDependencies);
    if built.Ok? { BuiltAlike(a, b, built.value, group, intent, at, cfg); }
    assert a.dependencies == b.dependencies && a.services == b.services && a.plans == b.plans && a.policy == b.policy;
  }

  ghost predicate AlikeWork(v: Work, w: Work) { v.fences == w.fences && AlikeTable(v.instances, w.instances) }

  ghost predicate AlikeResult(v: Result<Work>, w: Result<Work>) {
    if v.Ok? then w.Ok? && AlikeWork(v.value, w.value) else v == w
  }

  lemma UpdateAlike(v: seq<Instance>, w: seq<Instance>, k: nat, i: Instance, j: Instance)
    requires AlikeTable(v, w) && k < |v| && AlikeInstance(i, j)
    ensures AlikeTable(v[k := i], w[k := j])
  {
    hide AlikeInstance;
  }

  lemma MovedAlike(i: Instance, j: Instance, s: Slot, plan: Plan, token: Token, at: nat)
    requires AlikeInstance(i, j)
    ensures Replaces(i, s) == Replaces(j, s) && HasOpen(i) == HasOpen(j)
    ensures AlikeInstance(ReplaceInstance(i, s, plan, token, at), ReplaceInstance(j, s, plan, token, at))
    ensures AlikeInstance(Reattempt(i, plan, token, at), Reattempt(j, plan, token, at))
    ensures AlikeInstance(i.(deploymentGeneration := plan.generation), j.(deploymentGeneration := plan.generation))
  {
  }

  lemma SlotAlike(v: Work, w: Work, s: Slot, plan: Plan, group: Id, at: nat, maxInstances: nat, hash: string -> string)
    requires AlikeWork(v, w)
    ensures AlikeResult(ReconcileSlot(v, s, plan, group, at, maxInstances, hash),
                        ReconcileSlot(w, s, plan, group, at, maxInstances, hash))
  {
    var id := SlotId(hash, group, s);
    FindAlike(v.instances, w.instances, id);
    var k := FindInstance(v.instances, id);
    hide FindInstance, SlotId, Issue, CreateInstance;
    if k.Some? {
      var i, j := v.instances[k.value], w.instances[k.value];
      assert AlikeInstance(i, j);
      var token := if Issue(v.fences, id).Ok? then Issue(v.fences, id).value.token else Token(0, 0, 0);
      MovedAlike(i, j, s, plan, token, at);
      hide ReplaceInstance, Reattempt, AlikeInstance, Replaces, HasOpen;
      UpdateAlike(v.instances, w.instances, k.value, ReplaceInstance(i, s, plan, token, at), ReplaceInstance(j, s, plan, token, at));
      UpdateAlike(v.instances, w.instances, k.value, Reattempt(i, plan, token, at), Reattempt(j, plan, token, at));
      UpdateAlike(v.instances, w.instances, k.value,
                  i.(deploymentGeneration := plan.generation), j.(deploymentGeneration := plan.generation));
      hide AlikeTable;
    } else {
      hide AlikeInstance;
      forall i ensures AlikeInstance(i, i) { SelfAlike(i); }
    }
  }

  lemma SelfAlike(i: Instance)
    ensures AlikeInstance(i, i)
  {
  }

  lemma {:induction false} SlotsAlike(v: Work, w: Work, slots: seq<Slot>, plan: Plan, group: Id, at: nat, maxInstances: nat, hash: string -> string)
    requires AlikeWork(v, w)
    ensures AlikeResult(ReconcileSlots(v, slots, plan, group, at, maxInstances, hash),
                        ReconcileSlots(w, slots, plan, group, at, maxInstances, hash))
    decreases |slots|
  {
    hide ReconcileSlot, AlikeWork;
    if slots != [] {
      SlotAlike(v, w, slots[0], plan, group, at, maxInstances, hash);
      var x := ReconcileSlot(v, slots[0], plan, group, at, maxInstances, hash);
      var y := ReconcileSlot(w, slots[0], plan, group, at, maxInstances, hash);
      if x.Ok? { SlotsAlike(x.value, y.value, slots[1..], plan, group, at, maxInstances, hash); }
    }
  }

  lemma {:induction false} RetireAlike(v: Work, w: Work, from: nat, plan: Plan, group: Id, planned: seq<Id>, at: nat)
    requires AlikeWork(v, w) && from <= |v.instances|
    ensures AlikeResult(RetireFrom(v, from, plan, group, planned, at), RetireFrom(w, from, plan, group, planned, at))
    decreases |v.instances| - from
  {
    if from < |v.instances| {
      var i, j := v.instances[from], w.instances[from];
      assert AlikeInstance(i, j);
      assert Retires(i, plan, group, planned) == Retires(j, plan, group, planned);
      var x, y := RetireInstance(i, v.fences, plan, at), RetireInstance(j, w.fences, plan, at);
      RetireOneAlike(i, j, v.fences, plan, at);
      hide Retires, RetireInstance, AlikeInstance;
      if !Retires(i, plan, group, planned) {
        RetireAlike(v, w, from + 1, plan, group, planned, at);
      } else if x.Ok? {
        RetireAlike(Work(v.instances[from := x.value.0], x.value.1), Work(w.instances[from := y.value.0], y.value.1),
                    from + 1, plan, group, planned, at);
      }
    }
  }

  lemma RetireOneAlike(i: Instance, j: Instance, f: Fences, plan: Plan, at: nat)
    requires AlikeInstance(i, j)
    ensures var x, y := RetireInstance(i, f, plan, at), RetireInstance(j, f, plan, at);
      if x.Ok? then y.Ok? && AlikeInstance(x.value.0, y.value.0) && x.value.1 == y.value.1
      else y.Err? && y.code == x.code
  {
    hide Issue;
  }

  lemma ReconcileAlike(v: Work, w: Work, plan: Plan, group: Id, at: nat, maxInstances: nat, hash: string -> string)
    requires AlikeWork(v, w)
    ensures AlikeResult(Reconcile(v, plan, group, at, maxInstances, hash), Reconcile(w, plan, group, at, maxInstances, hash))
  {
    var slots := Slots(plan.services);
    SlotsAlike(v, w, slots, plan, group, at, maxInstances, hash);
    var x := ReconcileSlots(v, slots, plan, group, at, maxInstances, hash);
    var y := ReconcileSlots(w, slots, plan, group, at, maxInstances, hash);
    if x.Ok? { RetireAlike(x.value, y.value, 0, plan, group, PlannedIds(hash, group, slots), at); }
    hide Slots, ReconcileSlots, RetireFrom, AlikeWork;
  }

  /** The instance without its derived health. */
  function Bare(i: Instance): Instance { i.(health := UnknownHealth, healthFresh := false, healthObservedAt := 0) }

  lemma AlikeIsBare(i: Instance, j: Instance)
    ensures AlikeInstance(i, j) <==> Bare(i) == Bare(j)
  {
    if Bare(i) == Bare(j) {
      assert Bare(i).id == i.id && Bare(j).id == j.id;
      assert j == Bare(j).(health := j.health, healthFresh := j.healthFresh, healthObservedAt := j.healthObservedAt);
      assert i.(health := j.health, healthFresh := j.healthFresh, healthObservedAt := j.healthObservedAt)
          == Bare(i).(health := j.health, healthFresh := j.healthFresh, healthObservedAt := j.healthObservedAt);
    }
  }

  lemma TableIsBare(a: seq<Instance>, b: seq<Instance>)
    ensures AlikeTable(a, b) <==> Map(Bare, a) == Map(Bare, b)
  {
    hide AlikeInstance, Bare;
    if |a| == |b| {
      forall k | 0 <= k < |a| ensures AlikeInstance(a[k], b[k]) <==> Map(Bare, a)[k] == Map(Bare, b)[k] {
        AlikeIsBare(a[k], b[k]);
      }
    }
  }

  lemma SortBare(s: seq<Instance>)
    ensures Map(Bare, Sort(s, InstanceLess)) == Sort(Map(Bare, s), InstanceLess)
  {
    forall i | i in s ensures Agrees(i, s, Bare, InstanceLess, InstanceLess) { }
    SortMaps(s, Bare, InstanceLess, InstanceLess);
  }

  lemma SortAlike(a: seq<Instance>, b: seq<Instance>)
    requires AlikeTable(a, b)
    ensures AlikeTable(Sort(a, InstanceLess), Sort(b, InstanceLess))
  {
    hide AlikeTable, Sort, Map, Bare;
    TableIsBare(a, b);
    SortBare(a);
    SortBare(b);
    TableIsBare(Sort(a, InstanceLess), Sort(b, InstanceLess));
  }

  lemma {:induction false} ClaimReplicasAlike(grants: seq<Grant>, scope: Id, replicas: seq<Replica>, group: Id, a: RuntimeState, b: RuntimeState, at: nat, maxGrants: nat)
    requires a.epoch == b.epoch && a.boot == b.boot
    ensures ClaimReplicas(grants, scope, replicas, group, a, at, maxGrants) == ClaimReplicas(grants, scope, replicas, group, b, at, maxGrants)
    decreases |replicas|
  {
    hide Claim;
    if replicas != [] {
      var r := Claim(grants, scope, group, replicas[0].dpu, a.epoch, a.boot, at, maxGrants);
      if r.Ok? { ClaimReplicasAlike(r.value, scope, replicas[1..], group, a, b, at, maxGrants); }
    }
  }

  lemma {:induction false} ClaimPlansAlike(grants: seq<Grant>, plans: seq<ServicePlan>, group: Id, a: RuntimeState, b: RuntimeState, at: nat, maxGrants: nat)
    requires a.epoch == b.epoch && a.boot == b.boot && a.services == b.services
    ensures ClaimPlans(grants, plans, group, a, at, maxGrants) == ClaimPlans(grants, plans, group, b, at, maxGrants)
    decreases |plans|
  {
    hide ClaimReplicas, FindService;
    if plans != [] {
      var s := FindService(a.services, plans[0].service);
      if s.None? || s.value.scope.None? {
        ClaimPlansAlike(grants, plans[1..], group, a, b, at, maxGrants);
      } else {
        ClaimReplicasAlike(grants, s.value.scope.value, plans[0].replicas, group, a, b, at, maxGrants);
        var r := ClaimReplicas(grants, s.value.scope.value, plans[0].replicas, group, a, at, maxGrants);
        if r.Ok? { ClaimPlansAlike(r.value, plans[1..], group, a, b, at, maxGrants); }
      }
    }
  }

  lemma InstallAlike(a: RuntimeState, b: RuntimeState, plan: Plan, v: Work, w: Work, grants: seq<Grant>, bounds: Bounds)
    requires Alike(a, b) && AlikeWork(v, w)
    ensures Alike(Install(a, plan, v, grants, bounds), Install(b, plan, w, grants, bounds))
  {
    SortAlike(v.instances, w.instances);
    hide Sort, Retain, AlikeTable, AlikeDpus;
  }

  lemma IntentStatusAlike(a: RuntimeState, b: RuntimeState, intent: Intent)
    requires Alike(a, b)
    ensures IntentStatus(a, intent) == IntentStatus(b, intent) && a.groups == b.groups && a.grants == b.grants
    ensures a.epoch == b.epoch && a.boot == b.boot && a.services == b.services && a.fences == b.fences
  {
    hide AlikeTable, AlikeDpus, FindGroup;
  }

  /** Everything an accepted intent computes, on alike states. */
  lemma ReconciledAlike(a: RuntimeState, b: RuntimeState, plan: Plan, group: Id, at: nat, cfg: Config)
    requires Alike(a, b)
    ensures var x := Reconcile(Work(a.instances, a.fences), plan, group, at, cfg.bounds.maxInstances, cfg.hash);
      var y := Reconcile(Work(b.instances, b.fences), plan, group, at, cfg.bounds.maxInstances, cfg.hash);
      AlikeResult(x, y)
  {
    hide AlikeTable, AlikeDpus, Reconcile;
    ReconcileAlike(Work(a.instances, a.fences), Work(b.instances, b.fences), plan, group, at, cfg.bounds.maxInstances, cfg.hash);
  }

  lemma IntentAlike(a: RuntimeState, b: RuntimeState, at: nat, intent: Intent, cfg: Config)
    requires Alike(a, b)
    ensures AlikeOut(ReduceIntent(a, at, intent, cfg), ReduceIntent(b, at, intent, cfg))
  {
    hide PlanFor, ClaimPlans, Reconcile, Alike, AlikeWork, Install;
    IntentStatusAlike(a, b, intent);
    if IntentStatus(a, intent) == Nominal {
      var group := FindGroup(a.groups, intent.group).value;
      hide IntentStatus, FindGroup;
      PlanForAlike(a, b, group, intent, at, cfg);
      var plan := PlanFor(a, group, intent, at, cfg);
      if plan.Ok? {
        ClaimPlansAlike(a.grants, plan.value.services, group.id, a, b, at, cfg.bounds.maxDpus);
        ReconciledAlike(a, b, plan.value, group.id, at, cfg);
        var grants := ClaimPlans(a.grants, plan.value.services, group.id, a, at, cfg.bounds.maxDpus);
        var x := Reconcile(Work(a.instances, a.fences), plan.value, group.id, at, cfg.bounds.maxInstances, cfg.hash);
        var y := Reconcile(Work(b.instances, b.fences), plan.value, group.id, at, cfg.bounds.maxInstances, cfg.hash);
        if grants.Ok? && x.Ok? { InstallAlike(a, b, plan.value, x.value, y.value, grants.value, cfg.bounds); }
      }
    }
    hide IntentStatus, FindGroup;
  }

  // ---------------------------------------------------------------------
  // Every event.
  // ---------------------------------------------------------------------

  /** Derived health, the clock and the journal count never influence what an event
      does to the rest of the state. */
  lemma ApplyAlike(cfg: Config, a: RuntimeState, b: RuntimeState, e: Event)
    requires Alike(a, b)
    ensures Alike(Apply(cfg, a, e).state, Apply(cfg, b, e).state)
    ensures !e.body.LogicalTimeAdvanced? ==> AlikeOut(Apply(cfg, a, e), Apply(cfg, b, e))
  {
    hide Alike;
    hide ReduceTime, ReduceCoordinator, ReduceTopology, ReduceLost, ReduceQuiesce, ReduceAcknowledged, ReduceEffect;
    hide ReduceIntent, ReduceCapability, ReduceHealth, ReduceAttached, ReduceService, ReduceGroup, ReduceDependency, ReducePolicy;
    match e.body
    case LogicalTimeAdvanced(now) => TimeAlike(a, b, now);
    case CoordinatorAdvanced(epoch, coordinator) => CoordinatorAlike(a, b, e.at, epoch, coordinator);
    case TopologyObserved(snapshot) => TopologyAlike(a, b, e.at, snapshot, cfg.bounds);
    case DpuLost(dpu) => LostAlike(a, b, e.at, dpu);
    case QuiesceRequested(service) => QuiesceAlike(a, b, e.at, service);
    case ExecutionAcknowledged(_, _, _) => AcknowledgedAlike(a, b, e.body);
    case EffectReported(r) => EffectAlike(a, b, e.at, r);
    case IntentSubmitted(intent) => IntentAlike(a, b, e.at, intent, cfg);
    case CapabilityObserved(_, _, _, _, _) => CapabilityAlike(a, b, e.at, e.body, cfg.bounds);
    case HealthObserved(_, _, _) => HealthAlike(a, b, e.at, e.body);
    case DpuAttached(_, _, _, _, _) => AttachedAlike(a, b, e.at, e.body);
    case ServiceDeclared(s) => ServiceAlike(a, b, s, cfg.bounds);
    case GroupDeclared(g) => GroupAlike(a, b, g, cfg.bounds);
    case DependencyDeclared(d) => DependencyAlike(a, b, d, cfg.bounds);
    case PolicyAdvanced(p) => PolicyAlike(a, b, e.at, p);
  }

  // ---------------------------------------------------------------------
  // Whole journals.
  // ---------------------------------------------------------------------

  /** Replaying one event: the same reducer, but neither the clock nor freshness move
      with it. */
  function ReplayOne(cfg: Config, st: RuntimeState, e: Event): RuntimeState {
    var a := Apply(cfg, st, e).state;
    a.(watermark := Max(a.watermark, e.at))
  }

  function ReplayAll(cfg: Config, st: RuntimeState, es: seq<Event>): RuntimeState {
    if es == [] then st else ReplayOne(cfg, ReplayAll(cfg, st, es[..|es| - 1]), es[|es| - 1])
  }

  lemma ReplaySnoc(cfg: Config, st: RuntimeState, es: seq<Event>, e: Event)
    ensures ReplayAll(cfg, st, es + [e]) == ReplayOne(cfg, ReplayAll(cfg, st, es), e)
  {
    hide ReplayOne;
    assert (es + [e])[..|es|] == es;
  }

  lemma OneAlike(cfg: Config, a: RuntimeState, b: RuntimeState, e: Event)
    requires Alike(a, b)
    ensures Alike(Commit(cfg, a, e), ReplayOne(cfg, b, e))
  {
    ApplyAlike(cfg, a, b, e);
    var x, y := Apply(cfg, a, e).state, Apply(cfg, b, e).state;
    hide Apply, RefreshHealth;
    var w := Max(x.watermark, e.at);
    assert Alike(x.(watermark := w), y.(watermark := w)) by { hide AlikeTable, AlikeDpus; }
    ClockFree(x.(watermark := w), y.(watermark := w), e.at, y.clock);
    assert y.(watermark := w).(clock := y.clock) == y.(watermark := w);
    BothRefreshed(x.(watermark := w, clock := e.at), y.(watermark := w));
    hide Alike;
  }

  /** Replaying a journal reaches the live state, up to what the clock derives. */
  lemma {:induction false} ReplayMatchesLive(cfg: Config, a: RuntimeState, b: RuntimeState, es: seq<Event>)
    requires Alike(a, b)
    ensures Alike(CommitAll(cfg, a, es), ReplayAll(cfg, b, es))
  {
    hide Alike, Commit, ReplayOne;
    if es != [] {
      var n := |es| - 1;
      ReplayMatchesLive(cfg, a, b, es[..n]);
      OneAlike(cfg, CommitAll(cfg, a, es[..n]), ReplayAll(cfg, b, es[..n]), es[n]);
    }
  }

  /** The latest instant any time event of the journal names, from `clock` on. */
  function Told(es: seq<Event>, clock: nat): nat {
    if es == [] then clock
    else
      var rest := Told(es[..|es| - 1], clock);
      var e := es[|es| - 1];
      if e.body.LogicalTimeAdvanced? then Max(rest, e.body.now) else rest
  }

  /** The latest instant of the journal's events, from `from` on. */
  function Latest(es: seq<Event>, from: nat): nat {
    if es == [] then from else Max(Latest(es[..|es| - 1], from), es[|es| - 1].at)
  }

  lemma {:induction false} ReplayClock(cfg: Config, st: RuntimeState, es: seq<Event>)
    ensures var r := ReplayAll(cfg, st, es);
      r.clock == Told(es, st.clock) && r.watermark == Latest(es, st.watermark) && r.boot == st.boot
      && r.storeId == st.storeId
  {
    hide Apply;
    if es != [] { ReplayClock(cfg, st, es[..|es| - 1]); }
  }

  lemma {:induction false} LiveClock(cfg: Config, st: RuntimeState, es: seq<Event>)
    ensures var r := CommitAll(cfg, st, es);
      r.clock == Max(Told(es, st.clock), Latest(es, 0)) && r.watermark == Latest(es, st.watermark) && r.boot == st.boot
  {
    hide Apply;
    if es != [] { LiveClock(cfg, st, es[..|es| - 1]); }
  }

  /** What has to be identical before and after a restart. */
  datatype Projection = Projection(
    storeId: Id, epoch: nat, clock: nat, watermark: nat, topologyGeneration: nat, capabilityGeneration: nat,
    policyGeneration: nat, deploymentGeneration: nat, policy: Policy, services: seq<Service>, groups: seq<Group>,
    dependencies: seq<Dependency>, plans: seq<Plan>)

  function Project(st: RuntimeState): Projection {
    Projection(st.storeId, st.epoch, st.clock, st.watermark, st.topologyGeneration, st.capabilityGeneration,
               st.policyGeneration, st.deploymentGeneration, st.policy, st.services, st.groups, st.dependencies, st.plans)
  }

  /** Replay restores the whole projection exactly when no journaled event lies past
      every instant the journal's time events name; otherwise only the clock differs. */
  lemma ProjectionReplayedExactly(cfg: Config, st: RuntimeState, es: seq<Event>)
    ensures var live, again := CommitAll(cfg, st, es), ReplayAll(cfg, st, es);
      && Project(live).(clock := again.clock) == Project(again)
      && (Project(live) == Project(again) <==> Latest(es, 0) <= Told(es, st.clock))
  {
    AlikeSelf(st);
    ReplayMatchesLive(cfg, st, st, es);
    ReplayClock(cfg, st, es);
    LiveClock(cfg, st, es);
    hide CommitAll, ReplayAll, AlikeTable, AlikeDpus, Told, Latest;
  }

  // ---------------------------------------------------------------------
  // Starting from a snapshot.
  // ---------------------------------------------------------------------

  /** Loading a snapshot resets the fence issuer. */
  function Restored(st: RuntimeState): RuntimeState { st.(fences := Reset(st.epoch, st.boot)) }

  /** A report that decides an open attempt live is refused after loading. */
  lemma RestoreForgetsTokens(st: RuntimeState, at: nat, r: Report, i: Instance)
    requires StateOk(st) && StateLive(st) && i in st.instances
    requires Addresses(i, r.instance, r.attempt, r.fence) && Conclusive(r, at, i)
    ensures ReduceEffect(st, at, r).applied && ReduceEffect(Restored(st), at, r) == Refuse(Restored(st), FenceMismatch)
  {
    ReportAcceptedExactly(st, at, r);
    ReportAccepted(st, at, r);
    hide StateOk, StateLive, Conclusive, FindInstance;
  }
}
