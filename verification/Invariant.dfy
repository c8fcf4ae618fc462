/** The invariant of the accepted state, kept by every event, and the two laws that
    hold of each single event: refusals change nothing, and authority only grows. */
module Invariant {
  import opened Base
  import opened Order
  import opened Model
  import opened Authority
  import opened Eligibility
  import opened DependencyGraph
  import opened Planner
  import opened Reducers
  import opened Lifecycle
  import opened Table

  /** What holds of every state, whatever was looked up: instances in order by themselves,
      the issuer under the accepted authority, tables of grants and devices sorted. */
  ghost predicate CoreOk(st: RuntimeState) {
    && Entries(st.instances, st.fences)
    && st.fences.epoch == st.epoch && st.fences.boot == st.boot
    && st.epoch > 0 && st.boot > 0 && Positive(st.fences)
    && GrantsSorted(st.grants)
    && StrictlySorted(DpuIds(st.topology.dpus)) && "" !in DpuIds(st.topology.dpus)
  }

  /** What correct lookups keep: sorted unique identities, and an issuer in step. */
  ghost predicate RowsOk(st: RuntimeState) {
    Rows(st.instances, st.fences) && StrictlySorted(Ids(st.instances))
  }

  ghost predicate StateOk(st: RuntimeState) { CoreOk(st) && RowsOk(st) }

  /** Every instance with an open attempt has a token the issuer knows. */
  ghost predicate StateLive(st: RuntimeState) { AllLive(st.instances, st.fences) }

  /** What one event does to a state, whatever was looked up. */
  ghost predicate Holds(st: RuntimeState, st': RuntimeState, at: nat) {
    && CoreOk(st')
    && (StateLive(st) ==> StateLive(st'))
    && TableEvolves(st.instances, st'.instances, at)
    && st'.boot == st.boot && st'.epoch >= st.epoch
    && st'.watermark == st.watermark
  }

  /** What an orderly event does. */
  ghost predicate Keeps(st: RuntimeState, st': RuntimeState, at: nat) {
    Holds(st, st', at) && (RowsOk(st) ==> RowsOk(st'))
  }

  /** An intent whose reconciliation looks every present instance up correctly.
      Any other event is orderly. */
  predicate Orderly(cfg: Config, st: RuntimeState, e: Event) {
    e.body.IntentSubmitted? && IntentStatus(st, e.body.intent) == Nominal ==>
      var group := FindGroup(st.groups, e.body.intent.group).value;
      var plan := PlanFor(st, group, e.body.intent, e.at, cfg);
      plan.Ok? ==> LookupsRight(Ids(st.instances), PlannedIds(cfg.hash, group.id, Slots(plan.value.services)))
  }

  // ---------------------------------------------------------------------
  // Events that leave instances, fences, grants and device identities alone.
  // ---------------------------------------------------------------------

  ghost predicate SameCore(st: RuntimeState, st': RuntimeState) {
    && st'.instances == st.instances && st'.fences == st.fences && st'.grants == st.grants
    && DpuIds(st'.topology.dpus) == DpuIds(st.topology.dpus)
    && st'.epoch == st.epoch && st'.boot == st.boot && st'.watermark == st.watermark
  }

  lemma SameCoreKeeps(st: RuntimeState, st': RuntimeState, at: nat)
    requires CoreOk(st) && SameCore(st, st')
    ensures Keeps(st, st', at)
  {
    hide Entries, Rows, Positive;
    hide AllLive;
    hide TableEvolves;
    SelfEvolves(st.instances, at);
  }

  lemma SetDpuCore(st: RuntimeState, k: nat, d: Dpu)
    requires k < |st.topology.dpus| && d.id == st.topology.dpus[k].id
    ensures SameCore(st, SetDpu(st, k, d))
  {
    assert DpuIds(st.topology.dpus[k := d]) == DpuIds(st.topology.dpus);
  }

  lemma RefreshKeeps(st: RuntimeState, at: nat)
    requires CoreOk(st)
    ensures Keeps(st, RefreshHealth(st), at)
  {
    var dpus := RefreshDpus(st.topology.dpus, st.clock);
    assert DpuIds(dpus) == DpuIds(st.topology.dpus);
    var a, b := st.instances, RefreshInstances(st.instances, dpus);
    forall k | 0 <= k < |a| ensures EntryKeeps(a[k], b[k], st.fences, at) && b[k].id == a[k].id {
      RefreshOk(a[k], dpus, st.fences, at);
    }
    PointwiseOk(a, b, st.fences, at);
    hide Entries, Rows, Positive;
    hide AllLive;
    hide TableEvolves;
  }

  lemma KeepsTrans(a: RuntimeState, b: RuntimeState, c: RuntimeState, at: nat)
    requires Keeps(a, b, at) && Keeps(b, c, at)
    ensures Keeps(a, c, at)
  {
    hide CoreOk, RowsOk, StateLive;
    TableEvolvesTrans(a.instances, b.instances, c.instances, at);
  }

  // ---------------------------------------------------------------------
  // Events that change instances pointwise.
  // ---------------------------------------------------------------------

  lemma PointwiseKeeps(st: RuntimeState, b: seq<Instance>, grants: seq<Grant>, at: nat)
    requires CoreOk(st) && |b| == |st.instances| && GrantsSorted(grants)
    requires forall k :: 0 <= k < |b| ==> EntryKeeps(st.instances[k], b[k], st.fences, at) && b[k].id == st.instances[k].id
    ensures Keeps(st, st.(instances := b, grants := grants), at)
  {
    PointwiseOk(st.instances, b, st.fences, at);
    hide Entries, Rows, Positive;
    hide AllLive;
    hide TableEvolves;
  }

  lemma LoseDeviceKeeps(st: RuntimeState, dpu: Id, at: nat)
    requires CoreOk(st)
    ensures Keeps(st, st.(instances := LoseDevice(st.instances, dpu, at), grants := ReleaseDevice(st.grants, dpu)), at)
  {
    ReleaseDeviceExact(st.grants, dpu);
    var b := LoseDevice(st.instances, dpu, at);
    forall k | 0 <= k < |b|
      ensures EntryKeeps(st.instances[k], b[k], st.fences, at) && b[k].id == st.instances[k].id
    {
      assert st.instances[k] in st.instances;
      LoseOk(st.instances[k], dpu, at, st.fences);
    }
    PointwiseKeeps(st, b, ReleaseDevice(st.grants, dpu), at);
  }

  lemma QuiesceKeeps(st: RuntimeState, at: nat, service: Id)
    requires CoreOk(st)
    ensures Keeps(st, ReduceQuiesce(st, at, service).state, at)
  {
    var r := ReduceQuiesce(st, at, service);
    if r.applied {
      var b := r.state.instances;
      forall k | 0 <= k < |b|
        ensures EntryKeeps(st.instances[k], b[k], st.fences, at) && b[k].id == st.instances[k].id
      {
        assert st.instances[k] in st.instances;
        QuiesceOk(st.instances[k], at, st.fences);
        SelfKeeps(st.instances[k], st.fences, at);
      }
      PointwiseKeeps(st, b, st.grants, at);
    } else {
      SameCoreKeeps(st, st, at);
    }
  }

  lemma SetInstanceKeeps(st: RuntimeState, k: nat, j: Instance, grants: seq<Grant>, at: nat)
    requires CoreOk(st) && k < |st.instances| && GrantsSorted(grants)
    requires EntryKeeps(st.instances[k], j, st.fences, at) && j.id == st.instances[k].id
    ensures Keeps(st, SetInstance(st, k, j).(grants := grants), at)
  {
    UpdateOk(st.instances, k, j, st.fences, at);
    hide Entries, Rows, Positive;
    hide AllLive;
    hide TableEvolves;
  }

  lemma AcknowledgedKeeps(st: RuntimeState, e: Body, at: nat)
    requires CoreOk(st) && e.ExecutionAcknowledged?
    ensures Keeps(st, ReduceAcknowledged(st, e).state, at)
  {
    var r := ReduceAcknowledged(st, e);
    if r.applied {
      var k := FindInstance(st.instances, e.instance).value;
      var i := st.instances[k];
      assert i in st.instances;
      AcknowledgeOk(i, st.fences, at);
      SetInstanceKeeps(st, k,
        i.(attempts := SetLast(i.attempts, LastAttempt(i).(phase := Acknowledged)), state := Acknowledged), st.grants, at);
    } else {
      SameCoreKeeps(st, st, at);
    }
  }

  lemma DecidedOk(i: Instance, f: Fences, at: nat, r: Report)
    requires InstanceOk(i, f) && HasOpen(i)
    requires r.evidence.Present() && r.evidence.FreshAt(at) && r.evidence.observedAt >= i.effectFencedAt
    ensures var j := Decided(i, at, r); EntryKeeps(i, j, f, at) && j.id == i.id
  {
    if r.status == FailedStatus {
      CloseOk(i, f, ClosedFailed, EffectFailed, at, Failed);
    } else {
      CloseOk(i, f, ClosedVerified, Nominal, at, Verified);
    }
    hide AttemptsOk;
    hide TokensOld;
  }

  lemma ReportAccepted(st: RuntimeState, at: nat, r: Report)
    requires ReportStatus(st, at, r) == Nominal
    ensures var k := FindInstance(st.instances, r.instance);
      && k.Some? && k.value < |st.instances| && st.instances[k.value].id == r.instance
      && HasOpen(st.instances[k.value]) && LastAttempt(st.instances[k.value]).number == r.attempt
      && Validates(st.fences, r.instance, r.fence)
      && r.evidence.Present() && r.evidence.FreshAt(at)
      && r.evidence.observedAt >= st.instances[k.value].effectFencedAt
  {
  }

  lemma EffectKeeps(st: RuntimeState, at: nat, r: Report)
    requires CoreOk(st)
    ensures Keeps(st, ReduceEffect(st, at, r).state, at)
  {
    if ReportStatus(st, at, r) == Nominal {
      ReportAccepted(st, at, r);
      hide ReportStatus;
      var k := FindInstance(st.instances, r.instance).value;
      var i := st.instances[k];
      assert i in st.instances;
      DecidedOk(i, st.fences, at, r);
      ReleaseDeviceExact(st.grants, i.dpu);
      hide Decided;
      hide Keeps;
      hide EntryKeeps;
      var out := ReduceEffect(st, at, r).state;
      SetInstanceKeeps(st, k, Decided(i, at, r), out.grants, at);
      assert out == SetInstance(st, k, Decided(i, at, r)).(grants := out.grants);
    } else {
      SameCoreKeeps(st, st, at);
    }
  }

  // ---------------------------------------------------------------------
  // The coordinator.
  // ---------------------------------------------------------------------

  lemma FencedUnder(i: Instance, f: Fences, epoch: nat, at: nat, reason: Reason)
    requires InstanceOk(i, f) && epoch >= f.epoch
    ensures var j := FenceInstance(i, at, reason);
      InstanceOk(j, Reset(epoch, f.boot)) && Live(j, Reset(epoch, f.boot)) && Evolves(i, j, at) && j.id == i.id
  {
    FenceOk(i, at, reason, f);
  }

  lemma FenceAllOk(s: seq<Instance>, f: Fences, g: Fences, at: nat, reason: Reason)
    requires Entries(s, f) && g.serials == map[]
    requires forall i :: i in s ==>
               InstanceOk(FenceInstance(i, at, reason), g) && Live(FenceInstance(i, at, reason), g)
               && Evolves(i, FenceInstance(i, at, reason), at)
    ensures var b := FenceAll(s, at, reason);
      && Entries(b, g) && (Distinct(Ids(s)) ==> Rows(b, g)) && AllLive(b, g) && TableEvolves(s, b, at)
      && Ids(b) == Ids(s)
  {
    hide InstanceOk;
    hide Live;
    hide Evolves;
    var b := FenceAll(s, at, reason);
    assert Ids(b) == Ids(s);
    forall k | 0 <= k < |s| ensures InstanceOk(b[k], g) && Live(b[k], g) && Evolves(s[k], b[k], at) {
      assert s[k] in s;
    }
    forall i | i in s ensures Succeeds(i, b, at) {
      var k :| 0 <= k < |s| && s[k] == i;
      assert b[k] in b;
    }
  }

  lemma CoordinatorKeeps(st: RuntimeState, at: nat, epoch: nat, coordinator: Id)
    requires CoreOk(st)
    ensures Keeps(st, ReduceCoordinator(st, at, epoch, coordinator).state, at)
  {
    hide InstanceOk, Live, Evolves, AllLive, TableEvolves, FenceAll, FenceInstance;
    if epoch < st.epoch {
      SameCoreKeeps(st, st, at);
    } else {
      forall i | i in st.instances
        ensures var j := FenceInstance(i, at, StaleAuthority);
          InstanceOk(j, Reset(epoch, st.boot)) && Live(j, Reset(epoch, st.boot)) && Evolves(i, j, at)
      {
        FencedUnder(i, st.fences, epoch, at, StaleAuthority);
      }
      FenceAllOk(st.instances, st.fences, Reset(epoch, st.boot), at, StaleAuthority);
      hide Entries, Rows, Positive;
    }
  }

  // ---------------------------------------------------------------------
  // Devices.
  // ---------------------------------------------------------------------

  lemma LostKeeps(st: RuntimeState, at: nat, dpu: Id)
    requires CoreOk(st)
    ensures Keeps(st, ReduceLost(st, at, dpu).state, at)
  {
    var k := IndexOf(DpuIds(st.topology.dpus), dpu);
    if ReduceLost(st, at, dpu).applied {
      var d := st.topology.dpus[k].(state := LostState, health := UnknownHealth, healthFresh := false, healthObservedAt := at);
      var mid := SetDpu(st, k, d);
      SetDpuCore(st, k, d);
      SameCoreKeeps(st, mid, at);
      LoseDeviceKeeps(mid, dpu, at);
      KeepsTrans(st, mid, ReduceLost(st, at, dpu).state, at);
    } else {
      SameCoreKeeps(st, st, at);
    }
  }

  lemma {:induction false} AdmitColumn(sorted: seq<Dpu>, generation: nat, at: nat, maxCapabilities: nat)
    requires AdmitDpus(sorted, generation, at, maxCapabilities).Ok?
    ensures DpuIds(AdmitDpus(sorted, generation, at, maxCapabilities).value) == DpuIds(sorted)
    ensures forall k :: 0 < k < |sorted| ==> sorted[k - 1].id != sorted[k].id
    ensures "" !in DpuIds(sorted)
  {
    if sorted != [] {
      var n := |sorted| - 1;
      AdmitColumn(sorted[..n], generation, at, maxCapabilities);
      assert DpuIds(sorted) == DpuIds(sorted[..n]) + [sorted[n].id];
    }
  }

  /** Ascending without equal neighbours is strictly ascending. */
  lemma {:induction false} NeighboursStrict(ids: seq<Id>, i: nat, j: nat)
    requires Column(ids) && i < j < |ids|
    requires forall k :: 0 < k < |ids| ==> ids[k - 1] != ids[k]
    ensures Less(ids[i], ids[j])
    decreases j - i
  {
    LessTotal(ids[j - 1], ids[j]);
    if i < j - 1 {
      NeighboursStrict(ids, i, j - 1);
      LessTrans(ids[i], ids[j - 1], ids[j]);
    }
  }

  lemma SortDpuColumn(dpus: seq<Dpu>)
    ensures Column(DpuIds(Sort(dpus, DpuLess)))
  {
    forall d | d in dpus ensures Agrees(d, dpus, DpuId, DpuLess, Less) { }
    SortMaps(dpus, DpuId, DpuLess, Less);
    LessStrictWeak();
    SortAscends(DpuIds(dpus), Less);
  }

  lemma AdmittedSorted(snapshot: seq<Dpu>, generation: nat, at: nat, maxCapabilities: nat)
    requires AdmitDpus(Sort(snapshot, DpuLess), generation, at, maxCapabilities).Ok?
    ensures StrictlySorted(DpuIds(AdmitDpus(Sort(snapshot, DpuLess), generation, at, maxCapabilities).value))
    ensures "" !in DpuIds(AdmitDpus(Sort(snapshot, DpuLess), generation, at, maxCapabilities).value)
  {
    var sorted := Sort(snapshot, DpuLess);
    var ids := DpuIds(sorted);
    AdmitColumn(sorted, generation, at, maxCapabilities);
    SortDpuColumn(snapshot);
    hide Column;
    hide Sort;
    hide AdmitDpus;
    forall k | 0 < k < |ids| ensures ids[k - 1] != ids[k] { assert sorted[k - 1].id != sorted[k].id; }
    forall i, j | 0 <= i < j < |ids| ensures Less(ids[i], ids[j]) { NeighboursStrict(ids, i, j); }
  }

  lemma {:induction false} RemoveDevicesKeeps(st: RuntimeState, removed: seq<Id>, at: nat)
    requires CoreOk(st)
    ensures Keeps(st, RemoveDevices(st, removed, at), at)
    ensures SameSettings(st, RemoveDevices(st, removed, at))
    decreases |removed|
  {
    hide CoreOk;
    hide Keeps;
    if removed == [] {
      SameCoreKeeps(st, st, at);
    } else {
      LoseDeviceKeeps(st, removed[0], at);
      var mid := st.(instances := LoseDevice(st.instances, removed[0], at), grants := ReleaseDevice(st.grants, removed[0]));
      KeepsOk(st, mid, at);
      RemoveDevicesKeeps(mid, removed[1..], at);
      KeepsTrans(st, mid, RemoveDevices(st, removed, at), at);
    }
  }

  lemma KeepsOk(st: RuntimeState, st': RuntimeState, at: nat)
    requires Keeps(st, st', at)
    ensures CoreOk(st') && (RowsOk(st) ==> RowsOk(st'))
  {
  }

  /** Everything but instances and grants. */
  ghost predicate SameSettings(st: RuntimeState, st': RuntimeState) {
    st' == st.(instances := st'.instances, grants := st'.grants)
  }

  lemma InstallTopologyKeeps(st: RuntimeState, topology: Topology, generation: nat, capability: nat, at: nat)
    requires CoreOk(st) && StrictlySorted(DpuIds(topology.dpus)) && "" !in DpuIds(topology.dpus)
    ensures Keeps(st, st.(topology := topology, topologyGeneration := generation, capabilityGeneration := capability), at)
  {
    hide Entries, Rows, Positive;
    hide AllLive;
    hide TableEvolves;
    SelfEvolves(st.instances, at);
  }

  lemma TopologyKeeps(st: RuntimeState, at: nat, snapshot: Topology, b: Bounds)
    requires CoreOk(st)
    ensures Keeps(st, ReduceTopology(st, at, snapshot, b).state, at)
  {
    var r := ReduceTopology(st, at, snapshot, b);
    if r.applied {
      var admitted := AdmitDpus(Sort(snapshot.dpus, DpuLess), st.capabilityGeneration, at, b.maxCapabilities).value;
      AdmittedSorted(snapshot.dpus, st.capabilityGeneration, at, b.maxCapabilities);
      hide AdmitDpus;
      hide Sort;
      hide CoreOk;
      hide Keeps;
      var removed := Removed(st.topology.dpus, admitted);
      var installed := st.(topology := snapshot.(dpus := admitted), topologyGeneration := snapshot.generation);
      var cleared := RemoveDevices(installed, removed, at);
      InstallTopologyKeeps(st, installed.topology, snapshot.generation, st.capabilityGeneration, at);
      KeepsOk(st, installed, at);
      RemoveDevicesKeeps(installed, removed, at);
      KeepsOk(installed, cleared, at);
      KeepsTrans(st, installed, cleared, at);
      TopologyRest(st, installed, cleared, HighestCapability(admitted, st.capabilityGeneration), at);
    } else {
      SameCoreKeeps(st, st, at);
    }
  }

  lemma TopologyRest(st: RuntimeState, installed: RuntimeState, cleared: RuntimeState, capability: nat, at: nat)
    requires Keeps(st, cleared, at) && CoreOk(cleared) && SameSettings(installed, cleared)
    ensures Keeps(st, RefreshHealth(cleared.(capabilityGeneration := capability)), at)
  {
    hide RefreshHealth;
    var raised := cleared.(capabilityGeneration := capability);
    SameCoreKeeps(cleared, raised, at);
    RefreshKeeps(raised, at);
    KeepsTrans(st, cleared, raised, at);
    KeepsTrans(st, raised, RefreshHealth(raised), at);
  }

  // ---------------------------------------------------------------------
  // Intents.
  // ---------------------------------------------------------------------

  lemma {:induction false} ClaimReplicasSorted(grants: seq<Grant>, scope: Id, replicas: seq<Replica>, group: Id, st: RuntimeState, at: nat, maxGrants: nat)
    requires GrantsSorted(grants) && ClaimReplicas(grants, scope, replicas, group, st, at, maxGrants).Ok?
    ensures GrantsSorted(ClaimReplicas(grants, scope, replicas, group, st, at, maxGrants).value)
    decreases |replicas|
  {
    if replicas != [] {
      ClaimExact(grants, scope, group, replicas[0].dpu, st.epoch, st.boot, at, maxGrants);
      hide Claim;
      hide GrantsSorted;
      var r := Claim(grants, scope, group, replicas[0].dpu, st.epoch, st.boot, at, maxGrants);
      ClaimReplicasSorted(r.value, scope, replicas[1..], group, st, at, maxGrants);
    }
  }

  lemma {:induction false} ClaimPlansSorted(grants: seq<Grant>, plans: seq<ServicePlan>, group: Id, st: RuntimeState, at: nat, maxGrants: nat)
    requires GrantsSorted(grants) && ClaimPlans(grants, plans, group, st, at, maxGrants).Ok?
    ensures GrantsSorted(ClaimPlans(grants, plans, group, st, at, maxGrants).value)
    decreases |plans|
  {
    hide GrantsSorted;
    hide ClaimReplicas;
    hide FindService;
    if plans != [] {
      var s := FindService(st.services, plans[0].service);
      if s.None? || s.value.scope.None? {
        ClaimPlansSorted(grants, plans[1..], group, st, at, maxGrants);
      } else {
        ClaimReplicasSorted(grants, s.value.scope.value, plans[0].replicas, group, st, at, maxGrants);
        var r := ClaimReplicas(grants, s.value.scope.value, plans[0].replicas, group, st, at, maxGrants);
        ClaimPlansSorted(r.value, plans[1..], group, st, at, maxGrants);
      }
    }
  }

  lemma InstallKeeps(st: RuntimeState, plan: Plan, w: Work, grants: seq<Grant>, b: Bounds, at: nat)
    requires CoreOk(st) && GrantsSorted(grants) && WorkKeeps(Work(st.instances, st.fences), w, at)
    ensures Holds(st, Install(st, plan, w, grants, b), at)
    ensures RowsKept(Work(st.instances, st.fences), w) ==> Keeps(st, Install(st, plan, w, grants, b), at)
  {
    SortInstances(w.instances, w.fences, at);
    hide Entries, Rows, Positive, AllLive, TableEvolves, Sort, Retain;
    TableEvolvesTrans(st.instances, w.instances, Sort(w.instances, InstanceLess), at);
  }

  lemma IntentKeeps(st: RuntimeState, e: Event, cfg: Config)
    requires CoreOk(st) && e.body.IntentSubmitted?
    ensures var st' := ReduceIntent(st, e.at, e.body.intent, cfg).state;
      Holds(st, st', e.at) && (Orderly(cfg, st, e) ==> Keeps(st, st', e.at))
  {
    var r := ReduceIntent(st, e.at, e.body.intent, cfg);
    if r.applied {
      hide IntentStatus, FindGroup, PlanFor, ClaimPlans, Reconcile, Install, LookupsRight, RowsKept;
      var group := FindGroup(st.groups, e.body.intent.group).value;
      var plan := PlanFor(st, group, e.body.intent, e.at, cfg).value;
      ClaimPlansSorted(st.grants, plan.services, group.id, st, e.at, cfg.bounds.maxDpus);
      var w := Work(st.instances, st.fences);
      ReconcileOk(w, plan, group.id, e.at, cfg.bounds.maxInstances, cfg.hash);
      hide Holds, Keeps;
      InstallKeeps(st, plan, Reconcile(w, plan, group.id, e.at, cfg.bounds.maxInstances, cfg.hash).value,
                   ClaimPlans(st.grants, plan.services, group.id, st, e.at, cfg.bounds.maxDpus).value, cfg.bounds, e.at);
    } else {
      SameCoreKeeps(st, st, e.at);
    }
  }

  // ---------------------------------------------------------------------
  // Every event.
  // ---------------------------------------------------------------------

  /** Declarations and policy touch neither instances nor authority nor devices. */
  lemma ServiceKeeps(st: RuntimeState, s: Service, b: Bounds, at: nat)
    requires CoreOk(st)
    ensures Keeps(st, ReduceService(st, s, b).state, at)
  {
    var st' := ReduceService(st, s, b).state;
    assert SameCore(st, st') by {
      hide Sort;
      hide ReplicaPolicyStatus;
      hide FindService;
      assert st' == st.(services := st'.services);
    }
    SameCoreKeeps(st, st', at);
  }

  lemma GroupKeeps(st: RuntimeState, g: Group, b: Bounds, at: nat)
    requires CoreOk(st)
    ensures Keeps(st, ReduceGroup(st, g, b).state, at)
  {
    var st' := ReduceGroup(st, g, b).state;
    assert SameCore(st, st') by {
      hide Sort;
      hide AntiAffinityStatus;
      hide FindService;
      assert st' == st.(groups := st'.groups);
    }
    SameCoreKeeps(st, st', at);
  }

  lemma DependencyKeeps(st: RuntimeState, d: Dependency, b: Bounds, at: nat)
    requires CoreOk(st)
    ensures Keeps(st, ReduceDependency(st, d, b).state, at)
  {
    var st' := ReduceDependency(st, d, b).state;
    assert SameCore(st, st') by {
      hide BuildGraph;
      hide FindService;
      assert st' == st.(dependencies := st'.dependencies);
    }
    SameCoreKeeps(st, st', at);
  }

  lemma PolicyKeeps(st: RuntimeState, p: Policy, at: nat)
    requires CoreOk(st)
    ensures Keeps(st, ReducePolicy(st, at, p).state, at)
  {
    var st' := ReducePolicy(st, at, p).state;
    assert SameCore(st, st');
    SameCoreKeeps(st, st', at);
  }

  lemma DpuKeeps(st: RuntimeState, k: nat, d: Dpu, generation: nat, at: nat)
    requires CoreOk(st) && k < |st.topology.dpus| && d.id == st.topology.dpus[k].id
    ensures Keeps(st, SetDpu(st, k, d).(capabilityGeneration := generation), at)
    ensures Keeps(st, SetDpu(st, k, d), at) && Keeps(st, RefreshHealth(SetDpu(st, k, d)), at)
  {
    var mid := SetDpu(st, k, d);
    SetDpuCore(st, k, d);
    SameCoreKeeps(st, mid, at);
    SameCoreKeeps(st, mid.(capabilityGeneration := generation), at);
    RefreshKeeps(mid, at);
    KeepsTrans(st, mid, RefreshHealth(mid), at);
  }

  lemma CapabilityKeeps(st: RuntimeState, at: nat, e: Body, b: Bounds)
    requires CoreOk(st) && e.CapabilityObserved?
    ensures Keeps(st, ReduceCapability(st, at, e, b).state, at)
  {
    hide CoreOk;
    hide Keeps;
    hide Normalize;
    var r := ReduceCapability(st, at, e, b);
    if r.applied {
      var k := IndexOf(DpuIds(st.topology.dpus), e.dpu);
      DpuKeeps(st, k, r.state.topology.dpus[k], r.state.capabilityGeneration, at);
    } else {
      SameCoreKeeps(st, st, at);
    }
  }

  lemma HealthKeeps(st: RuntimeState, at: nat, e: Body)
    requires CoreOk(st) && e.HealthObserved?
    ensures Keeps(st, ReduceHealth(st, at, e).state, at)
  {
    hide CoreOk;
    hide Keeps;
    hide RefreshHealth;
    var k := IndexOf(DpuIds(st.topology.dpus), e.dpu);
    if ReduceHealth(st, at, e).applied {
      var d := st.topology.dpus[k];
      DpuKeeps(st, k, ObserveHealth(d, e.health, e.evidence, at, st.clock), 0, at);
    } else {
      SameCoreKeeps(st, st, at);
    }
  }

  lemma AttachedKeeps(st: RuntimeState, at: nat, e: Body)
    requires CoreOk(st) && e.DpuAttached?
    ensures Keeps(st, ReduceAttached(st, at, e).state, at)
  {
    hide CoreOk;
    hide Keeps;
    hide RefreshHealth;
    var k := IndexOf(DpuIds(st.topology.dpus), e.dpu);
    var r := ReduceAttached(st, at, e);
    if r.applied {
      DpuKeeps(st, k, r.state.topology.dpus[k], 0, at);
    } else {
      SameCoreKeeps(st, st, at);
    }
  }

  lemma TimeKeeps(st: RuntimeState, now: nat, at: nat)
    requires CoreOk(st)
    ensures Keeps(st, ReduceTime(st, now).state, at)
  {
    hide CoreOk;
    hide Keeps;
    hide RefreshHealth;
    var mid := st.(clock := now);
    SameCoreKeeps(st, mid, at);
    KeepsOk(st, mid, at);
    RefreshKeeps(mid, at);
    KeepsTrans(st, mid, RefreshHealth(mid), at);
    SameCoreKeeps(st, st, at);
  }

  /** An event keeps every instance in order and its open attempt known, changes each
      instance only as an instance may evolve, and never lowers the authority. An
      orderly event also keeps the rows. */
  lemma ApplyKeeps(cfg: Config, st: RuntimeState, e: Event)
    requires CoreOk(st)
    ensures Holds(st, Apply(cfg, st, e).state, e.at)
    ensures Orderly(cfg, st, e) ==> Keeps(st, Apply(cfg, st, e).state, e.at)
  {
    hide CoreOk, RowsOk, Holds, Orderly;
    hide ReduceTime, ReduceCoordinator, ReduceTopology, ReduceLost, ReduceQuiesce, ReduceAcknowledged, ReduceEffect;
    hide ReduceIntent, ReduceCapability, ReduceHealth, ReduceAttached, ReduceService, ReduceGroup, ReduceDependency, ReducePolicy;
    match e.body
    case LogicalTimeAdvanced(now) => TimeKeeps(st, now, e.at);
    case CoordinatorAdvanced(epoch, coordinator) => CoordinatorKeeps(st, e.at, epoch, coordinator);
    case TopologyObserved(snapshot) => TopologyKeeps(st, e.at, snapshot, cfg.bounds);
    case DpuLost(dpu) => LostKeeps(st, e.at, dpu);
    case QuiesceRequested(service) => QuiesceKeeps(st, e.at, service);
    case ExecutionAcknowledged(_, _, _) => AcknowledgedKeeps(st, e.body, e.at);
    case EffectReported(r) => EffectKeeps(st, e.at, r);
    case IntentSubmitted(intent) => IntentKeeps(st, e, cfg);
    case CapabilityObserved(_, _, _, _, _) => CapabilityKeeps(st, e.at, e.body, cfg.bounds);
    case HealthObserved(_, _, _) => HealthKeeps(st, e.at, e.body);
    case DpuAttached(_, _, _, _, _) => AttachedKeeps(st, e.at, e.body);
    case ServiceDeclared(s) => ServiceKeeps(st, s, cfg.bounds, e.at);
    case GroupDeclared(g) => GroupKeeps(st, g, cfg.bounds, e.at);
    case DependencyDeclared(d) => DependencyKeeps(st, d, cfg.bounds, e.at);
    case PolicyAdvanced(p) => PolicyKeeps(st, p, e.at);
  }

  // ---------------------------------------------------------------------
  // Refusals.
  // ---------------------------------------------------------------------

  /** Whether the registry's grants survive an issuer that would refuse the new epoch. */
  predicate IssuerInStep(st: RuntimeState) { st.fences.epoch <= st.epoch || st.grants == [] }

  /** A refused event leaves no trace exactly when the issuer is not ahead of the
      accepted epoch, or there is no grant to lose. */
  lemma RefusalLeavesNoTrace(cfg: Config, st: RuntimeState)
    ensures (forall e :: !Apply(cfg, st, e).applied ==> Apply(cfg, st, e).state == st) <==> IssuerInStep(st)
  {
    hide ReduceTime, ReduceTopology, ReduceLost, ReduceQuiesce, ReduceAcknowledged, ReduceEffect;
    hide ReduceIntent, ReduceCapability, ReduceHealth, ReduceAttached, ReduceService, ReduceGroup, ReduceDependency, ReducePolicy;
    if IssuerInStep(st) {
      forall e | !Apply(cfg, st, e).applied ensures Apply(cfg, st, e).state == st {
        RefusedUnchanged(cfg, st, e);
      }
    } else {
      var e := Event("", "", 0, 0, 0, CoordinatorAdvanced(st.epoch, ""), "");
      assert Apply(cfg, st, e).state.grants == [];
    }
  }

  lemma RefusedUnchanged(cfg: Config, st: RuntimeState, e: Event)
    requires IssuerInStep(st) && !Apply(cfg, st, e).applied
    ensures Apply(cfg, st, e).state == st
  {
    hide ReduceTime, ReduceTopology, ReduceLost, ReduceQuiesce, ReduceAcknowledged, ReduceEffect;
    hide ReduceIntent, ReduceCapability, ReduceHealth, ReduceAttached, ReduceService, ReduceGroup, ReduceDependency, ReducePolicy;
  }
}
