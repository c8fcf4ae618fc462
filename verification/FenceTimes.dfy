/** The instant an instance was last fenced at: which events set it, on every state, and a
    run in which it moves back. */
module FenceTimes {
  import opened Base
  import opened Order
  import opened Model
  import opened Authority
  import opened Eligibility
  import opened DependencyGraph
  import opened Planner
  import opened Reducers
  import opened Lifecycle
  import opened Table
  import opened Invariant
  import opened Ownership

  /** A lookup of `id` finds row `k`. */
  predicate Finds(ids: seq<Id>, id: Id, k: nat) { Hit(ids, id) && LowerBound(ids, id) == k }

  /** Some planned replica is looked up at row `k`, which held `i`, and replaces it. */
  predicate Replaced(i: Instance, k: nat, ids: seq<Id>, slots: seq<Slot>, group: Id, hash: string -> string)
    decreases |slots|
  {
    slots != [] &&
    var id := SlotId(hash, group, slots[0]);
    || (Finds(ids, id, k) && Replaces(i, slots[0]))
    || Replaced(i, k, if Hit(ids, id) then ids else ids + [id], slots[1..], group, hash)
  }

  /** The topology is installed. */
  predicate Installs(st: RuntimeState, at: nat, snapshot: Topology, b: Bounds) {
    && snapshot.generation > 0 && snapshot.generation >= st.topologyGeneration && |snapshot.dpus| <= b.maxDpus
    && AdmitDpus(Sort(snapshot.dpus, DpuLess), st.capabilityGeneration, at, b.maxCapabilities).Ok?
  }

  /** The event fences row `k`: a new coordinator, the loss or removal of the row's device,
      a withdrawal reported for it, or a plan that replaces it. */
  predicate Refences(cfg: Config, st: RuntimeState, e: Event, k: nat)
    requires k < |st.instances|
  {
    var i := st.instances[k];
    match e.body
    case CoordinatorAdvanced(epoch, _) => epoch >= st.epoch && epoch >= st.fences.epoch
    case TopologyObserved(snapshot) =>
      Installs(st, e.at, snapshot, cfg.bounds) && i.dpu in DpuIds(st.topology.dpus) && i.dpu !in DpuIds(snapshot.dpus)
    case DpuLost(dpu) => i.dpu == dpu && FindDpu(st.topology.dpus, dpu).Some? && FindDpu(st.topology.dpus, dpu).value.state != LostState
    case EffectReported(r) =>
      && Finds(Ids(st.instances), r.instance, k) && StatusOn(i, st.fences, e.at, r) == Nominal
      && r.kind == WithdrawEffect && r.status != FailedStatus
    case IntentSubmitted(intent) =>
      && IntentStatus(st, intent) == Nominal && PlanOf(cfg, st, e.at, intent).Ok?
      && var group, plan := FindGroup(st.groups, intent.group).value, PlanOf(cfg, st, e.at, intent).value;
      Carries(cfg, st, e.at, group, plan) && Replaced(i, k, Ids(st.instances), Slots(plan.services), group.id, cfg.hash)
    case _ => false
  }

  /** From `a` to `b`, row by row: same identity, and fenced at `at` or as before. */
  ghost predicate FencedTo(i: Instance, j: Instance, at: nat, now: bool) {
    j.id == i.id && j.effectFencedAt == if now then at else i.effectFencedAt
  }

  // ---------------------------------------------------------------------
  // Reconciliation.
  // ---------------------------------------------------------------------

  /** Not replaced so far. */
  ghost predicate Unmoved(i: Instance, j: Instance) {
    j.id == i.id && j.effectFencedAt == i.effectFencedAt && j.dpu == i.dpu && j.version == i.version
    && (Terminal(j.state) <==> Terminal(i.state))
  }

  lemma FindsRow(s: seq<Instance>, id: Id, k: nat)
    requires k < |s|
    ensures FindInstance(s, id) == Some(k) <==> Finds(Ids(s), id, k)
    ensures FindInstance(s, id).Some? ==> FindInstance(s, id).value < |s|
  {
    hide LowerBound;
  }

  lemma SlotFences(w: Work, s: Slot, plan: Plan, group: Id, at: nat, maxInstances: nat, hash: string -> string, k: nat)
    requires k < |w.instances| && ReconcileSlot(w, s, plan, group, at, maxInstances, hash).Ok?
    ensures var x := ReconcileSlot(w, s, plan, group, at, maxInstances, hash).value;
      && k < |x.instances| && x.instances[k].id == w.instances[k].id
      && (if Finds(Ids(w.instances), SlotId(hash, group, s), k) && Replaces(w.instances[k], s)
          then x.instances[k].effectFencedAt == at else Unmoved(w.instances[k], x.instances[k]))
  {
    hide SlotId, Issue, Finds;
    FindsRow(w.instances, SlotId(hash, group, s), k);
    hide FindInstance;
  }

  /** Once fenced at the event's instant, so it stays. */
  lemma {:induction false} SlotsStay(w: Work, slots: seq<Slot>, plan: Plan, group: Id, at: nat, maxInstances: nat, hash: string -> string, k: nat)
    requires k < |w.instances| && w.instances[k].effectFencedAt == at && ReconcileSlots(w, slots, plan, group, at, maxInstances, hash).Ok?
    ensures var x := ReconcileSlots(w, slots, plan, group, at, maxInstances, hash).value;
      k < |x.instances| && x.instances[k].id == w.instances[k].id && x.instances[k].effectFencedAt == at
    decreases |slots|
  {
    hide ReconcileSlot, Finds, Replaces, SlotId;
    if slots != [] {
      SlotFences(w, slots[0], plan, group, at, maxInstances, hash, k);
      SlotsStay(ReconcileSlot(w, slots[0], plan, group, at, maxInstances, hash).value, slots[1..], plan, group, at, maxInstances, hash, k);
    }
  }

  lemma ReplacesSame(i: Instance, j: Instance, s: Slot)
    requires Unmoved(i, j)
    ensures Replaces(i, s) <==> Replaces(j, s)
  {
  }

  lemma {:induction false} SlotsFence(w: Work, slots: seq<Slot>, plan: Plan, group: Id, at: nat, maxInstances: nat, hash: string -> string, i: Instance, k: nat)
    requires k < |w.instances| && Unmoved(i, w.instances[k]) && ReconcileSlots(w, slots, plan, group, at, maxInstances, hash).Ok?
    ensures var x := ReconcileSlots(w, slots, plan, group, at, maxInstances, hash).value;
      k < |x.instances| && FencedTo(i, x.instances[k], at, Replaced(i, k, Ids(w.instances), slots, group, hash))
    decreases |slots|
  {
    hide ReconcileSlot, Finds, Hit, Replaces, SlotId;
    if slots != [] {
      var next := ReconcileSlot(w, slots[0], plan, group, at, maxInstances, hash).value;
      SlotFences(w, slots[0], plan, group, at, maxInstances, hash, k);
      ReconcileSlotColumn(w, slots[0], plan, group, at, maxInstances, hash);
      ReplacesSame(i, w.instances[k], slots[0]);
      if Finds(Ids(w.instances), SlotId(hash, group, slots[0]), k) && Replaces(i, slots[0]) {
        SlotsStay(next, slots[1..], plan, group, at, maxInstances, hash, k);
      } else {
        SlotsFence(next, slots[1..], plan, group, at, maxInstances, hash, i, k);
      }
    }
  }

  lemma {:induction false} RetireFences(w: Work, from: nat, plan: Plan, group: Id, planned: seq<Id>, at: nat, k: nat)
    requires from <= |w.instances| && k < |w.instances| && RetireFrom(w, from, plan, group, planned, at).Ok?
    ensures var x := RetireFrom(w, from, plan, group, planned, at).value;
      k < |x.instances| && FencedTo(w.instances[k], x.instances[k], at, false)
    decreases |w.instances| - from
  {
    hide Retires, Issue;
    if from == |w.instances| {
    } else if !Retires(w.instances[from], plan, group, planned) {
      RetireFences(w, from + 1, plan, group, planned, at, k);
    } else {
      var r := RetireInstance(w.instances[from], w.fences, plan, at).value;
      RetireFences(Work(w.instances[from := r.0], r.1), from + 1, plan, group, planned, at, k);
    }
  }

  lemma ReconcileFences(w: Work, plan: Plan, group: Id, at: nat, maxInstances: nat, hash: string -> string, k: nat)
    requires k < |w.instances| && Reconcile(w, plan, group, at, maxInstances, hash).Ok?
    ensures var x := Reconcile(w, plan, group, at, maxInstances, hash).value;
      && k < |x.instances|
      && FencedTo(w.instances[k], x.instances[k], at, Replaced(w.instances[k], k, Ids(w.instances), Slots(plan.services), group, hash))
  {
    hide ReconcileSlots, RetireFrom, Replaced, Slots;
    var slots := Slots(plan.services);
    SlotsFence(w, slots, plan, group, at, maxInstances, hash, w.instances[k], k);
    RetireFences(ReconcileSlots(w, slots, plan, group, at, maxInstances, hash).value, 0, plan, group, PlannedIds(hash, group, slots), at, k);
  }

  // ---------------------------------------------------------------------
  // The other events.
  // ---------------------------------------------------------------------

  lemma RefreshFences(st: RuntimeState, k: nat)
    requires k < |st.instances|
    ensures |RefreshHealth(st).instances| == |st.instances| && FencedTo(st.instances[k], RefreshHealth(st).instances[k], 0, false)
  {
  }

  lemma CoordinatorFences(st: RuntimeState, at: nat, epoch: nat, coordinator: Id, k: nat)
    requires k < |st.instances|
    ensures var b := ReduceCoordinator(st, at, epoch, coordinator).state.instances;
      |b| == |st.instances| && FencedTo(st.instances[k], b[k], at, epoch >= st.epoch && epoch >= st.fences.epoch)
  {
  }

  lemma LostFences(st: RuntimeState, at: nat, dpu: Id, k: nat)
    requires k < |st.instances|
    ensures var b := ReduceLost(st, at, dpu).state.instances;
      var d := FindDpu(st.topology.dpus, dpu);
      |b| == |st.instances| && FencedTo(st.instances[k], b[k], at, st.instances[k].dpu == dpu && d.Some? && d.value.state != LostState)
  {
    hide ReleaseDevice, IndexOf;
  }

  lemma EffectFences(st: RuntimeState, at: nat, r: Report, k: nat)
    requires k < |st.instances|
    ensures var b := ReduceEffect(st, at, r).state.instances;
      && |b| == |st.instances|
      && FencedTo(st.instances[k], b[k], at,
                  Finds(Ids(st.instances), r.instance, k) && StatusOn(st.instances[k], st.fences, at, r) == Nominal
                  && r.kind == WithdrawEffect && r.status != FailedStatus)
  {
    hide ReleaseDevice, Finds, Validates;
    FindsRow(st.instances, r.instance, k);
    hide FindInstance;
  }

  lemma {:induction false} RemoveFences(st: RuntimeState, removed: seq<Id>, at: nat, k: nat)
    requires k < |st.instances|
    ensures var b := RemoveDevices(st, removed, at).instances;
      |b| == |st.instances| && FencedTo(st.instances[k], b[k], at, st.instances[k].dpu in removed)
    decreases |removed|
  {
    hide ReleaseDevice;
    if removed != [] {
      var next := st.(instances := LoseDevice(st.instances, removed[0], at), grants := ReleaseDevice(st.grants, removed[0]));
      RemoveFences(next, removed[1..], at, k);
      assert removed == [removed[0]] + removed[1..];
    }
  }

  lemma SameIds(a: seq<Dpu>, b: seq<Dpu>, d: Id)
    requires forall x :: x in a <==> x in b
    ensures d in DpuIds(a) <==> d in DpuIds(b)
  {
    assert forall k :: 0 <= k < |a| ==> a[k] in b;
    assert forall k :: 0 <= k < |b| ==> b[k] in a;
  }

  lemma AdmittedIds(dpus: seq<Dpu>, generation: nat, at: nat, maxCapabilities: nat, d: Id)
    requires AdmitDpus(Sort(dpus, DpuLess), generation, at, maxCapabilities).Ok?
    ensures d in DpuIds(AdmitDpus(Sort(dpus, DpuLess), generation, at, maxCapabilities).value) <==> d in DpuIds(dpus)
  {
    hide AdmitDpus, Sort, DpuIds;
    AdmitColumn(Sort(dpus, DpuLess), generation, at, maxCapabilities);
    SortKeeps(dpus, DpuLess);
    SameIds(Sort(dpus, DpuLess), dpus, d);
  }

  lemma TopologyFences(st: RuntimeState, at: nat, snapshot: Topology, b: Bounds, k: nat)
    requires k < |st.instances|
    ensures var rows := ReduceTopology(st, at, snapshot, b).state.instances;
      var i := st.instances[k];
      && |rows| == |st.instances|
      && FencedTo(i, rows[k], at, Installs(st, at, snapshot, b) && i.dpu in DpuIds(st.topology.dpus) && i.dpu !in DpuIds(snapshot.dpus))
  {
    hide Sort, AdmitDpus, Removed, HighestCapability, RefreshHealth, RemoveDevices;
    if Installs(st, at, snapshot, b) {
      var i := st.instances[k];
      var admitted := AdmitDpus(Sort(snapshot.dpus, DpuLess), st.capabilityGeneration, at, b.maxCapabilities).value;
      AdmittedIds(snapshot.dpus, st.capabilityGeneration, at, b.maxCapabilities, i.dpu);
      RemovedExact(st.topology.dpus, admitted, i.dpu);
      var removed := Removed(st.topology.dpus, admitted);
      var installed := st.(topology := snapshot.(dpus := admitted), topologyGeneration := snapshot.generation);
      RemoveFences(installed, removed, at, k);
      var cleared := RemoveDevices(installed, removed, at);
      RefreshFences(cleared.(capabilityGeneration := HighestCapability(admitted, st.capabilityGeneration)), k);
      hide DpuIds;
    }
  }

  lemma DeclaredFences(cfg: Config, st: RuntimeState, e: Event, k: nat)
    requires k < |st.instances|
    requires e.body.ServiceDeclared? || e.body.GroupDeclared? || e.body.DependencyDeclared? || e.body.PolicyAdvanced?
      || e.body.CapabilityObserved? || e.body.DpuAttached?
    ensures var b := Apply(cfg, st, e).state.instances; |b| == |st.instances| && FencedTo(st.instances[k], b[k], e.at, false)
  {
    hide Sort, BuildGraph, Normalize, IndexOf, FindService, FindGroup, VersionLess, ReplicaPolicyStatus, AntiAffinityStatus;
    hide ReduceTime, ReduceHealth, ReduceQuiesce, ReduceAcknowledged;
    hide ReduceCoordinator, ReduceTopology, ReduceLost, ReduceEffect, ReduceIntent;
  }

  lemma PlainFences(cfg: Config, st: RuntimeState, e: Event, k: nat)
    requires k < |st.instances|
    requires e.body.LogicalTimeAdvanced? || e.body.HealthObserved? || e.body.QuiesceRequested? || e.body.ExecutionAcknowledged?
    ensures var b := Apply(cfg, st, e).state.instances; |b| == |st.instances| && FencedTo(st.instances[k], b[k], e.at, false)
  {
    hide IndexOf, LowerBound, Validates;
    hide ReduceService, ReduceGroup, ReduceDependency, ReducePolicy, ReduceCapability, ReduceAttached;
    hide ReduceCoordinator, ReduceTopology, ReduceLost, ReduceEffect, ReduceIntent;
  }

  // ---------------------------------------------------------------------
  // Every event.
  // ---------------------------------------------------------------------

  lemma EventFences(cfg: Config, st: RuntimeState, e: Event, k: nat)
    requires k < |st.instances| && !e.body.IntentSubmitted?
    ensures var b := Apply(cfg, st, e).state.instances;
      |b| == |st.instances| && FencedTo(st.instances[k], b[k], e.at, Refences(cfg, st, e, k))
  {
    hide FencedTo, Finds, Installs, FindDpu, StatusOn, DpuIds, Carries, Replaced;
    hide ReduceTime, ReduceCoordinator, ReduceTopology, ReduceLost, ReduceQuiesce, ReduceAcknowledged, ReduceEffect;
    hide ReduceIntent, ReduceCapability, ReduceHealth, ReduceAttached, ReduceService, ReduceGroup, ReduceDependency, ReducePolicy;
    match e.body
    case CoordinatorAdvanced(epoch, coordinator) => CoordinatorFences(st, e.at, epoch, coordinator, k);
    case TopologyObserved(snapshot) => TopologyFences(st, e.at, snapshot, cfg.bounds, k);
    case DpuLost(dpu) => LostFences(st, e.at, dpu, k);
    case EffectReported(r) => EffectFences(st, e.at, r, k);
    case LogicalTimeAdvanced(_) => PlainFences(cfg, st, e, k);
    case HealthObserved(_, _, _) => PlainFences(cfg, st, e, k);
    case QuiesceRequested(_) => PlainFences(cfg, st, e, k);
    case ExecutionAcknowledged(_, _, _) => PlainFences(cfg, st, e, k);
    case _ => DeclaredFences(cfg, st, e, k);
  }

  lemma IntentFences(cfg: Config, st: RuntimeState, e: Event) returns (rows: seq<Instance>)
    requires e.body.IntentSubmitted?
    ensures multiset(rows) == multiset(ReduceIntent(st, e.at, e.body.intent, cfg).state.instances) && |st.instances| <= |rows|
    ensures forall k :: 0 <= k < |st.instances| ==> FencedTo(st.instances[k], rows[k], e.at, Refences(cfg, st, e, k))
  {
    hide PlanFor, FindGroup, ClaimPlans, Reconcile, Sort, Replaced;
    var intent := e.body.intent;
    AppliedIntent(st, e.at, intent, cfg);
    var r := ReduceIntent(st, e.at, intent, cfg);
    if r.applied {
      var group, plan := FindGroup(st.groups, intent.group).value, PlanOf(cfg, st, e.at, intent).value;
      var w := Reconcile(Work(st.instances, st.fences), plan, group.id, e.at, cfg.bounds.maxInstances, cfg.hash).value;
      rows := w.instances;
      SortKeeps(rows, InstanceLess);
      assert r.state.instances == Sort(rows, InstanceLess);
      hide ReduceIntent, FencedTo, PlanOf, Carries;
      ReconcileLonger(Work(st.instances, st.fences), plan, group.id, e.at, cfg.bounds.maxInstances, cfg.hash);
      forall k | 0 <= k < |st.instances| ensures FencedTo(st.instances[k], rows[k], e.at, Refences(cfg, st, e, k)) {
        ReconcileFences(Work(st.instances, st.fences), plan, group.id, e.at, cfg.bounds.maxInstances, cfg.hash, k);
      }
    } else {
      rows := st.instances;
      hide ReduceIntent, PlanOf, Carries;
    }
  }

  lemma ReconcileLonger(w: Work, plan: Plan, group: Id, at: nat, maxInstances: nat, hash: string -> string)
    requires Reconcile(w, plan, group, at, maxInstances, hash).Ok?
    ensures |w.instances| <= |Reconcile(w, plan, group, at, maxInstances, hash).value.instances|
  {
    hide Reconcile;
    if w.instances != [] { ReconcileFences(w, plan, group, at, maxInstances, hash, |w.instances| - 1); }
  }

  /** On every state and for every event: the rows it leaves, in the old order with new ones
      behind them, were fenced at its instant exactly when it fences them, and otherwise
      keep the instant they had. */
  lemma RowsAfter(cfg: Config, st: RuntimeState, e: Event) returns (rows: seq<Instance>)
    ensures multiset(rows) == multiset(Apply(cfg, st, e).state.instances) && |st.instances| <= |rows|
    ensures !e.body.IntentSubmitted? ==> rows == Apply(cfg, st, e).state.instances
    ensures forall k :: 0 <= k < |st.instances| ==> FencedTo(st.instances[k], rows[k], e.at, Refences(cfg, st, e, k))
  {
    hide FencedTo, Refences, Apply, ReduceIntent;
    if e.body.IntentSubmitted? {
      IntentApplied(cfg, st, e);
      rows := IntentFences(cfg, st, e);
    } else {
      rows := Apply(cfg, st, e).state.instances;
      EventRows(cfg, st, e, rows);
    }
  }

  lemma IntentApplied(cfg: Config, st: RuntimeState, e: Event)
    requires e.body.IntentSubmitted?
    ensures Apply(cfg, st, e) == ReduceIntent(st, e.at, e.body.intent, cfg)
  {
    hide ReduceIntent;
  }

  lemma EventRows(cfg: Config, st: RuntimeState, e: Event, rows: seq<Instance>)
    requires !e.body.IntentSubmitted? && rows == Apply(cfg, st, e).state.instances
    ensures |st.instances| <= |rows|
    ensures forall k :: 0 <= k < |st.instances| ==> FencedTo(st.instances[k], rows[k], e.at, Refences(cfg, st, e, k))
  {
    hide FencedTo, Refences, Apply;
    if st.instances != [] { EventFences(cfg, st, e, 0); }
    forall k | 0 <= k < |st.instances| ensures FencedTo(st.instances[k], rows[k], e.at, Refences(cfg, st, e, k)) {
      EventFences(cfg, st, e, k);
    }
  }

  /** Where lookups are right a row is replaced exactly by a planned replica of its name
      that differs from it, or when it had ended. */
  lemma {:induction false} ReplacedExactly(i: Instance, k: nat, ids: seq<Id>, slots: seq<Slot>, group: Id, hash: string -> string)
    requires Distinct(ids) && k < |ids| && LookupsRight(ids, PlannedIds(hash, group, slots))
    ensures Replaced(i, k, ids, slots, group, hash) <==> exists s :: s in slots && SlotId(hash, group, s) == ids[k] && Replaces(i, s)
    decreases |slots|
  {
    hide Hit, Replaces, SlotId;
    if slots != [] {
      var id := SlotId(hash, group, slots[0]);
      var next := if Hit(ids, id) then ids else ids + [id];
      assert PlannedIds(hash, group, slots)[1..] == PlannedIds(hash, group, slots[1..]);
      FindsItself(ids, id, k);
      ReplacedExactly(i, k, next, slots[1..], group, hash);
      assert slots == [slots[0]] + slots[1..];
    }
  }

  lemma FindsItself(ids: seq<Id>, id: Id, k: nat)
    requires Distinct(ids) && k < |ids| && (id in ids ==> Hit(ids, id))
    ensures Finds(ids, id, k) <==> id == ids[k]
  {
    hide LowerBound;
  }

  /** In a table of unique rows that the event looks up correctly: the instance is fenced
      at the event's instant exactly when the event fences it, so its fence moves back
      exactly when such an event is older than the fence. */
  lemma FenceMovesExactly(cfg: Config, st: RuntimeState, e: Event, k: nat, j: Instance)
    requires StateOk(st) && Orderly(cfg, st, e) && k < |st.instances|
    requires j in Apply(cfg, st, e).state.instances && j.id == st.instances[k].id
    ensures FencedTo(st.instances[k], j, e.at, Refences(cfg, st, e, k))
    ensures j.effectFencedAt < st.instances[k].effectFencedAt <==> Refences(cfg, st, e, k) && e.at < st.instances[k].effectFencedAt
  {
    hide Apply, Refences, Orderly, CoreOk, Rows;
    var rows := RowsAfter(cfg, st, e);
    ApplyKeeps(cfg, st, e);
    hide Holds;
    var after := Apply(cfg, st, e).state;
    StrictlySortedDistinct(Ids(after.instances));
    hide StrictlySorted;
    assert rows[k] in multiset(rows);
    assert rows[k] in after.instances;
    SameId(after.instances, rows[k], j);
  }
}
