/** Replaying a journal on top of a snapshot. Loading the snapshot forgets the tokens issued
    before it, so replay and the live run part at exactly the events that use one. */
module Forgetting {
  import opened Base
  import opened Order
  import opened Model
  import opened Authority
  import opened Eligibility
  import opened DependencyGraph
  import opened Planner
  import opened Reducers
  import opened Lifecycle
  import opened Table
  import opened Invariant
  import opened Runs
  import opened Replay
  import opened TokenWeight

  /** The second state is the first, up to what the clock derives, with some tokens
      forgotten. */
  ghost predicate Resembles(a: RuntimeState, b: RuntimeState) {
    Agree(a.fences, b.fences) && Alike(a.(fences := b.fences), b)
  }

  // ---------------------------------------------------------------------
  // The events at which they part.
  // ---------------------------------------------------------------------

  /** An acknowledgement that is accepted, and is not the repetition of one. */
  predicate Acknowledges(st: RuntimeState, e: Body)
    requires e.ExecutionAcknowledged?
  {
    var k := FindInstance(st.instances, e.instance);
    && k.Some? && Validates(st.fences, e.instance, e.fence)
    && var i := st.instances[k.value];
      && HasOpen(i) && LastAttempt(i).number == e.attempt
      && !(LastAttempt(i).phase == Acknowledged && i.state == Acknowledged)
  }

  /** An intent that is planned, claimed and carried out under the issuer `g`, and gives a
      token to an instance whose last token `g` has forgotten. */
  ghost predicate Reissues(cfg: Config, st: RuntimeState, g: Fences, at: nat, intent: Intent) {
    && IntentStatus(st, intent) == Nominal
    && var group := FindGroup(st.groups, intent.group).value;
      var plan := PlanFor(st, group, intent, at, cfg);
      && plan.Ok? && ClaimPlans(st.grants, plan.value.services, group.id, st, at, cfg.bounds.maxDpus).Ok?
      && Reconcile(Work(st.instances, g), plan.value, group.id, at, cfg.bounds.maxInstances, cfg.hash).Ok?
      && AnyForgot(st.fences, g, Renewed(Work(st.instances, g), plan.value, group.id, at, cfg.bounds.maxInstances, cfg.hash))
  }

  /** The event uses or renews a token that `g` has forgotten. */
  ghost predicate Betrays(cfg: Config, st: RuntimeState, g: Fences, e: Event) {
    match e.body
    case ExecutionAcknowledged(instance, _, _) => Forgot(st.fences, g, instance) && Acknowledges(st, e.body)
    case EffectReported(r) => Forgot(st.fences, g, r.instance) && ReportStatus(st, e.at, r) == Nominal
    case IntentSubmitted(intent) => Reissues(cfg, st, g, e.at, intent)
    case _ => false
  }

  /** With and without the forgotten tokens, an event leads to states that differ in the
      tokens only, or else to instance tables that are not alike. */
  ghost predicate Parts(a: RuntimeState, m: RuntimeState, betrayed: bool) {
    if betrayed then !AlikeTable(a.instances, m.instances)
    else m == a.(fences := m.fences) && Agree(a.fences, m.fences)
  }

  lemma ValidatesAgree(f: Fences, g: Fences, id: Id, t: Token)
    requires Agree(f, g)
    ensures Validates(g, id, t) <==> Validates(f, id, t) && !Forgot(f, g, id)
  {
  }

  lemma AcknowledgedParts(a: RuntimeState, g: Fences, e: Body)
    requires Agree(a.fences, g) && e.ExecutionAcknowledged?
    ensures Parts(ReduceAcknowledged(a, e).state, ReduceAcknowledged(a.(fences := g), e).state,
                  Forgot(a.fences, g, e.instance) && Acknowledges(a, e))
  {
    hide AlikeTable;
    ValidatesAgree(a.fences, g, e.instance, e.fence);
    FindHits(a.instances, e.instance);
    var k := FindInstance(a.instances, e.instance);
    hide FindInstance, Validates, Agree, Forgot;
    if k.Some? && Validates(a.fences, e.instance, e.fence) {
      var i := a.instances[k.value];
      if HasOpen(i) && LastAttempt(i).number == e.attempt {
        var j := i.(attempts := SetLast(i.attempts, LastAttempt(i).(phase := Acknowledged)), state := Acknowledged);
        AcknowledgeChanges(i, j);
        RowsUnlike(a.instances, k.value, j);
        if i == j { assert a.instances[k.value := j] == a.instances; }
      }
    }
  }

  lemma AcknowledgeChanges(i: Instance, j: Instance)
    requires HasOpen(i) && j == i.(attempts := SetLast(i.attempts, LastAttempt(i).(phase := Acknowledged)), state := Acknowledged)
    ensures if LastAttempt(i).phase == Acknowledged && i.state == Acknowledged then i == j else !AlikeInstance(j, i)
  {
    if LastAttempt(i).phase == Acknowledged && i.state == Acknowledged {
      assert j.attempts == i.attempts;
    } else if LastAttempt(i).phase != Acknowledged {
      assert j.attempts[|i.attempts| - 1] != i.attempts[|i.attempts| - 1];
    }
  }

  lemma RowsUnlike(s: seq<Instance>, k: nat, j: Instance)
    requires k < |s|
    ensures !AlikeInstance(j, s[k]) ==> !AlikeTable(s[k := j], s)
  {
    assert s[k := j][k] == j;
  }

  lemma EffectParts(a: RuntimeState, g: Fences, at: nat, r: Report)
    requires Agree(a.fences, g)
    ensures Parts(ReduceEffect(a, at, r).state, ReduceEffect(a.(fences := g), at, r).state,
                  Forgot(a.fences, g, r.instance) && ReportStatus(a, at, r) == Nominal)
  {
    hide AlikeTable;
    var m := a.(fences := g);
    ValidatesAgree(a.fences, g, r.instance, r.fence);
    var k := FindInstance(a.instances, r.instance);
    hide Agree, Validates;
    if ReportStatus(a, at, r) == Nominal {
      ReportAccepted(a, at, r);
      var i := a.instances[k.value];
      hide FindInstance;
      if Forgot(a.fences, g, r.instance) {
        DecidedDiffers(i, at, r);
        RowsUnlike(a.instances, k.value, Decided(i, at, r));
        assert ReportStatus(m, at, r) == FenceMismatch;
      } else {
        assert ReportStatus(m, at, r) == Nominal;
      }
      hide Decided, ReportStatus;
    } else {
      assert ReportStatus(m, at, r) != Nominal;
    }
  }

  lemma DecidedDiffers(i: Instance, at: nat, r: Report)
    requires HasOpen(i)
    ensures !AlikeInstance(Decided(i, at, r), i)
  {
    var j := Decided(i, at, r);
    assert j.attempts[|i.attempts| - 1].outcome != Open;
  }

  lemma AlikeWeight(a: seq<Instance>, b: seq<Instance>)
    requires AlikeTable(a, b)
    ensures Weight(a) == Weight(b)
  {
    hide Weight;
    forall k | 0 <= k < |a| ensures a[k].attempts == b[k].attempts { assert AlikeInstance(a[k], b[k]); }
    WeightSame(a, b);
  }

  lemma PlanForSame(a: RuntimeState, g: Fences, group: Group, intent: Intent, at: nat, cfg: Config)
    ensures PlanFor(a.(fences := g), group, intent, at, cfg) == PlanFor(a, group, intent, at, cfg)
    ensures IntentStatus(a.(fences := g), intent) == IntentStatus(a, intent)
  {
    hide BuildPlan, WithdrawPlans, RollbackSource;
  }

  lemma IntentParts(a: RuntimeState, g: Fences, at: nat, intent: Intent, cfg: Config)
    requires Agree(a.fences, g)
    ensures Parts(ReduceIntent(a, at, intent, cfg).state, ReduceIntent(a.(fences := g), at, intent, cfg).state,
                  Reissues(cfg, a, g, at, intent))
  {
    var m := a.(fences := g);
    hide PlanFor, ClaimPlans, Reconcile, Renewed, AlikeTable, Weight, Agree, AnyForgot, Sort;
    if IntentStatus(a, intent) == Nominal {
      var group := FindGroup(a.groups, intent.group).value;
      PlanForSame(a, g, group, intent, at, cfg);
      hide IntentStatus, FindGroup;
      var plan := PlanFor(a, group, intent, at, cfg);
      if plan.Ok? {
        ClaimPlansAlike(a.grants, plan.value.services, group.id, a, m, at, cfg.bounds.maxDpus);
        var grants := ClaimPlans(a.grants, plan.value.services, group.id, a, at, cfg.bounds.maxDpus);
        if grants.Ok? {
          var x := Reconcile(Work(a.instances, a.fences), plan.value, group.id, at, cfg.bounds.maxInstances, cfg.hash);
          var y := Reconcile(Work(a.instances, g), plan.value, group.id, at, cfg.bounds.maxInstances, cfg.hash);
          ReconcileShadows(a.instances, a.fences, g, plan.value, group.id, at, cfg.bounds.maxInstances, cfg.hash);
          if Reissues(cfg, a, g, at, intent) {
            InstalledUnlike(a, x, y);
          } else if y.Ok? {
            ReconcileAgrees(a.instances, a.fences, g, plan.value, group.id, at, cfg.bounds.maxInstances, cfg.hash);
          }
        }
      }
    }
  }

  lemma InstalledUnlike(a: RuntimeState, x: Result<Work>, y: Result<Work>)
    requires y.Ok?
    requires if x.Ok? then Weight(x.value.instances) > Weight(y.value.instances) else Weight(y.value.instances) > Weight(a.instances)
    ensures !AlikeTable(if x.Ok? then Sort(x.value.instances, InstanceLess) else a.instances, Sort(y.value.instances, InstanceLess))
  {
    hide Weight, AlikeTable, Sort;
    var s := if x.Ok? then Sort(x.value.instances, InstanceLess) else a.instances;
    var t := Sort(y.value.instances, InstanceLess);
    if x.Ok? { WeightSort(x.value.instances); }
    WeightSort(y.value.instances);
    if AlikeTable(s, t) { AlikeWeight(s, t); }
  }

  /** Events that neither read nor write the issuer. */
  ghost predicate Same(x: Applied, y: Applied, g: Fences, f: Fences) { y.state == x.state.(fences := g) && x.state.fences == f }

  lemma DeclaredQuiet(a: RuntimeState, g: Fences, at: nat, b: Bounds, e: Body)
    ensures e.ServiceDeclared? ==>
      Same(ReduceService(a, e.definition, b), ReduceService(a.(fences := g), e.definition, b), g, a.fences)
    ensures e.GroupDeclared? ==> Same(ReduceGroup(a, e.group, b), ReduceGroup(a.(fences := g), e.group, b), g, a.fences)
    ensures e.DependencyDeclared? ==>
      Same(ReduceDependency(a, e.dependency, b), ReduceDependency(a.(fences := g), e.dependency, b), g, a.fences)
    ensures e.PolicyAdvanced? ==> Same(ReducePolicy(a, at, e.policy), ReducePolicy(a.(fences := g), at, e.policy), g, a.fences)
  {
    hide Sort, FindService, FindGroup, BuildGraph, ReplicaPolicyStatus, AntiAffinityStatus;
  }

  lemma DeviceQuiet(a: RuntimeState, g: Fences, at: nat, b: Bounds, e: Body)
    ensures e.CapabilityObserved? ==> Same(ReduceCapability(a, at, e, b), ReduceCapability(a.(fences := g), at, e, b), g, a.fences)
    ensures e.HealthObserved? ==> Same(ReduceHealth(a, at, e), ReduceHealth(a.(fences := g), at, e), g, a.fences)
    ensures e.DpuAttached? ==> Same(ReduceAttached(a, at, e), ReduceAttached(a.(fences := g), at, e), g, a.fences)
  {
    hide Normalize, IndexOf, RefreshDpus, RefreshInstances, ObserveHealth, ObserveCapabilities, Attach;
  }

  lemma OtherQuiet(a: RuntimeState, g: Fences, at: nat, dpu: Id, service: Id, now: nat)
    ensures Same(ReduceLost(a, at, dpu), ReduceLost(a.(fences := g), at, dpu), g, a.fences)
    ensures Same(ReduceQuiesce(a, at, service), ReduceQuiesce(a.(fences := g), at, service), g, a.fences)
    ensures Same(ReduceTime(a, now), ReduceTime(a.(fences := g), now), g, a.fences)
  {
    hide IndexOf, LoseDevice, ReleaseDevice, RefreshDpus, RefreshInstances, Quiesce;
  }

  lemma QuietParts(cfg: Config, a: RuntimeState, g: Fences, e: Event)
    requires !e.body.ExecutionAcknowledged? && !e.body.EffectReported? && !e.body.IntentSubmitted? && !e.body.CoordinatorAdvanced?
    ensures Same(Apply(cfg, a, e), Apply(cfg, a.(fences := g), e), g, a.fences)
  {
    hide ReduceTime, ReduceTopology, ReduceLost, ReduceQuiesce;
    hide ReduceCapability, ReduceHealth, ReduceAttached, ReduceService, ReduceGroup, ReduceDependency, ReducePolicy;
    match e.body
    case TopologyObserved(snapshot) => TopologyQuiet(a, g, e.at, snapshot, cfg.bounds);
    case CapabilityObserved(_, _, _, _, _) => DeviceQuiet(a, g, e.at, cfg.bounds, e.body);
    case HealthObserved(_, _, _) => DeviceQuiet(a, g, e.at, cfg.bounds, e.body);
    case DpuAttached(_, _, _, _, _) => DeviceQuiet(a, g, e.at, cfg.bounds, e.body);
    case DpuLost(dpu) => OtherQuiet(a, g, e.at, dpu, "", 0);
    case QuiesceRequested(service) => OtherQuiet(a, g, e.at, "", service, 0);
    case LogicalTimeAdvanced(now) => OtherQuiet(a, g, e.at, "", "", now);
    case ServiceDeclared(s) => DeclaredQuiet(a, g, e.at, cfg.bounds, e.body);
    case GroupDeclared(group) => DeclaredQuiet(a, g, e.at, cfg.bounds, e.body);
    case DependencyDeclared(d) => DeclaredQuiet(a, g, e.at, cfg.bounds, e.body);
    case PolicyAdvanced(p) => DeclaredQuiet(a, g, e.at, cfg.bounds, e.body);
  }

  lemma TopologyQuiet(a: RuntimeState, g: Fences, at: nat, snapshot: Topology, b: Bounds)
    ensures ReduceTopology(a.(fences := g), at, snapshot, b).state == ReduceTopology(a, at, snapshot, b).state.(fences := g)
    ensures ReduceTopology(a, at, snapshot, b).state.fences == a.fences
  {
    hide Sort, AdmitDpus, RemoveDevices, RefreshDpus, RefreshInstances, HighestCapability, Removed;
    var r := ReduceTopology(a, at, snapshot, b);
    if r.applied {
      var admitted := AdmitDpus(Sort(snapshot.dpus, DpuLess), a.capabilityGeneration, at, b.maxCapabilities).value;
      var installed := a.(topology := snapshot.(dpus := admitted), topologyGeneration := snapshot.generation);
      RemovedQuiet(installed, g, Removed(a.topology.dpus, admitted), at);
    }
  }

  lemma {:induction false} RemovedQuiet(a: RuntimeState, g: Fences, removed: seq<Id>, at: nat)
    ensures RemoveDevices(a.(fences := g), removed, at) == RemoveDevices(a, removed, at).(fences := g)
    decreases |removed|
  {
    hide LoseDevice, ReleaseDevice;
    if removed != [] {
      RemovedQuiet(a.(instances := LoseDevice(a.instances, removed[0], at), grants := ReleaseDevice(a.grants, removed[0])),
                   g, removed[1..], at);
    }
  }

  lemma ApplyParts(cfg: Config, a: RuntimeState, g: Fences, e: Event)
    requires Agree(a.fences, g)
    ensures Parts(Apply(cfg, a, e).state, Apply(cfg, a.(fences := g), e).state, Betrays(cfg, a, g, e))
  {
    hide AlikeTable, Agree, Forgot, Acknowledges, Reissues, ReportStatus;
    hide ReduceTime, ReduceTopology, ReduceLost, ReduceQuiesce, ReduceAcknowledged, ReduceEffect;
    hide ReduceIntent, ReduceCapability, ReduceHealth, ReduceAttached, ReduceService, ReduceGroup, ReduceDependency, ReducePolicy;
    match e.body
    case ExecutionAcknowledged(_, _, _) => AcknowledgedParts(a, g, e.body);
    case EffectReported(r) => EffectParts(a, g, e.at, r);
    case IntentSubmitted(intent) => IntentParts(a, g, e.at, intent, cfg);
    case CoordinatorAdvanced(epoch, coordinator) => CoordinatorParts(a, g, e.at, epoch, coordinator);
    case _ => QuietParts(cfg, a, g, e);
  }

  lemma CoordinatorParts(a: RuntimeState, g: Fences, at: nat, epoch: nat, coordinator: Id)
    requires Agree(a.fences, g)
    ensures Parts(ReduceCoordinator(a, at, epoch, coordinator).state,
                  ReduceCoordinator(a.(fences := g), at, epoch, coordinator).state, false)
  {
    hide FenceAll;
  }

  // ---------------------------------------------------------------------
  // One event, live or replayed.
  // ---------------------------------------------------------------------

  lemma TablesChain(a: seq<Instance>, b: seq<Instance>, c: seq<Instance>)
    requires AlikeTable(a, c) && AlikeTable(b, c)
    ensures AlikeTable(a, b)
  {
    hide AlikeTable, Map, Bare;
    TableIsBare(a, c);
    TableIsBare(b, c);
    TableIsBare(a, b);
  }

  /** An event keeps the resemblance exactly when it does not use a forgotten token. */
  lemma ApplyExactly(cfg: Config, a: RuntimeState, b: RuntimeState, e: Event)
    requires Resembles(a, b)
    ensures Resembles(Apply(cfg, a, e).state, Apply(cfg, b, e).state) <==> !Betrays(cfg, a, b.fences, e)
    ensures Apply(cfg, a, e).state.watermark == Apply(cfg, b, e).state.watermark
  {
    hide Apply, Betrays, AlikeTable, AlikeDpus, Agree;
    var g := b.fences;
    var m := a.(fences := g);
    ApplyParts(cfg, a, g, e);
    ApplyAlike(cfg, m, b, e);
    var x, z, y := Apply(cfg, a, e).state, Apply(cfg, m, e).state, Apply(cfg, b, e).state;
    assert z.fences == y.fences && AlikeTable(z.instances, y.instances);
    if AlikeTable(x.instances, y.instances) { TablesChain(x.instances, z.instances, y.instances); }
  }

  function Step(cfg: Config, live: bool, st: RuntimeState, e: Event): RuntimeState {
    if live then Commit(cfg, st, e) else ReplayOne(cfg, st, e)
  }

  /** Clock and watermark move on without touching the resemblance. */
  lemma MovedOn(x: RuntimeState, y: RuntimeState, at: nat)
    requires x.watermark == y.watermark
    ensures var w := Max(x.watermark, at);
      && (Resembles(x, y) <==> Resembles(x.(watermark := w), y.(watermark := w)))
      && (Resembles(x, y) <==> Resembles(RefreshHealth(x.(watermark := w, clock := at)), y.(watermark := w)))
  {
    hide RefreshHealth, AlikeTable, AlikeDpus, Agree;
    var w := Max(x.watermark, at);
    var m := x.(fences := y.fences);
    var p, q := m.(watermark := w), y.(watermark := w);
    RelabelAlike(m, y, w);
    var r := RefreshHealth(x.(watermark := w, clock := at));
    RefreshIssuer(x.(watermark := w, clock := at), y.fences);
    var s := RefreshHealth(p.(clock := at));
    assert r.(fences := y.fences) == s && r.fences == x.fences;
    ClockAlike(p, at);
    if Alike(p, q) { AlikeSym(p, s); AlikeTrans(s, p, q); }
    if Alike(s, q) { AlikeTrans(p, s, q); }
  }

  lemma RelabelAlike(m: RuntimeState, y: RuntimeState, w: nat)
    requires m.watermark == y.watermark
    ensures Alike(m, y) <==> Alike(m.(watermark := w), y.(watermark := w))
  {
    hide AlikeTable, AlikeDpus;
    if Alike(m.(watermark := w), y.(watermark := w)) {
      assert y.(watermark := w).(watermark := y.watermark) == y && m.(watermark := w).(watermark := m.watermark) == m;
    }
  }

  lemma RefreshIssuer(st: RuntimeState, g: Fences)
    ensures RefreshHealth(st.(fences := g)) == RefreshHealth(st).(fences := g) && RefreshHealth(st).fences == st.fences
  {
    hide RefreshDpus, RefreshInstances;
  }

  lemma ClockAlike(st: RuntimeState, at: nat)
    ensures Alike(st, RefreshHealth(st.(clock := at)))
  {
    AlikeSelf(st);
    ClockFree(st, st, st.clock, at);
    assert st.(clock := st.clock) == st;
    RefreshAlike(st.(clock := at));
    hide Alike, RefreshHealth;
    AlikeTrans(st, st.(clock := at), RefreshHealth(st.(clock := at)));
  }

  lemma StepExactly(cfg: Config, live: bool, a: RuntimeState, b: RuntimeState, e: Event)
    requires Resembles(a, b)
    ensures Resembles(Step(cfg, live, a, e), ReplayOne(cfg, b, e)) <==> !Betrays(cfg, a, b.fences, e)
  {
    hide Apply, Betrays, Resembles, RefreshHealth;
    ApplyExactly(cfg, a, b, e);
    MovedOn(Apply(cfg, a, e).state, Apply(cfg, b, e).state, e.at);
  }

  // ---------------------------------------------------------------------
  // Whole tails.
  // ---------------------------------------------------------------------

  function Played(cfg: Config, live: bool, st: RuntimeState, es: seq<Event>): RuntimeState {
    if live then CommitAll(cfg, st, es) else ReplayAll(cfg, st, es)
  }

  /** Replay from `b` resembles the run from `a` after every event of the tail. */
  ghost predicate KeepsUp(cfg: Config, live: bool, a: RuntimeState, b: RuntimeState, es: seq<Event>) {
    && Resembles(Played(cfg, live, a, es), ReplayAll(cfg, b, es))
    && (es != [] ==> KeepsUp(cfg, live, a, b, es[..|es| - 1]))
  }

  /** No event of the tail uses a token that the replay from `b` has forgotten. */
  ghost predicate Harmless(cfg: Config, live: bool, a: RuntimeState, b: RuntimeState, es: seq<Event>) {
    es != [] ==>
      var n := |es| - 1;
      && Harmless(cfg, live, a, b, es[..n])
      && !Betrays(cfg, Played(cfg, live, a, es[..n]), ReplayAll(cfg, b, es[..n]).fences, es[n])
  }

  lemma {:induction false} TailExactly(cfg: Config, live: bool, a: RuntimeState, b: RuntimeState, es: seq<Event>)
    requires Resembles(a, b)
    ensures KeepsUp(cfg, live, a, b, es) <==> Harmless(cfg, live, a, b, es)
    decreases |es|
  {
    hide Resembles, Betrays, Commit, ReplayOne;
    if es != [] {
      var n := |es| - 1;
      TailExactly(cfg, live, a, b, es[..n]);
      if KeepsUp(cfg, live, a, b, es[..n]) {
        StepExactly(cfg, live, Played(cfg, live, a, es[..n]), ReplayAll(cfg, b, es[..n]), es[n]);
      }
    }
  }

  lemma RestoredResembles(st: RuntimeState)
    requires CoreOk(st)
    ensures Resembles(st, Restored(st))
  {
    AlikeSelf(Restored(st));
    hide Alike;
  }

  /** Replaying a tail on a loaded snapshot stays with the live run, tokens aside, exactly
      as long as no event uses a token issued before the snapshot. */
  lemma RestoredTailExactly(cfg: Config, st: RuntimeState, es: seq<Event>)
    requires CoreOk(st)
    ensures KeepsUp(cfg, true, st, Restored(st), es) <==> Harmless(cfg, true, st, Restored(st), es)
  {
    hide CoreOk, KeepsUp, Harmless, Resembles;
    RestoredResembles(st);
    TailExactly(cfg, true, st, Restored(st), es);
  }

  // ---------------------------------------------------------------------
  // Consequences.
  // ---------------------------------------------------------------------

  /** An accepted coordinator change ends the difference: both issuers start afresh, and
      from there replay and the live run are alike for good. */
  lemma CoordinatorHeals(cfg: Config, a: RuntimeState, b: RuntimeState, e: Event, es: seq<Event>)
    requires Resembles(a, b) && e.body.CoordinatorAdvanced? && Apply(cfg, a, e).applied
    ensures Alike(CommitAll(cfg, Apply(cfg, a, e).state, es), ReplayAll(cfg, Apply(cfg, b, e).state, es))
  {
    hide CommitAll, ReplayAll, Alike;
    var m := a.(fences := b.fences);
    ApplyAlike(cfg, m, b, e);
    assert Apply(cfg, m, e).state == Apply(cfg, a, e).state by { hide FenceAll; }
    ReplayMatchesLive(cfg, Apply(cfg, a, e).state, Apply(cfg, b, e).state, es);
  }

  /** A withdrawal reported after the snapshot releases the device live, and is refused by
      the replay, which keeps the grant. */
  lemma ForgottenWithdrawKeepsGrant(st: RuntimeState, at: nat, r: Report, i: Instance, g: Grant)
    requires StateOk(st) && StateLive(st) && i in st.instances && r.kind == WithdrawEffect && r.status == Succeeded
    requires Addresses(i, r.instance, r.attempt, r.fence) && Conclusive(r, at, i)
    requires g in st.grants && g.dpu == i.dpu
    ensures g !in ReduceEffect(st, at, r).state.grants && g in ReduceEffect(Restored(st), at, r).state.grants
  {
    hide StateLive, Conclusive;
    RestoreForgetsTokens(st, at, r, i);
    FindsIt(st, r.instance);
    var k := FindInstance(st.instances, r.instance).value;
    SameInstance(st, st.instances[k], i);
    ReleaseDeviceExact(st.grants, i.dpu);
    hide StateOk, ReleaseDevice, Decided, ReportStatus, FindInstance;
  }
}
