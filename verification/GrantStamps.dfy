/** The boot incarnation a grant names: in every run it is one the state has reached, and
    after a reopening every grant that was kept names an ended one. */
module GrantStamps {
  import opened Base
  import opened Order
  import opened Model
  import opened Authority
  import opened Eligibility
  import opened DependencyGraph
  import opened Planner
  import opened Reducers
  import opened Invariant
  import opened Claims
  import opened Ownership
  import opened Runs
  import opened Replay
  import opened Protocol
  import opened SafeRotation
  import opened Restarts
  import opened Reopening

  /** No grant names a later incarnation than the state's own. */
  ghost predicate Stamped(st: RuntimeState) { forall g :: g in st.grants ==> g.boot <= st.boot }

  /** Every grant was there before, or was just given under the boot in force. */
  ghost predicate GrantsFrom(old_: seq<Grant>, grants: seq<Grant>, boot: nat) {
    forall g :: g in grants ==> g in old_ || g.boot == boot
  }

  lemma ClaimFrom(grants: seq<Grant>, scope: Id, group: Id, dpu: Id, epoch: nat, boot: nat, at: nat, maxGrants: nat)
    ensures var r := Claim(grants, scope, group, dpu, epoch, boot, at, maxGrants); r.Ok? ==> GrantsFrom(grants, r.value, boot)
  {
    hide LowerBound;
  }

  lemma {:induction false} ClaimAllFrom(grants: seq<Grant>, wants: seq<Want>, group: Id, st: RuntimeState, at: nat, maxGrants: nat)
    ensures var r := ClaimAll(grants, wants, group, st, at, maxGrants); r.Ok? ==> GrantsFrom(grants, r.value, st.boot)
    decreases |wants|
  {
    hide Claim;
    if wants != [] {
      ClaimFrom(grants, wants[0].scope, group, wants[0].dpu, st.epoch, st.boot, at, maxGrants);
      var r := Claim(grants, wants[0].scope, group, wants[0].dpu, st.epoch, st.boot, at, maxGrants);
      if r.Ok? { ClaimAllFrom(r.value, wants[1..], group, st, at, maxGrants); }
    }
  }

  lemma IntentFrom(st: RuntimeState, at: nat, intent: Intent, cfg: Config)
    ensures GrantsFrom(st.grants, ReduceIntent(st, at, intent, cfg).state.grants, st.boot)
  {
    hide IntentStatus, PlanOf, ReduceIntent, ClaimPlans, FindGroup, Wants, ClaimAll;
    AppliedIntent(st, at, intent, cfg);
    var r := ReduceIntent(st, at, intent, cfg);
    if r.applied {
      var group := FoundGroup(st, intent);
      var plan := PlanOf(cfg, st, at, intent).value;
      ClaimPlansIs(st.grants, plan.services, group.id, st, at, cfg.bounds.maxDpus);
      ClaimAllFrom(st.grants, Wants(st.services, plan.services), group.id, st, at, cfg.bounds.maxDpus);
    }
  }

  lemma FoundGroup(st: RuntimeState, intent: Intent) returns (g: Group)
    requires IntentStatus(st, intent) == Nominal
    ensures FindGroup(st.groups, intent.group) == Some(g)
  {
    g := FindGroup(st.groups, intent.group).value;
  }

  lemma TopologyFrom(st: RuntimeState, at: nat, snapshot: Topology, b: Bounds)
    requires GrantsSorted(st.grants)
    ensures GrantsFrom(st.grants, ReduceTopology(st, at, snapshot, b).state.grants, st.boot)
  {
    hide Sort, AdmitDpus, Removed, HighestCapability, RemoveDevices, RefreshInstances, RefreshDpus;
    var out := ReduceTopology(st, at, snapshot, b);
    if out.applied {
      var admitted := AdmitDpus(Sort(snapshot.dpus, DpuLess), st.capabilityGeneration, at, b.maxCapabilities).value;
      var removed := Removed(st.topology.dpus, admitted);
      var installed := st.(topology := snapshot.(dpus := admitted), topologyGeneration := snapshot.generation);
      forall g ensures g in RemoveDevices(installed, removed, at).grants ==> g in st.grants {
        RemoveDevicesGrants(installed, removed, at, g);
      }
    }
  }

  lemma ReportFrom(st: RuntimeState, at: nat, r: Report)
    requires GrantsSorted(st.grants)
    ensures GrantsFrom(st.grants, ReduceEffect(st, at, r).state.grants, st.boot)
  {
    hide ReleaseDevice, GrantsSorted, Decided, StatusOn;
    var k := FindInstance(st.instances, r.instance);
    if k.Some? { ReleaseDeviceExact(st.grants, st.instances[k.value].dpu); }
  }

  lemma LossFrom(st: RuntimeState, at: nat, dpu: Id)
    requires GrantsSorted(st.grants)
    ensures GrantsFrom(st.grants, ReduceLost(st, at, dpu).state.grants, st.boot)
  {
    hide ReleaseDevice, GrantsSorted, LoseDevice, IndexOf;
    ReleaseDeviceExact(st.grants, dpu);
  }

  lemma QuietFrom(cfg: Config, st: RuntimeState, e: Event)
    requires !e.body.IntentSubmitted? && !e.body.TopologyObserved? && !e.body.EffectReported? && !e.body.DpuLost?
    ensures Apply(cfg, st, e).state.grants == st.grants || Apply(cfg, st, e).state.grants == []
  {
    hide ReduceIntent, ReduceTopology, ReduceEffect, ReduceLost;
    hide Sort, BuildGraph, Normalize, IndexOf, LowerBound, Validates, FindService, FindGroup, VersionLess, ReplicaPolicyStatus, AntiAffinityStatus;
  }

  lemma ApplyFrom(cfg: Config, st: RuntimeState, e: Event)
    requires GrantsSorted(st.grants)
    ensures GrantsFrom(st.grants, Apply(cfg, st, e).state.grants, st.boot) && Apply(cfg, st, e).state.boot == st.boot
  {
    hide GrantsFrom, GrantsSorted;
    hide ReduceTime, ReduceCoordinator, ReduceTopology, ReduceLost, ReduceQuiesce, ReduceAcknowledged, ReduceEffect;
    hide ReduceIntent, ReduceCapability, ReduceHealth, ReduceAttached, ReduceService, ReduceGroup, ReduceDependency, ReducePolicy;
    match e.body
    case IntentSubmitted(intent) => IntentFrom(st, e.at, intent, cfg);
    case TopologyObserved(snapshot) => TopologyFrom(st, e.at, snapshot, cfg.bounds);
    case EffectReported(r) => ReportFrom(st, e.at, r);
    case DpuLost(dpu) => LossFrom(st, e.at, dpu);
    case _ => QuietFrom(cfg, st, e); SameOrNone(st.grants, Apply(cfg, st, e).state.grants, st.boot);
  }

  lemma SameOrNone(a: seq<Grant>, b: seq<Grant>, boot: nat)
    requires b == a || b == []
    ensures GrantsFrom(a, b, boot)
  {
  }

  // ---------------------------------------------------------------------
  // Over runs.
  // ---------------------------------------------------------------------

  lemma StampedFrom(st: RuntimeState, grants: seq<Grant>)
    requires Stamped(st) && GrantsFrom(st.grants, grants, st.boot)
    ensures forall g :: g in grants ==> g.boot <= st.boot
  {
  }

  lemma CommitStamped(cfg: Config, st: RuntimeState, e: Event)
    requires CoreOk(st) && Stamped(st)
    ensures Stamped(Commit(cfg, st, e)) && Commit(cfg, st, e).boot == st.boot
  {
    hide CoreOk, Apply, RefreshInstances, RefreshDpus, GrantsFrom;
    SortedGrants(st);
    ApplyFrom(cfg, st, e);
    StampedFrom(st, Apply(cfg, st, e).state.grants);
  }

  lemma SortedGrants(st: RuntimeState)
    requires CoreOk(st)
    ensures GrantsSorted(st.grants)
  {
  }

  lemma {:induction false} ReplayStamped(cfg: Config, st: RuntimeState, es: seq<Event>)
    requires CoreOk(st) && Stamped(st)
    ensures Stamped(ReplayAll(cfg, st, es)) && ReplayAll(cfg, st, es).boot == st.boot
    decreases |es|
  {
    hide CoreOk, Apply, GrantsFrom;
    if es != [] {
      var n := |es| - 1;
      ReplayStamped(cfg, st, es[..n]);
      ReplayOk(cfg, st, es[..n]);
      var mid := ReplayAll(cfg, st, es[..n]);
      SortedGrants(mid);
      ApplyFrom(cfg, mid, es[n]);
      StampedFrom(mid, Apply(cfg, mid, es[n]).state.grants);
    }
  }

  ghost predicate StampInv(s: System) {
    && (s.disk.snapshot.Some? ==> Stamped(s.disk.snapshot.value.st))
    && (s.process.Up? ==> Stamped(s.process.st))
  }

  lemma BaseStamped(s: System, cfg: Config)
    requires StampInv(s)
    ensures Stamped(BaseState(cfg, s.disk))
  {
  }

  lemma OpenStamped(s: System, cfg: Config)
    requires CoreInv(s) && StampInv(s) && Acceptable(cfg)
    ensures Stamped(Recovered(cfg, s.disk).st) && Stamped(Rebuilt(cfg, s.disk))
  {
    hide CoreInv, BaseState, Acceptable, Replayable, ReplayAll, WindowAfter, FenceAll, FencedIds;
    BaseOk(s, cfg);
    hide CoreOk;
    BaseStamped(s, cfg);
    ReplayStamped(cfg, BaseState(cfg, s.disk), Replayable(cfg, s.disk));
  }

  lemma RejectStamped(s: System, cfg: Config, saves: bool, empties: bool)
    requires CoreInv(s) && StampInv(s) && Acceptable(cfg) && s.process.Down?
    ensures StampInv(s.(disk := Wrecked(cfg, s.disk, saves, empties)))
  {
    hide CoreInv, BaseState, Acceptable, Salvaged, Barred, ReplayAll;
    BaseOk(s, cfg);
    hide CoreOk;
    BaseStamped(s, cfg);
    ReplayStamped(cfg, BaseState(cfg, s.disk), Salvaged(cfg, s.disk));
  }

  lemma TakeStamped(s: System)
    requires CoreInv(s) && StampInv(s) && Enabled(s, Action.Take)
    ensures StampInv(Taken(s, Commit(s.process.cfg, s.process.st, s.process.phase.queue[0])))
  {
    hide CoreOk, StateLive, ServingBacked, Commit, Stamped;
    CommitStamped(s.process.cfg, s.process.st, s.process.phase.queue[0]);
  }

  lemma ActStamped(s: System, a: Action)
    requires CoreInv(s) && StampInv(s)
    ensures StampInv(Act(s, a))
  {
    hide CoreInv, Recovered, Commit, RefreshInstances, RefreshDpus, Wrecked, Acceptable, Tokens, Sort, Released, Retained;
    if Enabled(s, a) {
      match a
      case Open(cfg) => OpenStamped(s, cfg);
      case Reject(cfg, saves, empties) => RejectStamped(s, cfg, saves, empties);
      case Take => TakeStamped(s);
      case _ =>
    }
  }

  /** In every run no grant names a later incarnation than the state that holds it. */
  lemma {:induction false} RunStamped(acts: seq<Action>)
    ensures StampInv(Exec(acts))
  {
    hide Act, CoreInv, Stamped;
    if acts != [] {
      RunStamped(acts[..|acts| - 1]);
      RunState(acts[..|acts| - 1]);
      ActStamped(Exec(acts[..|acts| - 1]), acts[|acts| - 1]);
    }
  }

  /** Whatever the run before, a process opened on its store holds the replayed grants, and
      each of them names an earlier incarnation than the process, as long as the counter of
      incarnations has not run out. */
  lemma KeptGrantsNameEndedBoots(acts: seq<Action>, cfg: Config)
    requires Enabled(Exec(acts), Action.Open(cfg)) && !Fresh(Exec(acts).disk)
    ensures var d, p := Exec(acts).disk, Exec(acts + [Action.Open(cfg)]).process;
      && p.Up? && p.st.grants == Rebuilt(cfg, d).grants
      && (Max(Rebuilt(cfg, d).boot, cfg.boot) < U64_MAX ==> forall g :: g in p.st.grants ==> g.boot < p.st.boot)
  {
    var s := Exec(acts);
    RunStamped(acts);
    RunState(acts);
    ExecSnoc(acts, Action.Open(cfg));
    hide Exec, CoreInv, Barred;
    OpenStamped(s, cfg);
    OpenedBoot(s, cfg);
    hide Recovered, Rebuilt;
  }

  lemma OpenedBoot(s: System, cfg: Config)
    requires Enabled(s, Action.Open(cfg)) && !Fresh(s.disk)
    ensures Act(s, Action.Open(cfg)).process == Recovered(cfg, s.disk) && Recovered(cfg, s.disk).Up?
    ensures var was, st := Rebuilt(cfg, s.disk), Recovered(cfg, s.disk).st;
      st.grants == was.grants && (Max(was.boot, cfg.boot) < U64_MAX ==> st.boot > was.boot)
  {
    hide Barred, Replayable, ReplayAll, BaseState, WindowAfter, FenceAll, FencedIds, Commit, RefreshHealth, Wrecked;
  }
}
