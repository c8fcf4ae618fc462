/** A run after which a grant stands on a device that is gone: deploy, lose the device from
    the topology, roll back to the deployment. */
module Stranded {
  import opened Base
  import opened Order
  import opened Model
  import opened Authority
  import opened Planner
  import opened Reducers
  import opened Claims
  import opened Ownership
  import opened Runs
  import opened Protocol
  import opened Deliveries
  import opened Scenario

  const VANISH := Ev(6, TopologyObserved(Topology(2, 0, [])))
  const BACK := Intent("r", "g", Rollback(1), 2, [], Staging(1, 0))
  const RETURN := Ev(7, IntentSubmitted(BACK))

  function Bereft(cfg: Config): RuntimeState {
    Deployed(cfg).(journaled := 6, topology := Topology(2, 0, []), topologyGeneration := 2,
                   instances := [LoseOn(Placed1(cfg), "d", 6)], grants := [])
  }

  lemma NoDevices(at: nat, max: nat)
    ensures Sort([], DpuLess) == [] && AdmitDpus([], 1, at, max) == Ok([]) && HighestCapability([], 1) == 1
    ensures Removed([DEVICE], []) == ["d"]
  {
    assert [DEVICE][1..] == [] && Removed([], []) == [];
    assert DpuIds([]) == [];
  }

  lemma VanishReduces(cfg: Config)
    requires Acceptable(cfg)
    ensures ReduceTopology(Deployed(cfg).(journaled := 6), 6, Topology(2, 0, []), cfg.bounds) == Accept(Bereft(cfg), Nominal)
  {
    hide Score;
    var st := Deployed(cfg).(journaled := 6);
    NoDevices(6, cfg.bounds.maxCapabilities);
    hide Sort, AdmitDpus, HighestCapability, Removed;
    var installed := st.(topology := Topology(2, 0, []), topologyGeneration := 2);
    ReleasedAll(Held1(cfg));
    assert LoseDevice([Placed1(cfg)], "d", 6) == [LoseOn(Placed1(cfg), "d", 6)];
    assert ["d"][1..] == [];
    assert Bereft(cfg) == installed.(instances := [LoseOn(Placed1(cfg), "d", 6)], grants := []);
    RemovedAlone(installed, "d", 6);
    assert Dull(Bereft(cfg));
    RefreshDull(Bereft(cfg));
    hide RefreshHealth, RemoveDevices;
  }

  lemma RemovedAlone(st: RuntimeState, dpu: Id, at: nat)
    ensures RemoveDevices(st, [dpu], at) == st.(instances := LoseDevice(st.instances, dpu, at), grants := ReleaseDevice(st.grants, dpu))
  {
    hide LoseDevice, ReleaseDevice;
    assert [dpu][1..] == [];
    var next := st.(instances := LoseDevice(st.instances, dpu, at), grants := ReleaseDevice(st.grants, dpu));
    assert RemoveDevices(next, [], at) == next;
  }

  lemma BereftDull(cfg: Config)
    ensures Dull(Bereft(cfg))
  {
    hide Score;
  }

  lemma VanishIs(cfg: Config)
    requires Acceptable(cfg)
    ensures Delivered(cfg, Deployed(cfg), VANISH) == Moved(Bereft(cfg), 6)
  {
    hide Delivered, Score, Apply, Dull, Bereft, ReduceService, ReduceGroup, ReducePolicy, ReduceTopology;
    VanishReduces(cfg);
    ApplyDeclared(cfg, Deployed(cfg).(journaled := 6), VANISH);
    BereftDull(cfg);
    DeliveredDull(cfg, Deployed(cfg), VANISH, Bereft(cfg));
  }

  // ---------------------------------------------------------------------
  // The rollback.
  // ---------------------------------------------------------------------

  function Again(cfg: Config): Plan {
    Deployment(cfg).(generation := 2, kind := Rollback(1), createdAt := 7, epoch := cfg.epoch, boot := cfg.boot,
                     topology := 2, policy := 1)
  }

  function Ghostly(cfg: Config): RuntimeState { Moved(Bereft(cfg), 6).(journaled := 7) }

  lemma BackPlanned(cfg: Config)
    ensures IntentStatus(Ghostly(cfg), BACK) == Nominal && PlanFor(Ghostly(cfg), GROUP, BACK, 7, cfg) == Ok(Again(cfg))
  {
    hide Score;
    FoundIn(cfg);
    hide FindGroup;
    assert RollbackSource([Deployment(cfg)], 1) == Some(Deployment(cfg));
  }

  lemma BackCarried(cfg: Config)
    requires Acceptable(cfg)
    ensures Reconcile(Work([LoseOn(Placed1(cfg), "d", 6)], Fences(cfg.epoch, cfg.boot, map[NAME := 1])), Again(cfg), "g", 7,
                      cfg.bounds.maxInstances, cfg.hash).Ok?
  {
    hide Score;
    var lost := LoseOn(Placed1(cfg), "d", 6);
    var w, plan := Work([lost], Fences(cfg.epoch, cfg.boot, map[NAME := 1])), Again(cfg);
    OneSlot(cfg);
    hide Slots, PlannedIds, SlotId;
    FindOnly(lost);
    var token := Token(cfg.epoch, cfg.boot, 2);
    var j := ReplaceInstance(lost, Placement(cfg), plan, token, 7);
    var x := Work([j], Fences(cfg.epoch, cfg.boot, map[NAME := 2]));
    assert map[NAME := 1][NAME := 2] == map[NAME := 2];
    assert [lost][0 := j] == [j];
    assert Replaces(lost, Placement(cfg));
    hide ReplaceInstance, FindInstance;
    assert ReconcileSlot(w, Placement(cfg), plan, "g", 7, cfg.bounds.maxInstances, cfg.hash) == Ok(x);
    hide ReconcileSlot;
    assert [Placement(cfg)][1..] == [];
    assert ReconcileSlots(x, [], plan, "g", 7, cfg.bounds.maxInstances, cfg.hash) == Ok(x);
    assert ReconcileSlots(w, [Placement(cfg)], plan, "g", 7, cfg.bounds.maxInstances, cfg.hash) == Ok(x);
    ReplacedNames(lost, Placement(cfg), plan, token, 7);
    KeptOne(cfg, x, plan, 7);
  }

  lemma ReplacedNames(i: Instance, s: Slot, plan: Plan, token: Token, at: nat)
    ensures ReplaceInstance(i, s, plan, token, at).id == i.id && ReplaceInstance(i, s, plan, token, at).service == i.service
  {
  }

  /** In every configuration the run leads to a grant on a device that is not there, from
      a state in which every grant was on a current device. */
  lemma RollbackStrands(cfg: Config)
    requires Opens(cfg, START.disk)
    ensures var before := Exec(RunOf(cfg, OPENING + [VANISH]));
      var after := Exec(RunOf(cfg, OPENING + [VANISH] + [RETURN]));
      && before.process.Up? && GrantsPlaced(before.process.st)
      && after.process.Up? && !GrantsPlaced(after.process.st)
      && exists g :: g in after.process.st.grants && g.dpu == "d" && after.process.st.topology.dpus == []
  {
    hide Exec, Act, RunOf, Delivered, Score;
    DeployedState(cfg);
    VanishIs(cfg);
    ReturnIs(cfg);
    ScriptTwo(cfg);
    hide Deployed, Placed1, StateAfter;
    ScriptRuns(cfg, OPENING + [VANISH]);
    ScriptRuns(cfg, OPENING + [VANISH] + [RETURN]);
    var st := StateAfter(cfg, OPENING + [VANISH] + [RETURN]);
    HeldOnIs(st);
    HeldOnIs(StateAfter(cfg, OPENING + [VANISH]));
    assert st.grants[0] in st.grants && DpuIds(st.topology.dpus) == [];
  }

  lemma ReturnIs(cfg: Config)
    requires Acceptable(cfg)
    ensures var r := Delivered(cfg, Moved(Bereft(cfg), 6), RETURN);
      r.grants == [Grant("d", "x", "g", cfg.epoch, cfg.boot, 7)] && r.topology.dpus == []
  {
    hide Score, Apply;
    var st := Ghostly(cfg);
    BackPlanned(cfg);
    FoundIn(cfg);
    ClaimedOne(st, cfg, 7);
    BackCarried(cfg);
    ApplyIntentIs(cfg, st, RETURN);
    assert Again(cfg).services == [Chosen(cfg)];
    var w := Reconcile(Work(st.instances, st.fences), Again(cfg), "g", 7, cfg.bounds.maxInstances, cfg.hash).value;
    var grants := [Grant("d", "x", "g", cfg.epoch, cfg.boot, 7)];
    hide IntentStatus, FindGroup, PlanFor, ClaimPlans, Reconcile, ReduceIntent, Placed1, Deployment;
    IntentAccepted(st, 7, BACK, cfg, GROUP, Again(cfg), grants, w);
    DeliveredKeeps(cfg, Moved(Bereft(cfg), 6), RETURN, Install(st, Again(cfg), w, grants, cfg.bounds));
  }

  lemma DeliveredKeeps(cfg: Config, st: RuntimeState, e: Event, after: RuntimeState)
    requires Apply(cfg, st.(journaled := st.journaled + 1), e).state == after
    ensures Delivered(cfg, st, e).grants == after.grants
    ensures |Delivered(cfg, st, e).topology.dpus| == |after.topology.dpus|
  {
    hide Apply;
  }

  lemma ScriptTwo(cfg: Config)
    ensures Scripted(OPENING + [VANISH]) && Scripted(OPENING + [VANISH] + [RETURN])
    ensures StateAfter(cfg, OPENING + [VANISH]) == Delivered(cfg, StateAfter(cfg, OPENING), VANISH)
    ensures StateAfter(cfg, OPENING + [VANISH] + [RETURN]) == Delivered(cfg, StateAfter(cfg, OPENING + [VANISH]), RETURN)
  {
    hide Delivered;
    assert (OPENING + [VANISH])[..5] == OPENING;
    assert (OPENING + [VANISH] + [RETURN])[..6] == OPENING + [VANISH];
  }
}
