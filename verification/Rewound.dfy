/** A run in which a fence moves back: deploy, advance logical time far ahead, stop, open
    again (which fences at the clock), and take a new coordinator at the next instant. */
module Rewound {
  import opened Base
  import opened Order
  import opened Model
  import opened Authority
  import opened Planner
  import opened Reducers
  import opened Runs
  import opened Replay
  import opened Delivery
  import opened Protocol
  import opened SafeRotation
  import opened Deliveries
  import opened Scenario

  const LEAP := Ev(6, LogicalTimeAdvanced(1000))

  function Renew(cfg: Config): Event { Ev(7, CoordinatorAdvanced(cfg.epoch, "")) }

  function Leapt(cfg: Config): RuntimeState { Deployed(cfg).(clock := 1000, watermark := 6, journaled := 6) }

  lemma LeapIs(cfg: Config)
    ensures Delivered(cfg, Deployed(cfg), LEAP) == Leapt(cfg)
  {
    hide Score, RefreshHealth;
    var st := Deployed(cfg).(journaled := 6);
    assert Dull(st.(clock := 1000)) && Dull(Leapt(cfg));
    hide Dull;
    RefreshDull(st.(clock := 1000));
    RefreshDull(Leapt(cfg));
    hide Placed1;
    assert Apply(cfg, st, LEAP).state == st.(clock := 1000);
  }

  /** Up to the stop. */
  function Stopped(cfg: Config): seq<Action> { RunOf(cfg, OPENING + [LEAP]) + [Swap] + [SwapDone] + [Crash] }

  /** Open again and save the recovered state. */
  function Reopened(cfg: Config): seq<Action> { Stopped(cfg) + [Action.Open(cfg)] + [Swap] + [SwapDone] }

  lemma StoppedIs(cfg: Config)
    requires Opens(cfg, START.disk)
    ensures Exec(Stopped(cfg)).process.Down?
    ensures Exec(Stopped(cfg)).disk == Disk(Some(Snapshot(Leapt(cfg), OPENING + [LEAP])), [], 0)
  {
    hide Exec, Act, RunOf, Delivered, Score, StateAfter;
    DeployedState(cfg);
    LeapIs(cfg);
    ScriptSix(cfg);
    ScriptRuns(cfg, OPENING + [LEAP]);
    StopClean(RunOf(cfg, OPENING + [LEAP]));
  }

  lemma ScriptSix(cfg: Config)
    ensures Scripted(OPENING + [LEAP])
    ensures StateAfter(cfg, OPENING + [LEAP]) == Delivered(cfg, StateAfter(cfg, OPENING), LEAP)
  {
    hide Delivered;
    assert (OPENING + [LEAP])[..5] == OPENING;
  }

  /** The state the reopened process serves with. */
  function Woken(cfg: Config): RuntimeState { Restart(cfg, Restored(Leapt(cfg))).(journaled := 0) }

  lemma OpenSaved(s: System, cfg: Config, st: RuntimeState, log: seq<Event>)
    requires s.process.Down? && s.disk == Disk(Some(Snapshot(st, log)), [], 0) && Opens(cfg, s.disk)
    ensures var t := Act(Act(Act(s, Action.Open(cfg)), Swap), SwapDone);
      t.process == Up(cfg, Restart(cfg, Restored(st)).(journaled := 0), [], [], Idle, log, [])
  {
    hide Commit, RefreshHealth, Wrecked, Restart, Opens;
    assert Replayable(cfg, s.disk) == [];
    assert ReplayAll(cfg, Restored(st), []) == Restored(st);
    assert log + [] == log;
    var p := Recovered(cfg, s.disk);
    assert p == Up(cfg, Restart(cfg, Restored(st)), [], [], Opening, log, []);
    hide Recovered;
    var t := Act(s, Action.Open(cfg));
    assert t.process == p;
    assert Act(t, Swap) == SavedAs(t, Swapped(true));
  }

  lemma ReopenedIs(cfg: Config)
    requires Opens(cfg, START.disk) && Opens(cfg, Exec(Stopped(cfg)).disk)
    ensures Exec(Reopened(cfg)).process == Up(cfg, Woken(cfg), [], [], Idle, OPENING + [LEAP], [])
  {
    hide Exec, Act, Opens, Stopped, Leapt, Restart;
    StoppedIs(cfg);
    var a := Stopped(cfg);
    ExecSnoc(a, Action.Open(cfg));
    ExecSnoc(a + [Action.Open(cfg)], Swap);
    ExecSnoc(a + [Action.Open(cfg)] + [Swap], SwapDone);
    OpenSaved(Exec(a), cfg, Leapt(cfg), OPENING + [LEAP]);
  }

  lemma WokenIs(cfg: Config)
    ensures var st := Woken(cfg);
      && |st.instances| == 1 && st.instances[0].id == NAME && st.instances[0].effectFencedAt == 1000
      && st.clock == 1000 && st.watermark == 6 && st.epoch == cfg.epoch && st.fences.epoch == cfg.epoch
  {
    hide Score, FencedIds;
  }

  lemma RenewIs(cfg: Config, st: RuntimeState)
    requires |st.instances| == 1 && st.instances[0].id == NAME && st.clock == 1000 && st.epoch == cfg.epoch && st.fences.epoch == cfg.epoch
    ensures var r := Delivered(cfg, st, Renew(cfg));
      |r.instances| == 1 && r.instances[0].id == NAME && r.instances[0].effectFencedAt == 7
  {
  }

  /** The instance is fenced at 1000 when the process opens, and at 7 one event later. */
  lemma FenceMovesBack(cfg: Config)
    requires Opens(cfg, START.disk) && Opens(cfg, Exec(Stopped(cfg)).disk)
    ensures var before := Exec(Reopened(cfg)).process;
      var after := Exec(Reopened(cfg) + Deliver(Renew(cfg))).process;
      && before.Up? && |before.st.instances| == 1 && before.st.instances[0].id == NAME && before.st.instances[0].effectFencedAt == 1000
      && after.Up? && |after.st.instances| == 1 && after.st.instances[0].id == NAME && after.st.instances[0].effectFencedAt == 7
  {
    hide Exec, Act, Delivered, Reopened, Stopped, Woken;
    ReopenedIs(cfg);
    WokenIs(cfg);
    RenewIs(cfg, Woken(cfg));
    DeliverOne(Reopened(cfg), Renew(cfg));
  }
}
