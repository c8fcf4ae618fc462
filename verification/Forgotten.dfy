/** A run after which a grant that was released is back: deploy, checkpoint, report the
    withdrawal, crash. The snapshot does not know the token the report carries. */
module Forgotten {
  import opened Base
  import opened Order
  import opened Model
  import opened Authority
  import opened Planner
  import opened Reducers
  import opened Runs
  import opened Replay
  import opened Delivery
  import opened Protocol
  import opened SafeRotation
  import opened Deliveries
  import opened Reopening
  import opened Revived
  import opened Scenario

  /** Success of the first attempt, observed at its instant. */
  function Done(cfg: Config, kind: EffectKind): Report {
    Report(NAME, 1, Token(cfg.epoch, cfg.boot, 1), kind, Succeeded, Evidence("v", 5, 1000, Real), 0, false)
  }

  function Leave(cfg: Config): Event { Ev(6, EffectReported(Done(cfg, WithdrawEffect))) }

  /** The one instance and grant of the deployment, whatever the rest. */
  ghost predicate OneOpen(cfg: Config, st: RuntimeState) {
    && |st.instances| == 1 && st.grants == [Held1(cfg)]
    && var i := st.instances[0];
    && i.id == NAME && i.dpu == "d" && i.effectFencedAt == 5
    && |i.attempts| == 1 && i.attempts[0].number == 1 && i.attempts[0].outcome == Outcome.Open
  }

  lemma DeployedOneOpen(cfg: Config)
    ensures OneOpen(cfg, Deployed(cfg)) && Deployed(cfg).watermark == 5
    ensures Deployed(cfg).fences == Fences(cfg.epoch, cfg.boot, map[NAME := 1])
  {
    hide Score;
  }

  lemma DoneStatus(cfg: Config, st: RuntimeState, kind: EffectKind)
    requires OneOpen(cfg, st)
    ensures FindInstance(st.instances, NAME) == Some(0)
    ensures ReportStatus(st, 6, Done(cfg, kind)) == if Validates(st.fences, NAME, Token(cfg.epoch, cfg.boot, 1)) then Nominal else FenceMismatch
  {
    assert st.instances == [st.instances[0]];
    FindOnly(st.instances[0]);
    hide FindInstance, Validates;
  }

  /** Decided in the running process, refused over the loaded snapshot. */
  lemma DeployedTokenForgotten(cfg: Config, kind: EffectKind)
    ensures var st := Deployed(cfg);
      && ReduceEffect(st, 6, Done(cfg, kind)).applied
      && ReduceEffect(Restored(st), 6, Done(cfg, kind)) == Reducers.Refuse(Restored(st), FenceMismatch)
  {
    hide Deployed, ReportStatus, FindInstance, ReleaseDevice, Decided;
    DeployedOneOpen(cfg);
    DoneStatus(cfg, Deployed(cfg), kind);
    DoneStatus(cfg, Restored(Deployed(cfg)), kind);
  }

  lemma LeaveReleases(cfg: Config, st: RuntimeState)
    requires OneOpen(cfg, st) && st.fences == Fences(cfg.epoch, cfg.boot, map[NAME := 1])
    ensures ReduceEffect(st, 6, Done(cfg, WithdrawEffect)).state.grants == []
  {
    hide ReportStatus, FindInstance, ReleaseDevice, Decided;
    DoneStatus(cfg, st, WithdrawEffect);
    ReleasedAll(Held1(cfg));
  }

  function LeaveRun(cfg: Config): seq<Action> { RunOf(cfg, OPENING) + [Swap] + [SwapDone] + Deliver(Leave(cfg)) }

  /** The checkpoint between the deployment and the report. */
  lemma Checkpointed(acts: seq<Action>)
    requires Waiting(Exec(acts))
    ensures var s, t := Exec(acts), Exec(acts + [Swap] + [SwapDone]);
      && t.disk == Disk(Some(Snapshot(s.process.st, s.process.log)), [], 0)
      && t.process == s.process.(st := s.process.st.(journaled := 0))
  {
    hide Exec, Act;
    ExecSnoc(acts, Swap);
    ExecSnoc(acts + [Swap], SwapDone);
    CheckpointSteps(Exec(acts));
  }

  lemma CheckpointSteps(s: System)
    requires Waiting(s)
    ensures var t := Act(Act(s, Swap), SwapDone);
      && t.disk == Disk(Some(Snapshot(s.process.st, s.process.log)), [], 0)
      && t.process == s.process.(st := s.process.st.(journaled := 0))
  {
    hide Recovered, Tokens, Opens, Commit, RefreshHealth, Wrecked;
    assert Act(s, Swap) == SavedAs(s, Swapped(false));
  }

  lemma OneReplayed(cfg: Config, d: Disk, e: Event)
    requires d.journal == [e] && e.at > Floor(d)
    ensures Replayable(cfg, d) == [e] && Rebuilt(cfg, d) == ReplayOne(cfg, BaseState(cfg, d), e)
  {
    hide ReplayOne, BaseState;
    assert [e][1..] == [] && [e][..0] == [];
    assert Due([], Floor(d)) == [];
    assert Due([e], Floor(d)) == [e] + [];
    assert Held(cfg, [], [e]) == [e] + Held(cfg, Pushed([], cfg.bounds.maxWindow, ReceiptOf(cfg, e)), []);
    assert ReplayAll(cfg, BaseState(cfg, d), []) == BaseState(cfg, d);
  }

  /** The running process has released the device; its store still grants it. */
  lemma ReleasedGrantReturns(cfg: Config)
    requires Opens(cfg, START.disk)
    ensures var s := Exec(LeaveRun(cfg));
      s.process.Up? && s.process.st.grants == [] && Rebuilt(cfg, s.disk).grants == [Held1(cfg)]
  {
    hide Exec, RunOf, GuardedRun, Rebuilt, Seen, Pushed, Deployed, Delivered, ReplayOne;
    var acts := RunOf(cfg, OPENING);
    DeployedThere(cfg);
    ScriptOf(cfg);
    Checkpointed(acts);
    DeployedOneOpen(cfg);
    var st := Deployed(cfg).(journaled := 0);
    Unseen(Exec(acts).process.window, 5, Leave(cfg));
    DeliverOne(acts + [Swap] + [SwapDone], Leave(cfg));
    LeaveDelivered(cfg, st);
    OneReplayed(cfg, Exec(LeaveRun(cfg)).disk, Leave(cfg));
    LeaveReplayed(cfg);
  }

  lemma ScriptOf(cfg: Config)
    requires Opens(cfg, START.disk)
    ensures Exec(RunOf(cfg, OPENING)).process.Up? && UpTo(Exec(RunOf(cfg, OPENING)).process.window, 5) && cfg.bounds.maxBatchEvents > 0
  {
    hide Exec, RunOf, Delivered, StateAfter, Deployed, Barred, Readable;
    DeployedState(cfg);
    ScriptRuns(cfg, OPENING);
  }

  lemma LeaveDelivered(cfg: Config, st: RuntimeState)
    requires OneOpen(cfg, st) && st.fences == Fences(cfg.epoch, cfg.boot, map[NAME := 1])
    ensures Delivered(cfg, st, Leave(cfg)).grants == []
  {
    hide ReduceEffect, RefreshInstances, RefreshDpus;
    LeaveReleases(cfg, st.(journaled := st.journaled + 1));
  }

  lemma LeaveReplayed(cfg: Config)
    ensures ReplayOne(cfg, Restored(Deployed(cfg)), Leave(cfg)).grants == [Held1(cfg)]
  {
    hide ReduceEffect, Deployed;
    DeployedTokenForgotten(cfg, WithdrawEffect);
    DeployedOneOpen(cfg);
    RefusedOnReplay(cfg, Restored(Deployed(cfg)), Leave(cfg));
  }

  lemma RefusedOnReplay(cfg: Config, st: RuntimeState, e: Event)
    requires e.body.EffectReported? && ReduceEffect(st, e.at, e.body.report).state == st
    ensures ReplayOne(cfg, st, e).grants == st.grants
  {
    hide ReduceEffect;
  }
}
