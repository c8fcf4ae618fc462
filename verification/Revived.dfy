/** A run in which a restart moves a fence back and keeps a grant: deploy, crash, open. The
    journal is replayed without a time event, so the clock starts again at zero. */
module Revived {
  import opened Base
  import opened Order
  import opened Model
  import opened Authority
  import opened Planner
  import opened Reducers
  import opened Runs
  import opened Replay
  import opened Forgetting
  import opened Delivery
  import opened Protocol
  import opened SafeRotation
  import opened Deliveries
  import opened Reproduce
  import opened Reopening
  import opened Scenario

  /** Open an empty store, deploy, crash, open again. */
  function CrashRun(cfg: Config): seq<Action> { RunOf(cfg, OPENING) + [Crash] + [Action.Open(cfg)] }

  /** The state the second process starts with. */
  function Woke(cfg: Config): RuntimeState { Recovered(cfg, Disk(None, OPENING, 0)).st }

  lemma OpenedAfterCrash(acts: seq<Action>, cfg: Config)
    requires Exec(acts).process.Up? && Opens(cfg, Exec(acts).disk)
    ensures Exec(acts + [Crash] + [Action.Open(cfg)]).process == Recovered(cfg, Exec(acts).disk)
    ensures Exec(acts + [Crash] + [Action.Open(cfg)]).disk == Exec(acts).disk
  {
    hide Exec, Act;
    var s := Exec(acts);
    ExecSnoc(acts, Crash);
    ExecSnoc(acts + [Crash], Action.Open(cfg));
    CrashThenOpen(s, cfg);
  }

  lemma CrashThenOpen(s: System, cfg: Config)
    requires s.process.Up? && Opens(cfg, s.disk)
    ensures var t := Act(Act(s, Crash), Action.Open(cfg)); t.process == Recovered(cfg, s.disk) && t.disk == s.disk
  {
    hide Recovered, Tokens, Opens, Commit, RefreshHealth, Wrecked;
    assert Act(s, Crash) == Crashed(s);
  }

  /** No event of the script names a time. */
  lemma NothingTold()
    ensures Told(OPENING, 0) == 0
  {
    var a, b, c, d := [DECLARE], [DECLARE, ASSEMBLE], [DECLARE, ASSEMBLE, GOVERN], [DECLARE, ASSEMBLE, GOVERN, OBSERVE];
    assert OPENING[..4] == d && d[..3] == c && c[..2] == b && b[..1] == a && a[..0] == [];
    assert Told([], 0) == 0;
    assert Told(a, 0) == 0;
    assert Told(b, 0) == 0;
    assert Told(c, 0) == 0;
    assert Told(d, 0) == 0;
  }

  lemma DeployedThere(cfg: Config)
    requires Opens(cfg, START.disk)
    ensures var s := Exec(RunOf(cfg, OPENING));
      && s.disk == Disk(None, OPENING, 0) && Waiting(s) && s.process.cfg == cfg && s.process.st == Deployed(cfg)
      && s.process.phase == Idle && GuardedRun(RunOf(cfg, OPENING), cfg.bounds.maxWindow)
  {
    hide Exec, RunOf, Delivered, StateAfter, Deployed, GuardedRun;
    DeployedState(cfg);
    ScriptRuns(cfg, OPENING);
    ScriptGuarded(cfg, OPENING);
  }

  lemma ReplayedWhole(cfg: Config)
    requires Opens(cfg, START.disk)
    ensures var d := Disk(None, OPENING, 0);
      && Replayable(cfg, d) == OPENING && Reckoned(cfg, d) == 0 && Reproduces(cfg, d)
      && Alike(Deployed(cfg), Rebuilt(cfg, d))
  {
    hide Exec, Act, RunOf, Deployed, GuardedRun, Replayable, Alike, Harmless, KeepsUp, ReplayAll;
    DeployedThere(cfg);
    RecoveryReproducesState(RunOf(cfg, OPENING));
    assert OPENING[0..] == OPENING;
    NothingTold();
    hide Told;
  }

  /** Fenced at 5 before the crash, at 0 after it; the grant is there both times, and names
      the incarnation that ended. */
  lemma CrashRewindsFence(cfg: Config)
    requires Opens(cfg, START.disk) && Opens(cfg, Disk(None, OPENING, 0))
    ensures var before, after := Exec(RunOf(cfg, OPENING)).process, Exec(CrashRun(cfg)).process;
      && before.Up? && before.st == Deployed(cfg) && |before.st.instances| == 1 && before.st.instances[0].effectFencedAt == 5
      && after.Up? && |after.st.instances| == 1 && after.st.instances[0].id == NAME && after.st.instances[0].effectFencedAt == 0
      && before.st.grants == [Held1(cfg)] == after.st.grants
      && (cfg.boot < U64_MAX ==> after.st.boot == cfg.boot + 1 > Held1(cfg).boot)
  {
    hide Exec, RunOf, GuardedRun, Recovered, Reckoned, Rebuilt, Reproduces, Opens, Alike;
    var acts := RunOf(cfg, OPENING);
    DeployedThere(cfg);
    ReplayedWhole(cfg);
    OpenedAfterCrash(acts, cfg);
    ReopenedAgainstLive(acts);
    DeployedRow(cfg);
    BootAfter(cfg);
    hide Deployed;
  }

  lemma DeployedRow(cfg: Config)
    ensures var st := Deployed(cfg);
      |st.instances| == 1 && st.instances[0].id == NAME && st.instances[0].effectFencedAt == 5 && st.grants == [Held1(cfg)]
  {
    hide Score;
  }

  lemma BootAfter(cfg: Config)
    requires Alike(Deployed(cfg), Rebuilt(cfg, Disk(None, OPENING, 0)))
    ensures var p := Recovered(cfg, Disk(None, OPENING, 0)); p.Up? && (cfg.boot < U64_MAX ==> p.st.boot == cfg.boot + 1)
  {
    hide ReplayAll, Replayable, AlikeTable, AlikeDpus, Score, FenceAll, FencedIds, WindowAfter;
  }

  /** The placement projection of the deployed state and of its replay differ, in the clock. */
  lemma ProjectionLosesClock(cfg: Config)
    requires Opens(cfg, START.disk)
    ensures var live, again := Exec(RunOf(cfg, OPENING)).process, Rebuilt(cfg, Disk(None, OPENING, 0));
      live.Up? && Project(live.st).clock == 5 && Project(again).clock == 0 && Project(live.st).(clock := 0) == Project(again)
  {
    hide Exec, RunOf, GuardedRun, Rebuilt, Reproduces, Reckoned, Woke;
    DeployedThere(cfg);
    ReplayedWhole(cfg);
    WokeIs(cfg);
    hide AlikeTable, AlikeDpus, Score;
  }

  // ---------------------------------------------------------------------
  // What it lets through: evidence from before the instance existed.
  // ---------------------------------------------------------------------

  const AGAIN := Ev(6, IntentSubmitted(Intent("r", "g", Rollback(1), 2, [], Staging(1, 0))))

  /** Success of the second attempt, on evidence observed at instant 0. */
  function Reported(boot: nat, cfg: Config): Report {
    Report(NAME, 2, Token(cfg.epoch, boot, 1), DeployEffect, Succeeded, EVIDENCE, 0, false)
  }

  function Proof(boot: nat, cfg: Config): Event { Ev(7, EffectReported(Reported(boot, cfg))) }

  /** One instance on the device, settled by the restart and fenced at 0. */
  ghost predicate Resting(i: Instance) {
    && i.id == NAME && i.service == "s" && i.dpu == "d" && i.version == VERSION && i.state == Unverified
    && |i.attempts| == 1 && i.attempts[0].number == 1 && i.attempts[0].outcome == ClosedCancelled && i.effectFencedAt == 0
  }

  ghost predicate Awake(cfg: Config, st: RuntimeState) {
    && |st.instances| == 1 && Resting(st.instances[0])
    && st.services == [SERVICE] && st.groups == [GROUP] && st.plans == [Deployment(cfg)] && st.policy == POLICY
    && st.topologyGeneration == 1 && st.deploymentGeneration == 1 && st.grants == [Held1(cfg)]
    && st.epoch == cfg.epoch > 0 && st.boot > 0 && st.fences == Reset(cfg.epoch, st.boot) && st.clock == 0 && st.watermark == 5
  }

  lemma WokeAwake(cfg: Config)
    requires Opens(cfg, START.disk)
    ensures Awake(cfg, Woke(cfg))
  {
    hide Awake, Woke, Alike, Reproduces, Reckoned, Rebuilt, Replayable;
    ReplayedWhole(cfg);
    WokeIs(cfg);
    AwakeFrom(cfg, Rebuilt(cfg, Disk(None, OPENING, 0)));
  }

  lemma WokeIs(cfg: Config)
    ensures var d := Disk(None, OPENING, 0); Woke(cfg) == Restart(cfg, Rebuilt(cfg, d)) && Rebuilt(cfg, d).clock == Reckoned(cfg, d)
  {
    var d := Disk(None, OPENING, 0);
    ReplayClock(cfg, BaseState(cfg, d), Replayable(cfg, d));
    hide ReplayAll, BaseState, Replayable, Told, Restart, WindowAfter;
  }

  lemma AwakeFrom(cfg: Config, st: RuntimeState)
    requires Acceptable(cfg) && Alike(Deployed(cfg), st) && st.clock == 0
    ensures Awake(cfg, Restart(cfg, st))
  {
    hide AlikeDpus, Score, FencedIds, Deployment, Bounds.Valid;
    assert AlikeInstance(Placed1(cfg), st.instances[0]);
  }

  // --- the intent

  function Replan(cfg: Config, st: RuntimeState): Plan {
    Deployment(cfg).(generation := 2, kind := Rollback(1), createdAt := 6, epoch := st.epoch, boot := st.boot,
                     topology := st.topologyGeneration, policy := st.policyGeneration)
  }

  lemma AgainPlanned(cfg: Config, st: RuntimeState)
    requires Awake(cfg, st)
    ensures IntentStatus(st, AGAIN.body.intent) == Nominal && PlanFor(st, GROUP, AGAIN.body.intent, 6, cfg) == Ok(Replan(cfg, st))
  {
    hide Score;
    FoundIn(cfg);
    hide FindGroup;
    assert RollbackSource([Deployment(cfg)], 1) == Some(Deployment(cfg));
  }

  lemma AgainClaimed(cfg: Config, st: RuntimeState)
    requires Awake(cfg, st)
    ensures ClaimPlans(st.grants, [Chosen(cfg)], "g", st, 6, cfg.bounds.maxDpus) == Ok([Held1(cfg).(boot := st.boot, grantedAt := 6)])
  {
    hide Score;
    FoundIn(cfg);
    hide FindService;
    var g, h := Held1(cfg), Held1(cfg).(boot := st.boot, grantedAt := 6);
    HoldsOnly(g);
    assert [g][0 := h] == [h];
    assert Claim([g], "x", "g", "d", st.epoch, st.boot, 6, cfg.bounds.maxDpus) == Ok([h]);
    hide Claim;
    assert [Sole(cfg)][1..] == [] && [Chosen(cfg)][1..] == [];
    assert ClaimReplicas([h], "x", [], "g", st, 6, cfg.bounds.maxDpus) == Ok([h]);
    assert ClaimReplicas([g], "x", [Sole(cfg)], "g", st, 6, cfg.bounds.maxDpus) == Ok([h]);
    assert ClaimPlans([h], [], "g", st, 6, cfg.bounds.maxDpus) == Ok([h]);
  }

  lemma HoldsOnly(g: Grant)
    ensures LowerBound(Holders([g]), g.dpu) == 0
  {
    LessTotal(g.dpu, g.dpu);
    assert Holders([g]) == [g.dpu];
    assert Answers([g.dpu], g.dpu) == [false];
    assert Halve([false], 0, 1) == Halve([false], 0, 0) == 0;
  }

  lemma AgainCarried(cfg: Config, st: RuntimeState, plan: Plan)
    requires Awake(cfg, st) && plan.services == [Chosen(cfg)] && plan.kind != Withdraw
    ensures var i := st.instances[0];
      Reconcile(Work(st.instances, st.fences), plan, "g", 6, cfg.bounds.maxInstances, cfg.hash)
        == Ok(Work([Reattempt(i, plan, Token(cfg.epoch, st.boot, 1), 6)], Fences(cfg.epoch, st.boot, map[NAME := 1])))
  {
    hide Score;
    var i := st.instances[0];
    var j := Reattempt(i, plan, Token(cfg.epoch, st.boot, 1), 6);
    var w, x := Work([i], Reset(cfg.epoch, st.boot)), Work([j], Fences(cfg.epoch, st.boot, map[NAME := 1]));
    assert st.instances == [i];
    OneSlot(cfg);
    hide Slots, PlannedIds, SlotId;
    FindOnly(i);
    hide FindInstance;
    assert map[][NAME := 1] == map[NAME := 1];
    assert [i][0 := j] == [j];
    assert !Replaces(i, Placement(cfg)) && !HasOpen(i);
    assert ReconcileSlot(w, Placement(cfg), plan, "g", 6, cfg.bounds.maxInstances, cfg.hash) == Ok(x);
    hide ReconcileSlot;
    assert [Placement(cfg)][1..] == [];
    assert ReconcileSlots(x, [], plan, "g", 6, cfg.bounds.maxInstances, cfg.hash) == Ok(x);
    assert ReconcileSlots(w, [Placement(cfg)], plan, "g", 6, cfg.bounds.maxInstances, cfg.hash) == Ok(x);
    KeptOne(cfg, x, plan, 6);
  }

  /** The one instance, with its second attempt open. */
  ghost predicate Trying(cfg: Config, st: RuntimeState) {
    && |st.instances| == 1 && st.fences == Fences(cfg.epoch, st.boot, map[NAME := 1]) && st.watermark == 6
    && var i := st.instances[0];
    && i.id == NAME && i.effectFencedAt == 0 && |i.attempts| == 2 && i.attempts[1].number == 2 && i.attempts[1].outcome == Outcome.Open
  }

  /** What carrying the plan out leaves. */
  function Tried(cfg: Config, st: RuntimeState): Work
    requires |st.instances| == 1
  {
    Work([Reattempt(st.instances[0], Replan(cfg, st), Token(cfg.epoch, st.boot, 1), 6)], Fences(cfg.epoch, st.boot, map[NAME := 1]))
  }

  lemma AgainReduced(cfg: Config, st: RuntimeState)
    requires Awake(cfg, st)
    ensures Apply(cfg, st, AGAIN).state
         == Install(st, Replan(cfg, st), Tried(cfg, st), [Held1(cfg).(boot := st.boot, grantedAt := 6)], cfg.bounds)
  {
    hide Score, Apply, IntentStatus, FindGroup, PlanFor, ClaimPlans, Reconcile, ReduceIntent, Install, Reattempt, Resting;
    AgainPlanned(cfg, st);
    AgainClaimed(cfg, st);
    AgainCarried(cfg, st, Replan(cfg, st));
    FoundIn(cfg);
    ApplyIntentIs(cfg, st, AGAIN);
    IntentAccepted(st, 6, AGAIN.body.intent, cfg, GROUP, Replan(cfg, st), [Held1(cfg).(boot := st.boot, grantedAt := 6)], Tried(cfg, st));
  }

  lemma AgainDelivered(cfg: Config, st: RuntimeState)
    requires Awake(cfg, st)
    ensures Trying(cfg, Delivered(cfg, st, AGAIN)) && Delivered(cfg, st, AGAIN).boot == st.boot
  {
    hide Score, Apply, Delivered, Install, Replan, Deployment;
    var now := st.(journaled := st.journaled + 1);
    AgainReduced(cfg, now);
    InstalledTrying(cfg, now, Replan(cfg, now), Tried(cfg, now));
    DeliveredTrying(cfg, st, Install(now, Replan(cfg, now), Tried(cfg, now), [Held1(cfg).(boot := st.boot, grantedAt := 6)], cfg.bounds));
  }

  lemma InstalledTrying(cfg: Config, st: RuntimeState, plan: Plan, w: Work)
    requires |w.instances| == 1
    ensures forall grants :: Install(st, plan, w, grants, cfg.bounds).instances == w.instances
    ensures forall grants :: Install(st, plan, w, grants, cfg.bounds).fences == w.fences
    ensures forall grants :: Install(st, plan, w, grants, cfg.bounds).boot == st.boot && Install(st, plan, w, grants, cfg.bounds).watermark == st.watermark
  {
    assert w.instances == [w.instances[0]];
    SortOne(w.instances[0], InstanceLess);
    hide Sort, Retain;
  }

  lemma DeliveredTrying(cfg: Config, st: RuntimeState, after: RuntimeState)
    requires Apply(cfg, st.(journaled := st.journaled + 1), AGAIN).state == after
    requires after.watermark == 5 && Trying(cfg, after.(watermark := 6)) && after.boot == st.boot
    ensures Trying(cfg, Delivered(cfg, st, AGAIN)) && Delivered(cfg, st, AGAIN).boot == st.boot
  {
    hide Apply, RefreshDpus;
  }

  // --- the report

  lemma ProofReduced(cfg: Config, st: RuntimeState)
    requires Trying(cfg, st)
    ensures var r := ReduceEffect(st, 7, Reported(st.boot, cfg));
      && r.applied && |r.state.instances| == 1 && r.state.instances[0].id == NAME
      && r.state.instances[0].state == Verified && r.state.instances[0].verifiedEvidence == EVIDENCE
  {
    hide FindInstance, ReportStatus, ReleaseDevice, SetLast;
    ProofAccepted(cfg, st);
  }

  lemma ProofAccepted(cfg: Config, st: RuntimeState)
    requires Trying(cfg, st)
    ensures FindInstance(st.instances, NAME) == Some(0) && ReportStatus(st, 7, Reported(st.boot, cfg)) == Nominal
  {
    var i := st.instances[0];
    assert st.instances == [i];
    FindOnly(i);
    hide FindInstance;
  }

  lemma ProofDelivered(cfg: Config, st: RuntimeState)
    requires Trying(cfg, st)
    ensures var i := Delivered(cfg, st, Proof(st.boot, cfg)).instances;
      |i| == 1 && i[0].id == NAME && i[0].state == Verified && i[0].verifiedEvidence == EVIDENCE
  {
    hide ReduceEffect, RefreshDpus, Apply;
    var now := st.(journaled := st.journaled + 1);
    ProofReduced(cfg, now);
    ApplyReportIs(cfg, now, Proof(st.boot, cfg));
  }

  lemma ApplyReportIs(cfg: Config, st: RuntimeState, e: Event)
    requires e.body.EffectReported?
    ensures Apply(cfg, st, e) == ReduceEffect(st, e.at, e.body.report)
  {
    hide ReduceEffect;
  }

  // --- the run

  lemma {:induction false} WindowUpTo(cfg: Config, window: seq<Receipt>, es: seq<Event>, n: nat)
    requires UpTo(window, n) && forall e :: e in es ==> e.originSeq <= n
    ensures UpTo(WindowAfter(cfg, window, es), n)
    decreases |es|
  {
    if es != [] {
      assert es[0] in es;
      WindowUpTo(cfg, Pushed(window, cfg.bounds.maxWindow, ReceiptOf(cfg, es[0])), es[1..], n);
    }
  }

  function StaleRun(cfg: Config): seq<Action> {
    CrashRun(cfg) + [Swap] + [SwapDone] + Deliver(AGAIN) + Deliver(Proof(Woke(cfg).boot, cfg))
  }

  /** Saving the recovered state makes the process ready for callers. */
  lemma ReadyAfterOpen(acts: seq<Action>)
    requires Exec(acts).process.Up? && Exec(acts).process.phase == Opening && Exec(acts).process.pending == []
    ensures var p, q := Exec(acts).process, Exec(acts + [Swap] + [SwapDone]).process;
      Waiting(Exec(acts + [Swap] + [SwapDone])) && q == p.(st := p.st.(journaled := 0), phase := Idle)
  {
    hide Exec, Act;
    ExecSnoc(acts, Swap);
    ExecSnoc(acts + [Swap], SwapDone);
    SwapSteps(Exec(acts));
  }

  lemma SwapSteps(s: System)
    requires s.process.Up? && s.process.phase == Opening
    ensures Act(Act(s, Swap), SwapDone).process == s.process.(st := s.process.st.(journaled := 0), phase := Idle)
  {
    hide Recovered, Tokens, Opens, Commit, RefreshHealth, Wrecked;
    assert Act(s, Swap) == SavedAs(s, Swapped(true));
  }

  lemma RecoveredShape(cfg: Config)
    requires Replayable(cfg, Disk(None, OPENING, 0)) == OPENING
    ensures var p := Recovered(cfg, Disk(None, OPENING, 0));
      && p.Up? && p.cfg == cfg && p.phase == Opening && p.pending == [] && p.st == Woke(cfg)
      && p.window == WindowAfter(cfg, [], OPENING)
  {
    hide Replayable, ReplayAll, Restart, WindowAfter;
  }

  lemma Unseen(window: seq<Receipt>, n: nat, e: Event)
    requires UpTo(window, n) && e.originSeq > n
    ensures !Seen(window, e)
  {
  }

  /** After the restart, evidence observed at instant 0 verifies the instance, which was
      placed and fenced at instant 5. */
  lemma StaleEvidenceVerifies(cfg: Config)
    requires Opens(cfg, START.disk) && Opens(cfg, Disk(None, OPENING, 0))
    ensures var before, p := Exec(RunOf(cfg, OPENING)).process, Exec(StaleRun(cfg)).process;
      && before.Up? && |before.st.instances| == 1 && before.st.instances[0].id == NAME && before.st.instances[0].effectFencedAt == 5
      && p.Up? && |p.st.instances| == 1 && p.st.instances[0].id == NAME
      && p.st.instances[0].state == Verified && p.st.instances[0].verifiedEvidence.observedAt == 0
  {
    hide Exec, RunOf, CrashRun, Woke, Recovered, Opens, Delivered, Awake, Trying, Seen, WindowAfter, Pushed;
    ReadyToTry(cfg);
    var acts := CrashRun(cfg) + [Swap] + [SwapDone];
    var st := Woke(cfg).(journaled := 0);
    WokeAwake(cfg);
    AwakeJournaled(cfg, Woke(cfg));
    AgainDelivered(cfg, st);
    DeliverOne(acts, AGAIN);
    var next := Delivered(cfg, st, AGAIN);
    var p := Exec(acts + Deliver(AGAIN)).process;
    PushedUpTo(Exec(acts).process.window, cfg.bounds.maxWindow, ReceiptOf(cfg, AGAIN), 5);
    Unseen(p.window, 6, Proof(Woke(cfg).boot, cfg));
    assert next.watermark == 6 by { TryingMark(cfg, next); }
    DeliverOne(acts + Deliver(AGAIN), Proof(Woke(cfg).boot, cfg));
    ProofDelivered(cfg, next);
    DeployedThere(cfg);
    DeployedRow(cfg);
    hide Deployed;
  }

  lemma TryingMark(cfg: Config, st: RuntimeState)
    requires Trying(cfg, st)
    ensures st.watermark == 6
  {
  }

  lemma AwakeJournaled(cfg: Config, st: RuntimeState)
    requires Awake(cfg, st)
    ensures Awake(cfg, st.(journaled := 0)) && st.watermark == 5
  {
    hide Resting;
  }

  /** The second process is ready, and has not seen the next two events. */
  lemma ReadyToTry(cfg: Config)
    requires Opens(cfg, START.disk) && Opens(cfg, Disk(None, OPENING, 0))
    ensures var s := Exec(CrashRun(cfg) + [Swap] + [SwapDone]);
      && Waiting(s) && s.process.cfg == cfg && s.process.st == Woke(cfg).(journaled := 0) && UpTo(s.process.window, 5)
      && !Seen(s.process.window, AGAIN) && cfg.bounds.maxBatchEvents > 0 && s.process.st.watermark == 5
  {
    hide Exec, RunOf, Recovered, Woke, Reproduces, Reckoned, Rebuilt, Alike, Seen, WindowAfter, Barred, Readable, Awake;
    DeployedThere(cfg);
    ReplayedWhole(cfg);
    OpenedAfterCrash(RunOf(cfg, OPENING), cfg);
    RecoveredShape(cfg);
    ReadyAfterOpen(CrashRun(cfg));
    WindowUpTo(cfg, [], OPENING, 5);
    Unseen(WindowAfter(cfg, [], OPENING), 5, AGAIN);
    WokeAwake(cfg);
    AwakeJournaled(cfg, Woke(cfg));
    hide Deployed;
  }
}
