/** Safety of whole runs, restarts and refused openings included: the state invariant,
    refusals that leave no trace, tokens that stay dead, and serving that is always
    justified. */
module Restarts {
  import opened Base
  import opened Order
  import opened Model
  import opened Authority
  import opened Reducers
  import opened Lifecycle
  import opened Table
  import opened Invariant
  import opened Runs
  import opened Replay
  import opened Delivery
  import opened Protocol
  import opened ExactlyOnce

  // ---------------------------------------------------------------------
  // Orderly runs.
  // ---------------------------------------------------------------------

  predicate OrderlyReplay(cfg: Config, st: RuntimeState, es: seq<Event>) {
    es == [] ||
    (OrderlyReplay(cfg, st, es[..|es| - 1]) && Orderly(cfg, ReplayAll(cfg, st, es[..|es| - 1]), es[|es| - 1]))
  }

  /** Every intent applied or replayed finds the instances it names. */
  predicate OrderlyAct(s: System, a: Action) {
    && (a.Take? && HasQueue(s.process) ==> Orderly(s.process.cfg, s.process.st, s.process.phase.queue[0]))
    && (a.Open? ==> OrderlyReplay(a.cfg, BaseState(a.cfg, s.disk), Replayable(a.cfg, s.disk)))
    && (a.Reject? ==> OrderlyReplay(a.cfg, BaseState(a.cfg, s.disk), Salvaged(a.cfg, s.disk)))
  }

  predicate OrderlyRunOf(acts: seq<Action>) {
    acts == [] || (OrderlyRunOf(acts[..|acts| - 1]) && OrderlyAct(Exec(acts[..|acts| - 1]), acts[|acts| - 1]))
  }

  // ---------------------------------------------------------------------
  // Recovery keeps the invariant.
  // ---------------------------------------------------------------------

  lemma RestoredOk(st: RuntimeState)
    ensures CoreOk(st) ==> CoreOk(Restored(st))
    ensures RowsOk(st) ==> RowsOk(Restored(st))
  {
    forall i | i in st.instances && CoreOk(st) ensures InstanceOk(i, Restored(st).fences) { }
    hide InstanceOk;
  }

  lemma InitOk(cfg: Config)
    requires Acceptable(cfg)
    ensures CoreOk(Init(cfg)) && RowsOk(Init(cfg)) && StateLive(Init(cfg))
  {
  }

  lemma {:induction false} ReplayOk(cfg: Config, st: RuntimeState, es: seq<Event>)
    requires CoreOk(st)
    ensures CoreOk(ReplayAll(cfg, st, es))
    ensures RowsOk(st) && OrderlyReplay(cfg, st, es) ==> RowsOk(ReplayAll(cfg, st, es))
  {
    hide CoreOk, RowsOk, Orderly, Apply;
    if es != [] {
      var mid, e := ReplayAll(cfg, st, es[..|es| - 1]), es[|es| - 1];
      ReplayOk(cfg, st, es[..|es| - 1]);
      ApplyKeeps(cfg, mid, e);
      var a := Apply(cfg, mid, e).state;
      Relabelled(a, a.(watermark := Max(a.watermark, e.at)));
    }
  }

  /** Under the new boot incarnation nothing is open, verified or serving. */
  lemma RestartOk(cfg: Config, st: RuntimeState)
    requires CoreOk(st) && Acceptable(cfg)
    ensures CoreOk(Restart(cfg, st)) && StateLive(Restart(cfg, st))
    ensures RowsOk(st) ==> RowsOk(Restart(cfg, st))
    ensures forall i :: i in Restart(cfg, st).instances ==> Settled(i)
  {
    var r := Restart(cfg, st);
    forall i | i in st.instances
      ensures var j := FenceInstance(i, st.clock, RestartFenced);
        InstanceOk(j, r.fences) && Live(j, r.fences) && Evolves(i, j, st.clock) && Settled(j)
    {
      FencedUnderBoot(i, st.fences, r.fences, st.clock);
    }
    FenceAllOk(st.instances, st.fences, r.fences, st.clock, RestartFenced);
    FencedSettled(st.instances, st.clock);
    hide Entries, AllLive, FenceAll, FenceInstance, InstanceOk, FencedIds;
  }

  lemma FencedUnderBoot(i: Instance, f: Fences, g: Fences, at: nat)
    requires InstanceOk(i, f) && f.boot <= g.boot && f.epoch <= g.epoch && g.serials == map[]
    ensures var j := FenceInstance(i, at, RestartFenced);
      InstanceOk(j, g) && Live(j, g) && Evolves(i, j, at) && Settled(j)
  {
    FenceOk(i, at, RestartFenced, f);
  }

  lemma FencedSettled(s: seq<Instance>, at: nat)
    requires forall i :: i in s ==> Settled(FenceInstance(i, at, RestartFenced))
    ensures forall j :: j in FenceAll(s, at, RestartFenced) ==> Settled(j)
  {
    hide FenceInstance, Settled;
    forall j | j in FenceAll(s, at, RestartFenced) ensures Settled(j) {
      var k :| 0 <= k < |s| && FenceAll(s, at, RestartFenced)[k] == j;
      assert s[k] in s;
    }
  }

  // ---------------------------------------------------------------------
  // The invariant of all runs, and of orderly ones.
  // ---------------------------------------------------------------------

  /** Each serving instance is verified and its device is healthy on current evidence. */
  ghost predicate ServingBacked(st: RuntimeState) {
    forall i :: i in st.instances && i.Serving() ==>
      exists d :: d in st.topology.dpus && d.id == i.dpu && HealthyNow(d, st.clock)
  }

  /** Where callers can look at the state. */
  predicate AtRest(phase: Phase) { phase.Idle? || phase.Swapped? || phase.Opening? }

  ghost predicate CoreInv(s: System) {
    && (s.disk.snapshot.Some? ==> CoreOk(s.disk.snapshot.value.st))
    && (s.process.Up? ==>
          && Acceptable(s.process.cfg) && CoreOk(s.process.st) && StateLive(s.process.st)
          && (AtRest(s.process.phase) ==> ServingBacked(s.process.st)))
  }

  ghost predicate RowInv(s: System) {
    && (s.disk.snapshot.Some? ==> RowsOk(s.disk.snapshot.value.st))
    && (s.process.Up? ==> RowsOk(s.process.st))
  }

  lemma JournaledFree(st: RuntimeState, n: nat)
    ensures CoreOk(st.(journaled := n)) <==> CoreOk(st)
    ensures RowsOk(st.(journaled := n)) <==> RowsOk(st)
    ensures StateLive(st.(journaled := n)) <==> StateLive(st)
    ensures ServingBacked(st.(journaled := n)) <==> ServingBacked(st)
  {
    Relabelled(st, st.(journaled := n));
    hide CoreOk, RowsOk, StateLive, HealthyNow;
  }

  lemma NoneServing(st: RuntimeState)
    requires forall i :: i in st.instances ==> Settled(i)
    ensures ServingBacked(st)
  {
  }

  lemma RefreshBacked(st: RuntimeState)
    requires CoreOk(st)
    ensures ServingBacked(RefreshHealth(st))
  {
    var r := RefreshHealth(st);
    forall i | i in r.instances && i.Serving() ensures exists d :: d in r.topology.dpus && d.id == i.dpu && HealthyNow(d, r.clock) {
      var k :| 0 <= k < |r.instances| && r.instances[k] == i;
      ServingExactly(st, k);
    }
    hide CoreOk, RefreshDpus, RefreshInstances;
  }

  lemma BaseOk(s: System, cfg: Config)
    requires CoreInv(s) && Acceptable(cfg)
    ensures CoreOk(BaseState(cfg, s.disk)) && (RowInv(s) ==> RowsOk(BaseState(cfg, s.disk)))
  {
    hide CoreOk, RowsOk, StateLive, ServingBacked, Restored, Init;
    if s.disk.snapshot.Some? { RestoredOk(s.disk.snapshot.value.st); }
    InitOk(cfg);
  }

  lemma OpenState(s: System, cfg: Config)
    requires CoreInv(s) && Enabled(s, Action.Open(cfg))
    ensures var t := s.(process := Recovered(cfg, s.disk));
      CoreInv(t) && (RowInv(s) && OrderlyAct(s, Action.Open(cfg)) ==> RowInv(t))
  {
    hide CoreOk, RowsOk, StateLive, Settled, ServingBacked, OrderlyReplay, Replayable, Apply, Barred;
    BaseOk(s, cfg);
    InitOk(cfg);
    if Fresh(s.disk) {
      NoneServing(Init(cfg));
    } else {
      var base, es := BaseState(cfg, s.disk), Replayable(cfg, s.disk);
      hide Init, BaseState;
      ReplayOk(cfg, base, es);
      hide ReplayAll;
      RestartOk(cfg, ReplayAll(cfg, base, es));
      NoneServing(Restart(cfg, ReplayAll(cfg, base, es)));
      hide Restart;
    }
  }

  lemma RejectState(s: System, a: Action)
    requires CoreInv(s) && a.Reject? && s.process.Down? && Acceptable(a.cfg)
    ensures var t := s.(disk := Wrecked(a.cfg, s.disk, a.saves, a.empties));
      CoreInv(t) && (RowInv(s) && OrderlyAct(s, a) ==> RowInv(t))
  {
    hide CoreOk, RowsOk, OrderlyReplay, Salvaged, Barred, Apply;
    BaseOk(s, a.cfg);
    InitOk(a.cfg);
    hide Init, BaseState;
    ReplayOk(a.cfg, BaseState(a.cfg, s.disk), Salvaged(a.cfg, s.disk));
    hide ReplayAll;
  }

  lemma TakeState(s: System)
    requires CoreInv(s) && Enabled(s, Take)
    ensures var t := Taken(s, Commit(s.process.cfg, s.process.st, s.process.phase.queue[0]));
      CoreInv(t) && (RowInv(s) && OrderlyAct(s, Take) ==> RowInv(t))
  {
    hide CoreOk, RowsOk, StateLive, Orderly, Apply, Pushed, ReceiptOf, Commit;
    var p, e := s.process, s.process.phase.queue[0];
    CommitSteps(p.cfg, p.st, e);
    StepParts(p.st, Commit(p.cfg, p.st, e), e.at);
  }

  lemma FinishState(s: System)
    requires CoreInv(s) && s.process.Up?
    ensures var t := s.(process := s.process.(st := RefreshHealth(s.process.st), phase := Idle));
      CoreInv(t) && (RowInv(s) ==> RowInv(t))
  {
    hide CoreOk, RowsOk, ServingBacked;
    var st := s.process.st;
    RefreshKeeps(st, 0);
    RefreshBacked(st);
    hide RefreshHealth;
  }

  lemma QuietState(s: System, a: Action)
    requires CoreInv(s) && Enabled(s, a)
    requires !a.Open? && !a.Take? && !a.Finish? && !a.Reject?
    ensures CoreInv(Effect(s, a)) && (RowInv(s) ==> RowInv(Effect(s, a)))
  {
    hide CoreOk, RowsOk, StateLive, ServingBacked, Commit, RefreshHealth, Recovered, Tokens, Sort, Released, Retained;
    if s.process.Up? {
      JournaledFree(s.process.st, 0);
      JournaledFree(s.process.st, s.process.st.journaled + 1);
    }
  }

  lemma ActState(s: System, a: Action)
    requires CoreInv(s)
    ensures CoreInv(Act(s, a)) && (RowInv(s) && OrderlyAct(s, a) ==> RowInv(Act(s, a)))
  {
    hide CoreInv, RowInv, OrderlyAct, Recovered, Commit, RefreshHealth, Taken, Wrecked, Acceptable;
    if Enabled(s, a) {
      match a
      case Open(cfg) =>
        OpenState(s, cfg);
        TopFreeState(s.(process := Recovered(cfg, s.disk)), Max(s.top, cfg.boot));
      case Reject(cfg, saves, empties) =>
        RejectState(s, a);
        TopFreeState(s.(disk := Wrecked(cfg, s.disk, saves, empties)), Max(s.top, cfg.boot));
      case Take => TakeState(s);
      case Finish => FinishState(s);
      case _ => QuietState(s, a);
    }
  }

  lemma TopFreeState(s: System, top: nat)
    ensures CoreInv(s.(top := top)) <==> CoreInv(s)
    ensures RowInv(s.(top := top)) <==> RowInv(s)
  {
    hide CoreOk, RowsOk, StateLive, ServingBacked;
  }

  lemma {:induction false} RunState(acts: seq<Action>)
    ensures CoreInv(Exec(acts))
    ensures OrderlyRunOf(acts) ==> RowInv(Exec(acts))
  {
    hide CoreInv, RowInv, Act, OrderlyAct;
    if acts == [] {
      StartState();
    } else {
      RunState(acts[..|acts| - 1]);
      ActState(Exec(acts[..|acts| - 1]), acts[|acts| - 1]);
    }
  }

  lemma StartState()
    ensures CoreInv(START) && RowInv(START)
  {
  }

  /** In every run, whenever the process is up, every instance is in order and every open
      attempt known to the issuer, and between calls every serving instance is justified
      by its attempt and by its device. In orderly runs identities are unique and sorted
      and the issuer holds exactly the last tokens. */
  lemma EveryRunKeepsInvariant(acts: seq<Action>)
    requires Exec(acts).process.Up?
    ensures var p := Exec(acts).process;
      && CoreOk(p.st) && StateLive(p.st)
      && (p.phase.Idle? ==> forall i :: i in p.st.instances && i.Serving() ==>
            && i.attempts != [] && Justified(i)
            && exists d :: d in p.st.topology.dpus && d.id == i.dpu && HealthyNow(d, p.st.clock))
    ensures OrderlyRunOf(acts) ==> StateOk(Exec(acts).process.st)
  {
    hide Act;
    RunState(acts);
    var p := Exec(acts).process;
    hide Exec, OrderlyRunOf, HealthyNow;
    forall i | i in p.st.instances ensures i.attempts != [] && Justified(i) {
      assert InstanceOk(i, p.st.fences);
    }
    hide CoreOk, RowsOk, StateLive, Justified;
  }

  /** In no run does a refused event leave a trace. */
  lemma EveryRefusalLeavesNoTrace(acts: seq<Action>, e: Event)
    requires Exec(acts).process.Up? && !Apply(Exec(acts).process.cfg, Exec(acts).process.st, e).applied
    ensures Apply(Exec(acts).process.cfg, Exec(acts).process.st, e).state == Exec(acts).process.st
  {
    hide Act, Apply;
    RunState(acts);
    var p := Exec(acts).process;
    hide Exec;
    assert IssuerInStep(p.st);
    hide CoreInv;
    RefusedUnchanged(p.cfg, p.st, e);
  }

  // ---------------------------------------------------------------------
  // Tokens of earlier lives.
  // ---------------------------------------------------------------------

  /** Tokens in circulation are no newer than the state's authority. */
  lemma TokensBounded(st: RuntimeState, t: Token)
    requires CoreOk(st) && t in Tokens(st)
    ensures t.boot < st.boot || (t.boot == st.boot && t.epoch <= st.epoch)
  {
    var i, k :| i in st.instances && 0 <= k < |i.attempts| && i.attempts[k].fence == t;
    assert InstanceOk(i, st.fences);
  }

  /** The boot incarnation a recovery would start above. */
  function DiskBoot(s: System): nat { if s.disk.snapshot.Some? then s.disk.snapshot.value.st.boot else s.top }

  ghost predicate BootInv(s: System) {
    && (forall t :: t in s.spent ==> t.boot <= DiskBoot(s))
    && (Fresh(s.disk) ==> s.spent == {})
    && (s.process.Up? ==>
          && (forall t :: t in s.spent ==> t.boot < s.process.st.boot)
          && (Serves(s.process.phase) ==> s.process.st.boot <= DiskBoot(s))
          && (s.process.phase.Renamed? || s.process.phase.Swapped? ==>
                s.disk.snapshot.Some? && s.process.st.boot <= s.disk.snapshot.value.st.boot)
          && (Fresh(s.disk) ==> s.process.st.instances == []))
  }

  /** Configured boot incarnations never decrease, the counter has not run out, and a
      configuration the store refuses outright is not behind what the store holds. */
  predicate Advancing(s: System, a: Action) {
    && (a.Open? ==> a.cfg.boot >= s.top && Max(DiskBoot(s), a.cfg.boot) < U64_MAX)
    && (a.Reject? ==> a.cfg.boot >= s.top)
    && (a.Reject? && a.saves && Barred(a.cfg, s.disk) ==> a.cfg.boot >= DiskBoot(s))
  }

  predicate AdvancingRun(acts: seq<Action>) {
    acts == [] || (AdvancingRun(acts[..|acts| - 1]) && Advancing(Exec(acts[..|acts| - 1]), acts[|acts| - 1]))
  }

  lemma RecoveredBoot(cfg: Config, d: Disk)
    ensures var r := Restart(cfg, ReplayAll(cfg, BaseState(cfg, d), Replayable(cfg, d)));
      var known := Max(if d.snapshot.Some? then d.snapshot.value.st.boot else cfg.boot, cfg.boot);
      r.boot == Max(known, SatNext(known))
  {
    ReplayClock(cfg, BaseState(cfg, d), Replayable(cfg, d));
    hide ReplayAll, Replayable, FencedIds, FenceAll;
  }

  /** A restart leaves the boot of the last process behind exactly when the counter has
      not run out and, where only a journal survives, the configured boot has not
      gone back. */
  lemma RestartAdvancesExactly(cfg: Config, d: Disk, last: nat)
    requires d.snapshot.Some? ==> d.snapshot.value.st.boot == last
    requires last <= U64_MAX && cfg.boot <= U64_MAX
    ensures Restart(cfg, ReplayAll(cfg, BaseState(cfg, d), Replayable(cfg, d))).boot > last <==>
      last < U64_MAX && (d.snapshot.Some? || cfg.boot >= last)
  {
    RecoveredBoot(cfg, d);
    hide Restart, ReplayAll, BaseState, Replayable;
  }

  /** After an outright refusal under `refused` has rewritten the store, the next process
      is past the last one exactly when one of the two configurations is. */
  lemma WreckedBootExactly(refused: Config, cfg: Config, d: Disk, empties: bool, last: nat)
    requires Barred(refused, d) && last <= U64_MAX && cfg.boot <= U64_MAX && refused.boot <= U64_MAX
    ensures var after := Wrecked(refused, d, true, empties);
      Restart(cfg, ReplayAll(cfg, BaseState(cfg, after), Replayable(cfg, after))).boot > last <==>
        last < U64_MAX && Max(refused.boot, cfg.boot) >= last
  {
    RecoveredBoot(cfg, Wrecked(refused, d, true, empties));
    hide Restart, ReplayAll, BaseState, Replayable, Barred;
  }

  lemma OpenBoot(s: System, cfg: Config)
    requires BootInv(s) && Enabled(s, Action.Open(cfg)) && Advancing(s, Action.Open(cfg))
    ensures BootInv(s.(process := Recovered(cfg, s.disk), top := Max(s.top, cfg.boot)))
  {
    RecoveredBoot(cfg, s.disk);
    hide ReplayAll, Restart, BaseState, Replayable, Barred;
  }

  /** The boot incarnation a refused opening saves. */
  lemma WreckBoot(s: System, a: Action)
    requires a.Reject? && a.saves
    ensures var d := Wrecked(a.cfg, s.disk, a.saves, a.empties);
      && d.snapshot.Some?
      && d.snapshot.value.st.boot
           == if Barred(a.cfg, s.disk) || s.disk.snapshot.None? then a.cfg.boot else s.disk.snapshot.value.st.boot
  {
    if !Barred(a.cfg, s.disk) { WreckWatermark(a.cfg, s.disk); }
    hide Barred, ReplayAll, Salvaged;
  }

  lemma RejectBoot(s: System, a: Action)
    requires BootInv(s) && a.Reject? && s.process.Down? && Advancing(s, a)
    ensures BootInv(s.(disk := Wrecked(a.cfg, s.disk, a.saves, a.empties), top := Max(s.top, a.cfg.boot)))
  {
    if a.saves { WreckBoot(s, a); } else { NotSaved(a.cfg, s.disk, a.empties); }
    hide Wrecked, Barred;
  }

  lemma TakeBoot(s: System, st: RuntimeState)
    requires Inv(s) && BootInv(s) && Enabled(s, Take) && st.boot == s.process.st.boot
    ensures BootInv(Taken(s, st))
  {
    LoggedNotFresh(s);
    hide Inv, Pushed;
  }

  lemma LoggedNotFresh(s: System)
    requires Inv(s) && Enabled(s, Take)
    ensures !Fresh(s.disk)
  {
    hide Increasing, NotAfter, Later, Suffix, Ascending, AllLater;
  }

  lemma QuietBoot(s: System, a: Action)
    requires BootInv(s) && Enabled(s, a)
    requires !a.Open? && !a.Take? && !a.Finish? && !a.Crash? && !a.Reject?
    ensures BootInv(Effect(s, a))
  {
    hide Commit, RefreshHealth, Recovered, Tokens, Sort, Released, Retained;
  }

  lemma FinishBoot(s: System, st: RuntimeState)
    requires BootInv(s) && s.process.Up? && s.process.phase == Ready([])
    requires st.boot == s.process.st.boot && |st.instances| == |s.process.st.instances|
    ensures BootInv(s.(process := s.process.(st := st, phase := Idle)))
  {
  }

  lemma CrashBoot(s: System)
    requires BootInv(s) && CoreInv(s) && s.process.Up?
    ensures BootInv(Crashed(s))
  {
    var st := s.process.st;
    forall t | t in Tokens(st) ensures t.boot <= st.boot { TokensBounded(st, t); }
    assert st.instances == [] ==> Tokens(st) == {};
    hide CoreInv, Tokens;
  }

  lemma ActBoot(s: System, a: Action)
    requires Inv(s) && BootInv(s) && CoreInv(s) && Advancing(s, a)
    ensures BootInv(Act(s, a))
  {
    hide Inv, BootInv, CoreInv, Recovered, Commit, RefreshHealth, Taken, Crashed, Wrecked;
    if Enabled(s, a) {
      match a
      case Open(cfg) => OpenBoot(s, cfg);
      case Reject(_, _, _) => RejectBoot(s, a);
      case Take =>
        CommitWatermark(s.process.cfg, s.process.st, s.process.phase.queue[0]);
        TakeBoot(s, Commit(s.process.cfg, s.process.st, s.process.phase.queue[0]));
      case Finish =>
        RefreshFrame(s.process.st);
        FinishBoot(s, RefreshHealth(s.process.st));
      case Crash => CrashBoot(s);
      case _ => QuietBoot(s, a);
    }
  }

  lemma RefreshFrame(st: RuntimeState)
    ensures RefreshHealth(st).boot == st.boot && |RefreshHealth(st).instances| == |st.instances|
  {
  }

  lemma {:induction false} RunBoot(acts: seq<Action>)
    requires AdvancingRun(acts)
    ensures BootInv(Exec(acts))
  {
    hide BootInv, Act, Advancing;
    if acts == [] {
      StartBoot();
    } else {
      RunBoot(acts[..|acts| - 1]);
      RunInv(acts[..|acts| - 1]);
      RunState(acts[..|acts| - 1]);
      ActBoot(Exec(acts[..|acts| - 1]), acts[|acts| - 1]);
    }
  }

  lemma StartBoot()
    ensures BootInv(START)
  {
  }

  /** No token that was out when some process ended validates in any later process. */
  lemma SpentTokensStayDead(acts: seq<Action>, instance: Id, t: Token)
    requires AdvancingRun(acts) && Exec(acts).process.Up? && t in Exec(acts).spent
    ensures !Validates(Exec(acts).process.st.fences, instance, t)
  {
    hide Act;
    RunBoot(acts);
    RunState(acts);
    hide Exec, AdvancingRun;
  }

  // ---------------------------------------------------------------------
  // Tokens of earlier authority.
  // ---------------------------------------------------------------------

  /** Issued before the authority in force. */
  predicate Outdated(t: Token, st: RuntimeState) { t.boot < st.boot || (t.boot == st.boot && t.epoch < st.epoch) }

  /** The token stays outdated: by the running process, and by any that starts from the store. */
  ghost predicate Behind(s: System, t: Token) {
    && t.boot <= DiskBoot(s) && !Fresh(s.disk)
    && (s.process.Up? ==> Outdated(t, s.process.st))
  }

  lemma OpenBehind(s: System, cfg: Config, t: Token)
    requires Behind(s, t) && Enabled(s, Action.Open(cfg)) && Advancing(s, Action.Open(cfg))
    ensures Behind(s.(process := Recovered(cfg, s.disk), top := Max(s.top, cfg.boot)), t)
  {
    RecoveredBoot(cfg, s.disk);
    hide ReplayAll, Restart, BaseState, Replayable, Barred;
  }

  lemma RejectBehind(s: System, a: Action, t: Token)
    requires Behind(s, t) && a.Reject? && s.process.Down? && Advancing(s, a)
    ensures Behind(s.(disk := Wrecked(a.cfg, s.disk, a.saves, a.empties), top := Max(s.top, a.cfg.boot)), t)
  {
    if a.saves { WreckBoot(s, a); } else { NotSaved(a.cfg, s.disk, a.empties); }
    hide Wrecked, Barred;
  }

  lemma TakeBehind(s: System, t: Token)
    requires Behind(s, t) && CoreInv(s) && Enabled(s, Take)
    ensures Behind(Taken(s, Commit(s.process.cfg, s.process.st, s.process.phase.queue[0])), t)
  {
    hide CoreOk, StateLive, ServingBacked, Commit, Pushed;
    var p, e := s.process, s.process.phase.queue[0];
    CommitSteps(p.cfg, p.st, e);
    StepParts(p.st, Commit(p.cfg, p.st, e), e.at);
  }

  lemma QuietBehind(s: System, a: Action, t: Token)
    requires Behind(s, t) && BootInv(s) && Enabled(s, a)
    requires !a.Open? && !a.Take? && !a.Reject?
    ensures Behind(Effect(s, a), t)
  {
    hide Commit, Recovered, Tokens, Sort, Released, Retained, RefreshDpus, RefreshInstances;
  }

  lemma ActBehind(s: System, a: Action, t: Token)
    requires Behind(s, t) && BootInv(s) && CoreInv(s) && Advancing(s, a)
    ensures Behind(Act(s, a), t)
  {
    hide Behind, BootInv, CoreInv, Recovered, Commit, RefreshHealth, Taken, Wrecked;
    if Enabled(s, a) {
      match a
      case Open(cfg) => OpenBehind(s, cfg, t);
      case Reject(_, _, _) => RejectBehind(s, a, t);
      case Take => TakeBehind(s, t);
      case _ => QuietBehind(s, a, t);
    }
  }

  lemma {:induction false} RunBehind(acts: seq<Action>, more: seq<Action>, t: Token)
    requires AdvancingRun(acts + more) && Behind(Exec(acts), t)
    ensures Behind(Exec(acts + more), t)
    decreases |more|
  {
    hide Behind, BootInv, CoreInv, Act, Advancing;
    if more == [] {
      assert acts + more == acts;
    } else {
      var n := |more| - 1;
      var mid := acts + more[..n];
      assert (acts + more)[..|acts + more| - 1] == mid && (acts + more)[|acts + more| - 1] == more[n];
      RunBehind(acts, more[..n], t);
      RunBoot(mid);
      RunState(mid);
      ActBehind(Exec(mid), more[n], t);
    }
  }

  /** A token recorded in the state, but of an earlier epoch or boot incarnation than the
      one in force, validates at no later point of the run, restarts included. */
  lemma OldAuthorityStaysDead(acts: seq<Action>, more: seq<Action>, instance: Id, t: Token)
    requires AdvancingRun(acts + more)
    requires Exec(acts).process.Up? && Serves(Exec(acts).process.phase) && Exec(acts + more).process.Up?
    requires t in Tokens(Exec(acts).process.st) && Outdated(t, Exec(acts).process.st)
    ensures !Validates(Exec(acts + more).process.st.fences, instance, t)
  {
    hide Act, AdvancingRun;
    AdvancingPrefix(acts, more);
    RunBoot(acts);
    RunState(acts);
    RunState(acts + more);
    OldIsBehind(Exec(acts), t);
    RunBehind(acts, more, t);
    hide Exec;
  }

  lemma {:induction false} AdvancingPrefix(acts: seq<Action>, more: seq<Action>)
    requires AdvancingRun(acts + more)
    ensures AdvancingRun(acts)
    decreases |more|
  {
    hide Act, Advancing, Exec;
    if more == [] {
      assert acts + more == acts;
    } else {
      assert (acts + more)[..|acts + more| - 1] == acts + more[..|more| - 1];
      AdvancingPrefix(acts, more[..|more| - 1]);
    }
  }

  lemma OldIsBehind(s: System, t: Token)
    requires BootInv(s) && s.process.Up? && Serves(s.process.phase)
    requires t in Tokens(s.process.st) && Outdated(t, s.process.st)
    ensures Behind(s, t)
  {
  }
}
