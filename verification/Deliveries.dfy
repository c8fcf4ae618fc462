/** Whole deliveries as stretches of a run: one event after the other is staged, released,
    journaled and reduced by a process that is otherwise idle. */
module Deliveries {
  import opened Base
  import opened Order
  import opened Model
  import opened Reducers
  import opened Runs
  import opened Replay
  import opened Delivery
  import opened Protocol
  import opened ExactlyOnce
  import opened SafeRotation

  function Deliver(e: Event): seq<Action> { [Action.Stage(e), Begin(e.at), Append, Take, Finish] }

  /** The state after one delivery. */
  function Delivered(cfg: Config, st: RuntimeState, e: Event): RuntimeState {
    RefreshHealth(Commit(cfg, st.(journaled := st.journaled + 1), e))
  }

  predicate Waiting(s: System) { s.process.Up? && s.process.phase == Idle && s.process.pending == [] }

  function Served(s: System, e: Event): System
    requires s.process.Up?
  {
    var p := s.process;
    System(s.disk.(journal := s.disk.journal + [e]),
           Up(p.cfg, Delivered(p.cfg, p.st, e), [], Pushed(p.window, p.cfg.bounds.maxWindow, ReceiptOf(p.cfg, e)), Idle,
              p.log + [e], p.life + [e]),
           s.spent, s.top)
  }

  lemma Queued(s: System, e: Event)
    requires Waiting(s) && Stageable(s.process, e)
    ensures Act(Act(s, Action.Stage(e)), Begin(e.at)) == s.(process := s.process.(phase := Ready([e])))
  {
    hide Commit, RefreshHealth, Recovered, Seen, Wrecked;
    assert [] + [e] == [e];
    var t := s.(process := s.process.(pending := [e]));
    assert Act(s, Action.Stage(e)) == t;
    ReleasedOne(e);
    hide Sort, Released, Retained;
  }

  lemma ReleasedOne(e: Event)
    ensures Released([e], e.at) == [e] && Retained([e], e.at) == [] && Sort([e], EventLess) == [e]
  {
    assert [e][..0] == [];
    assert Released([], e.at) == [] && Retained([], e.at) == [] && Sort([], EventLess) == [];
  }

  lemma Taken1(s: System, e: Event)
    requires s.process.Up? && s.process.phase == Ready([e]) && s.process.pending == [] && !Seen(s.process.window, e)
    ensures Act(Act(Act(s, Append), Take), Finish) == Served(s, e)
  {
    hide Commit, RefreshHealth, Recovered, Seen, Wrecked, Pushed, ReceiptOf;
    assert [e][1..] == [];
    var t := Appended(s);
    assert Act(s, Append) == t;
    var st := Commit(s.process.cfg, t.process.st, e);
    var u := Taken(t, st);
    assert Act(t, Take) == u;
    assert u.process.phase == Ready([]);
  }

  lemma ExecFive(acts: seq<Action>, a: Action, b: Action, c: Action, d: Action, e: Action)
    ensures Exec(acts + [a, b, c, d, e]) == Act(Act(Act(Act(Act(Exec(acts), a), b), c), d), e)
  {
    hide Exec, Act;
    assert acts + [a, b, c, d, e] == acts + [a] + [b] + [c] + [d] + [e];
    ExecSnoc(acts, a);
    ExecSnoc(acts + [a], b);
    ExecSnoc(acts + [a] + [b], c);
    ExecSnoc(acts + [a] + [b] + [c], d);
    ExecSnoc(acts + [a] + [b] + [c] + [d], e);
  }

  /** What one delivery does to a waiting process. */
  lemma DeliverOne(acts: seq<Action>, e: Event)
    requires Waiting(Exec(acts)) && Stageable(Exec(acts).process, e)
    ensures Exec(acts + Deliver(e)) == Served(Exec(acts), e)
  {
    hide Exec, Act, Served, Stageable;
    var s := Exec(acts);
    ExecFive(acts, Action.Stage(e), Begin(e.at), Append, Take, Finish);
    Queued(s, e);
    assert !Seen(s.process.window, e) by { FreshOf(s.process, e); }
    Taken1(s.(process := s.process.(phase := Ready([e]))), e);
    ServedPhase(s, e);
  }

  lemma FreshOf(p: Process, e: Event)
    requires p.Up? && Stageable(p, e)
    ensures !Seen(p.window, e)
  {
  }

  lemma ServedPhase(s: System, e: Event)
    requires Waiting(s)
    ensures Served(s.(process := s.process.(phase := Ready([e]))), e) == Served(s, e)
  {
    hide Commit, RefreshHealth, Pushed, ReceiptOf;
  }

  /** The clock and watermark a delivery leaves. */
  lemma DeliveredFrame(cfg: Config, st: RuntimeState, e: Event)
    ensures var r := Delivered(cfg, st, e);
      && r.watermark == Max(st.watermark, e.at) && r.boot == st.boot && r.storeId == st.storeId
      && r.clock == Max(if e.body.LogicalTimeAdvanced? then Max(st.clock, e.body.now) else st.clock, e.at)
  {
    hide Apply;
  }

  /** Opening an empty store. */
  lemma OpenFresh(cfg: Config)
    requires Opens(cfg, START.disk)
    ensures Exec([Action.Open(cfg)]) == START.(process := Begun(cfg), top := cfg.boot)
  {
    hide Resumed, ReplayAll, Commit, RefreshHealth, Wrecked, Barred;
    ExecNone();
    assert [] + [Action.Open(cfg)] == [Action.Open(cfg)];
    ExecSnoc([], Action.Open(cfg));
  }

  /** Saving everything and stopping. */
  lemma StopClean(acts: seq<Action>)
    requires Waiting(Exec(acts))
    ensures var s, t := Exec(acts), Exec(acts + [Swap] + [SwapDone] + [Crash]);
      && t.disk == Disk(Some(Snapshot(s.process.st, s.process.log)), [], 0) && t.process.Down?
      && t.top == s.top
  {
    hide Exec, Act;
    var s := Exec(acts);
    ExecSnoc(acts, Swap);
    ExecSnoc(acts + [Swap], SwapDone);
    ExecSnoc(acts + [Swap] + [SwapDone], Crash);
    StopSteps(s);
  }

  lemma StopSteps(s: System)
    requires Waiting(s)
    ensures var t := Act(Act(Act(s, Swap), SwapDone), Crash);
      && t.disk == Disk(Some(Snapshot(s.process.st, s.process.log)), [], 0) && t.process.Down? && t.top == s.top
  {
    hide Commit, RefreshHealth, Recovered, Wrecked, Tokens;
    var u := SavedAs(s, Swapped(false));
    assert Act(s, Swap) == u;
    assert Act(u, SwapDone) == EmptiedAs(u, Idle);
  }

  // ---------------------------------------------------------------------
  // Scripts: one event per instant, from an empty store.
  // ---------------------------------------------------------------------

  predicate Scripted(es: seq<Event>) {
    forall k :: 0 <= k < |es| ==> Complete(es[k]) && es[k].seal == "" && es[k].at == k + 1 && es[k].originSeq == k + 1
  }

  function RunOf(cfg: Config, es: seq<Event>): seq<Action> {
    if es == [] then [Action.Open(cfg)] else RunOf(cfg, es[..|es| - 1]) + Deliver(es[|es| - 1])
  }

  function StateAfter(cfg: Config, es: seq<Event>): RuntimeState {
    if es == [] then Init(cfg) else Delivered(cfg, StateAfter(cfg, es[..|es| - 1]), es[|es| - 1])
  }

  /** Only positions up to `n` are remembered. */
  ghost predicate UpTo(window: seq<Receipt>, n: nat) { forall r :: r in window ==> r.number <= n }

  lemma PushedUpTo(window: seq<Receipt>, capacity: nat, x: Receipt, n: nat)
    requires UpTo(window, n) && x.number <= n + 1
    ensures UpTo(Pushed(window, capacity, x), n + 1)
  {
  }

  /** Where a script leaves the system. */
  lemma {:induction false} ScriptRuns(cfg: Config, es: seq<Event>)
    requires Opens(cfg, START.disk) && Scripted(es)
    ensures var s := Exec(RunOf(cfg, es));
      && s.disk == Disk(None, es, 0) && Waiting(s) && s.process.cfg == cfg && s.process.st == StateAfter(cfg, es)
      && s.process.log == es && s.process.life == es && s.process.st.watermark == |es| && UpTo(s.process.window, |es|)
      && s.top == cfg.boot && s.spent == {}
    decreases |es|
  {
    hide Exec, Act, Commit, RefreshHealth, Pushed, ReceiptOf;
    if es == [] {
      OpenFresh(cfg);
    } else {
      var n := |es| - 1;
      var e := es[n];
      ScriptRuns(cfg, es[..n]);
      var s := Exec(RunOf(cfg, es[..n]));
      assert es[..n] + [e] == es;
      assert !Seen(s.process.window, e);
      DeliverOne(RunOf(cfg, es[..n]), e);
      DeliveredFrame(cfg, s.process.st, e);
      hide Delivered;
      ReceiptNumber(cfg, e);
      PushedUpTo(s.process.window, cfg.bounds.maxWindow, ReceiptOf(cfg, e), n);
    }
  }

  lemma ReceiptNumber(cfg: Config, e: Event)
    ensures ReceiptOf(cfg, e).number == e.originSeq
  {
  }

  /** A script never rotates and never is refused, so it is guarded. */
  lemma {:induction false} ScriptGuarded(cfg: Config, es: seq<Event>)
    ensures GuardedRun(RunOf(cfg, es), cfg.bounds.maxWindow)
    decreases |es|
  {
    hide Exec, Act;
    if es == [] {
      PlainGuarded([], [Action.Open(cfg)], cfg.bounds.maxWindow);
      assert [] + [Action.Open(cfg)] == [Action.Open(cfg)];
    } else {
      var n := |es| - 1;
      ScriptGuarded(cfg, es[..n]);
      PlainGuarded(RunOf(cfg, es[..n]), Deliver(es[n]), cfg.bounds.maxWindow);
    }
  }

  lemma {:induction false} PlainGuarded(acts: seq<Action>, more: seq<Action>, c: nat)
    requires GuardedRun(acts, c)
    requires forall a :: a in more ==> !a.Rename? && !a.Reject? && (a.Open? ==> a.cfg.bounds.maxWindow == c)
    ensures GuardedRun(acts + more, c)
    decreases |more|
  {
    hide Exec, Act;
    if more == [] {
      assert acts + more == acts;
    } else {
      var n := |more| - 1;
      assert (acts + more)[..|acts + more| - 1] == acts + more[..n] && (acts + more)[|acts + more| - 1] == more[n];
      assert more[n] in more;
      PlainGuarded(acts, more[..n], c);
    }
  }
}
