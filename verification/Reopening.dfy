/** What a reopening does to fences and grants, on every store: it fences every instance at
    the replayed clock, and keeps every grant the store stands for. */
module Reopening {
  import opened Base
  import opened Order
  import opened Model
  import opened Authority
  import opened Reducers
  import opened Lifecycle
  import opened Table
  import opened Invariant
  import opened Claims
  import opened Ownership
  import opened FenceTimes
  import opened Runs
  import opened Replay
  import opened Forgetting
  import opened Delivery
  import opened Protocol
  import opened ExactlyOnce
  import opened NothingLost
  import opened SafeRotation
  import opened Restarts
  import opened Reproduce

  /** The state the store replays to. */
  function Rebuilt(cfg: Config, d: Disk): RuntimeState { ReplayAll(cfg, BaseState(cfg, d), Replayable(cfg, d)) }

  /** The clock it replays to: only time events move it on. */
  function Reckoned(cfg: Config, d: Disk): nat { Told(Replayable(cfg, d), BaseState(cfg, d).clock) }

  /** Every row is fenced at the replayed clock, so its fence moves back exactly when no
      replayed time event, and not the saved clock either, reaches it. Grants stay. */
  lemma ReopeningExactly(cfg: Config, d: Disk)
    requires !Fresh(d)
    ensures var st, was := Recovered(cfg, d).st, Rebuilt(cfg, d);
      && st.grants == was.grants && |st.instances| == |was.instances|
      && (forall k :: 0 <= k < |was.instances| ==> FencedTo(was.instances[k], st.instances[k], Reckoned(cfg, d), true))
      && (forall k :: 0 <= k < |was.instances| ==>
            (st.instances[k].effectFencedAt < was.instances[k].effectFencedAt <==> Reckoned(cfg, d) < was.instances[k].effectFencedAt))
  {
    ReplayClock(cfg, BaseState(cfg, d), Replayable(cfg, d));
    hide ReplayAll, BaseState, Replayable, Told, FencedIds, WindowAfter, CancelAttempts;
  }

  // ---------------------------------------------------------------------
  // Against the state before the crash.
  // ---------------------------------------------------------------------

  /** No record of the journal uses a token from before the snapshot. */
  ghost predicate Reproduces(cfg: Config, d: Disk) {
    && d.base <= |d.journal|
    && (Tokenless(d) || Harmless(cfg, false, Bottom(cfg, d), BaseState(cfg, d), d.journal[d.base..]))
  }

  lemma StandingRebuilt(acts: seq<Action>)
    requires Exec(acts).process.Up? && Serves(Exec(acts).process.phase)
    requires GuardedRun(acts, Exec(acts).process.cfg.bounds.maxWindow)
    requires Reproduces(Exec(acts).process.cfg, Exec(acts).disk)
    ensures var p := Exec(acts).process;
      && (p.phase.Logged? ==> p.phase.queue != [])
      && var was, again := Standing(p), Rebuilt(p.cfg, Exec(acts).disk);
      was.grants == again.grants && AlikeTable(was.instances, again.instances)
  {
    RecoveryReproducesState(acts);
    hide Exec, GuardedRun, Standing, ReplayAll, Replayable, BaseState, Bottom, KeepsUp, Harmless, AlikeTable, AlikeDpus, Tokenless;
  }

  lemma FreshRebuilt(cfg: Config, d: Disk)
    requires Fresh(d)
    ensures Rebuilt(cfg, d) == Recovered(cfg, d).st == Init(cfg)
  {
    assert Replayable(cfg, d) == [];
  }

  lemma AlikeRow(a: seq<Instance>, b: seq<Instance>, k: nat)
    requires AlikeTable(a, b) && k < |a|
    ensures a[k].id == b[k].id && a[k].effectFencedAt == b[k].effectFencedAt
  {
    assert AlikeInstance(a[k], b[k]);
  }

  /** After any guarded run whose journal reproduces the state, a process opened on the store
      - holds exactly the grants the store stood for, so none exactly when there were none;
      - has every instance fenced at the latest instant a time event named, so earlier than
        before exactly where that instant is earlier. */
  lemma ReopenedAgainstLive(acts: seq<Action>)
    requires Exec(acts).process.Up? && Serves(Exec(acts).process.phase)
    requires GuardedRun(acts, Exec(acts).process.cfg.bounds.maxWindow)
    requires Reproduces(Exec(acts).process.cfg, Exec(acts).disk)
    ensures var d, p := Exec(acts).disk, Exec(acts).process;
      && (p.phase.Logged? ==> p.phase.queue != [])
      && var was, now := Standing(p), Recovered(p.cfg, d).st;
      && now.grants == was.grants && |now.instances| == |was.instances|
      && (forall k :: 0 <= k < |was.instances| ==> FencedTo(was.instances[k], now.instances[k], Reckoned(p.cfg, d), true))
      && (forall k :: 0 <= k < |was.instances| ==>
            (now.instances[k].effectFencedAt < was.instances[k].effectFencedAt <==> Reckoned(p.cfg, d) < was.instances[k].effectFencedAt))
  {
    hide Act, GuardedRun, Recovered, Standing, Rebuilt, Reckoned, AlikeTable, Reproduces;
    var d, p := Exec(acts).disk, Exec(acts).process;
    StandingRebuilt(acts);
    hide Exec;
    var was, again := Standing(p), Rebuilt(p.cfg, d);
    LikeLengths(was.instances, again.instances);
    forall k | 0 <= k < |was.instances|
      ensures was.instances[k].id == again.instances[k].id && was.instances[k].effectFencedAt == again.instances[k].effectFencedAt
    {
      AlikeRow(was.instances, again.instances, k);
    }
    if Fresh(d) { FreshRebuilt(p.cfg, d); } else { ReopeningExactly(p.cfg, d); }
  }

  lemma LikeLengths(a: seq<Instance>, b: seq<Instance>)
    requires AlikeTable(a, b)
    ensures |a| == |b|
  {
  }

  // ---------------------------------------------------------------------
  // Steps that neither reduce an event nor open.
  // ---------------------------------------------------------------------

  /** Staging, releasing, journaling, rotating and checkpointing leave every fence. */
  lemma OtherStepsKeepFences(s: System, a: Action, k: nat)
    requires s.process.Up? && k < |s.process.st.instances| && !a.Take? && !a.Crash?
    ensures var t := Act(s, a).process;
      && t.Up? && |t.st.instances| == |s.process.st.instances|
      && FencedTo(s.process.st.instances[k], t.st.instances[k], 0, false)
  {
    hide RefreshHealth, Commit, Recovered, Wrecked, Seen, Sort, Released, Retained;
    RefreshFences(s.process.st, k);
  }
}
