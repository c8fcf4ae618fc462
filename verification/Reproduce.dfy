/** At every point of every run, the store alone determines the running state up to
    what the clock derives: replaying the journal on its base reaches it. */
module Reproduce {
  import opened Base
  import opened Order
  import opened Model
  import opened Authority
  import opened Reducers
  import opened Runs
  import opened Replay
  import opened Delivery
  import opened Protocol
  import opened ExactlyOnce
  import opened NothingLost
  import opened SafeRotation
  import opened Invariant
  import opened Table
  import opened Restarts
  import opened TokenWeight
  import opened Forgetting

  /** The state the journal was written on top of. */
  function Bottom(cfg: Config, d: Disk): RuntimeState {
    if d.snapshot.Some? then d.snapshot.value.st else Init(cfg)
  }

  /** The journal records already applied. */
  function AppliedTail(d: Disk, phase: Phase): seq<Event>
    requires d.base <= |d.journal| && (phase.Logged? ==> d.base < |d.journal|)
  {
    if phase.Logged? then d.journal[d.base..|d.journal| - 1] else d.journal[d.base..]
  }

  ghost predicate Mirrors(d: Disk, p: Process)
    requires p.Up? && d.base <= |d.journal|
  {
    && (p.phase.Logged? ==> d.base < |d.journal| && p.phase.queue != [] && d.journal[|d.journal| - 1] == p.phase.queue[0])
    && (p.phase.Renamed? || p.phase.Swapped? ==> d.base == |d.journal| && d.snapshot.Some? && Alike(p.st, d.snapshot.value.st))
    && (Serves(p.phase) ==> Alike(p.st, ReplayAll(p.cfg, Bottom(p.cfg, d), AppliedTail(d, p.phase))))
  }

  ghost predicate MirrorInv(s: System) {
    s.disk.base <= |s.disk.journal| && (s.process.Up? ==> Mirrors(s.disk, s.process))
  }

  lemma ReplayNone(cfg: Config, st: RuntimeState)
    ensures ReplayAll(cfg, st, []) == st
  {
    hide Apply;
  }

  lemma FreshMirror(cfg: Config, d: Disk)
    requires Fresh(d) && d.base <= |d.journal|
    ensures Mirrors(d, Begun(cfg))
  {
    assert AppliedTail(d, Idle) == [];
    ReplayNone(cfg, Init(cfg));
    AlikeSelf(Init(cfg));
    hide ReplayAll, Alike, Init;
  }

  lemma ResumedMirror(cfg: Config, d: Disk, st: RuntimeState)
    requires d.base <= |d.journal|
    ensures Mirrors(d, Resumed(cfg, d, st))
  {
    hide ReplayAll, Alike, Replayable, WindowAfter;
  }

  lemma OpenMirror(s: System, cfg: Config)
    requires MirrorInv(s) && Enabled(s, Action.Open(cfg))
    ensures MirrorInv(s.(process := Recovered(cfg, s.disk), top := Max(s.top, cfg.boot)))
  {
    hide Mirrors, ReplayAll, Restart, Replayable;
    if Fresh(s.disk) {
      FreshMirror(cfg, s.disk);
    } else {
      ResumedMirror(cfg, s.disk, Restart(cfg, ReplayAll(cfg, BaseState(cfg, s.disk), Replayable(cfg, s.disk))));
    }
    hide Resumed, Begun;
  }

  lemma SaveMirror(s: System, phase: Phase)
    requires MirrorInv(s) && s.process.Up? && (phase.Renamed? || phase.Swapped?)
    ensures MirrorInv(SavedAs(s, phase))
  {
    hide ReplayAll, Alike;
    var d := Saved(s.disk, s.process);
    assert d.journal[d.base..] == [];
    ReplayNone(s.process.cfg, s.process.st);
    AlikeSelf(s.process.st);
  }

  lemma EmptyMirror(s: System, phase: Phase)
    requires MirrorInv(s) && s.process.Up? && (s.process.phase.Renamed? || s.process.phase.Swapped?)
    requires phase.Rotated? || phase.Idle?
    ensures MirrorInv(EmptiedAs(s, phase))
  {
    hide ReplayAll;
    var p, b := s.process, s.disk.snapshot.value.st;
    ReplayNone(p.cfg, b);
    assert Emptied(s.disk).journal[0..] == [];
    assert Alike(p.st.(journaled := 0), b) by { hide AlikeTable, AlikeDpus; }
    hide Alike;
  }

  lemma AppendMirror(s: System)
    requires MirrorInv(s) && HasQueue(s.process) && (s.process.phase.Ready? || s.process.phase.Rotated?)
    ensures MirrorInv(Appended(s))
  {
    hide ReplayAll;
    var p, d := s.process, s.disk;
    var d' := Appended(s).disk;
    var r := ReplayAll(p.cfg, Bottom(p.cfg, d), d.journal[d.base..]);
    assert d'.journal[d'.base..|d'.journal| - 1] == d.journal[d.base..];
    assert Alike(p.st.(journaled := p.st.journaled + 1), r) by { hide AlikeTable, AlikeDpus; }
    hide Alike;
  }

  lemma TakeMirror(s: System)
    requires MirrorInv(s) && Enabled(s, Take)
    ensures MirrorInv(Taken(s, Commit(s.process.cfg, s.process.st, s.process.phase.queue[0])))
  {
    hide Apply, Alike, Commit, ReplayOne, ReplayAll, Pushed, ReceiptOf;
    var p, d, e := s.process, s.disk, s.process.phase.queue[0];
    var done := d.journal[d.base..|d.journal| - 1];
    assert d.journal[d.base..] == done + [e];
    OneAlike(p.cfg, p.st, ReplayAll(p.cfg, Bottom(p.cfg, d), done), e);
    ReplaySnoc(p.cfg, Bottom(p.cfg, d), done, e);
  }

  lemma FinishMirror(s: System)
    requires MirrorInv(s) && s.process.Up? && s.process.phase == Ready([])
    ensures MirrorInv(s.(process := s.process.(st := RefreshHealth(s.process.st), phase := Idle)))
  {
    hide ReplayAll, Alike, RefreshHealth;
    var p, d := s.process, s.disk;
    BothRefreshed(p.st, ReplayAll(p.cfg, Bottom(p.cfg, d), d.journal[d.base..]));
  }

  lemma PassMirror(s: System, p: Process)
    requires MirrorInv(s) && s.process.Up? && p.Up? && p.st == s.process.st && p.cfg == s.process.cfg
    requires Serves(s.process.phase) && !s.process.phase.Logged? && (p.phase.Idle? || p.phase.Ready?)
    ensures MirrorInv(s.(process := p))
  {
    hide ReplayAll, Alike;
  }

  lemma RejectMirror(d: Disk, cfg: Config, saves: bool, empties: bool)
    requires d.base <= |d.journal|
    ensures var e := Wrecked(cfg, d, saves, empties); e.base <= |e.journal|
  {
    hide Barred, Salvaged, ReplayAll;
  }

  lemma ActMirror(s: System, a: Action)
    requires MirrorInv(s)
    ensures MirrorInv(Act(s, a))
  {
    hide Recovered, Commit, RefreshHealth, Taken, SavedAs, EmptiedAs, Appended, Mirrors, Sort, Released, Retained, Wrecked;
    if Enabled(s, a) {
      var p := s.process;
      match a
      case Open(cfg) => OpenMirror(s, cfg);
      case Take => TakeMirror(s);
      case Finish => FinishMirror(s);
      case Append => AppendMirror(s);
      case Rename => SaveMirror(s, Renamed(p.phase.queue));
      case Swap => SaveMirror(s, Swapped(p.phase.Opening?));
      case Truncate => EmptyMirror(s, Rotated(p.phase.queue));
      case SwapDone => EmptyMirror(s, Idle);
      case Stage(e) => PassMirror(s, Effect(s, a).process);
      case Begin(upto) => PassMirror(s, Effect(s, a).process);
      case Skip => PassMirror(s, Effect(s, a).process);
      case Refuse => PassMirror(s, Effect(s, a).process);
      case SwapFailed => PassMirror(s, Effect(s, a).process);
      case Crash =>
      case Reject(cfg, saves, empties) => RejectMirror(s.disk, cfg, saves, empties);
    }
  }

  lemma {:induction false} RunMirror(acts: seq<Action>)
    ensures MirrorInv(Exec(acts))
  {
    hide Act, Mirrors;
    if acts != [] {
      RunMirror(acts[..|acts| - 1]);
      ActMirror(Exec(acts[..|acts| - 1]), acts[|acts| - 1]);
    }
  }

  // ---------------------------------------------------------------------
  // Reopening.
  // ---------------------------------------------------------------------

  /** The state the store stands for: the running one, or one event further when an event
      is journaled and not yet applied. */
  function Standing(p: Process): RuntimeState
    requires p.Up? && (p.phase.Logged? ==> p.phase.queue != [])
  {
    if p.phase.Logged? then Commit(p.cfg, p.st, p.phase.queue[0]) else p.st
  }

  lemma StandingMirrors(d: Disk, p: Process)
    requires p.Up? && d.base <= |d.journal| && Mirrors(d, p) && Serves(p.phase)
    ensures p.phase.Logged? ==> p.phase.queue != []
    ensures Alike(Standing(p), ReplayAll(p.cfg, Bottom(p.cfg, d), d.journal[d.base..]))
  {
    hide Alike, Commit, ReplayOne, Bottom;
    if p.phase.Logged? {
      var tail, e := AppliedTail(d, p.phase), p.phase.queue[0];
      assert tail + [e] == d.journal[d.base..];
      ReplaySnoc(p.cfg, Bottom(p.cfg, d), tail, e);
      hide ReplayAll;
      OneAlike(p.cfg, p.st, ReplayAll(p.cfg, Bottom(p.cfg, d), tail), e);
    }
  }

  /** A snapshot without issued tokens, or none at all. */
  predicate Tokenless(d: Disk) { d.snapshot.Some? ==> d.snapshot.value.st.fences.serials == map[] }

  lemma TokenlessBase(s: System, cfg: Config)
    requires CoreInv(s) && Tokenless(s.disk)
    ensures BaseState(cfg, s.disk) == Bottom(cfg, s.disk)
  {
    hide Entries, GrantsSorted, StateLive, ServingBacked, Init;
  }

  lemma BaseResembles(s: System, cfg: Config)
    requires CoreInv(s) && Acceptable(cfg)
    ensures Resembles(Bottom(cfg, s.disk), BaseState(cfg, s.disk))
  {
    hide CoreOk, StateLive, ServingBacked, Resembles, Restored, Acceptable;
    if s.disk.snapshot.Some? {
      RestoredResembles(s.disk.snapshot.value.st);
    } else {
      InitResembles(cfg);
    }
  }

  lemma InitResembles(cfg: Config)
    ensures Resembles(Init(cfg), Init(cfg))
  {
    AlikeSelf(Init(cfg));
    hide Alike;
  }

  /** After any guarded run, reopening the store under the same configuration replays
      exactly the journal written since the snapshot, and
      - if the snapshot holds no token, reaches the state the store stands for, up to what
        the clock derives;
      - in any case stays with it, tokens aside, exactly as long as no record uses a token
        issued before the snapshot. */
  lemma RecoveryReproducesState(acts: seq<Action>)
    requires Exec(acts).process.Up? && Serves(Exec(acts).process.phase)
    requires GuardedRun(acts, Exec(acts).process.cfg.bounds.maxWindow)
    ensures var d, p := Exec(acts).disk, Exec(acts).process;
      var again := ReplayAll(p.cfg, BaseState(p.cfg, d), Replayable(p.cfg, d));
      && (p.phase.Logged? ==> p.phase.queue != [])
      && (Tokenless(d) ==> Alike(Standing(p), again))
      && d.base <= |d.journal| && Replayable(p.cfg, d) == d.journal[d.base..]
      && var first, tail := Bottom(p.cfg, d), d.journal[d.base..];
        && (KeepsUp(p.cfg, false, first, BaseState(p.cfg, d), tail) <==> Harmless(p.cfg, false, first, BaseState(p.cfg, d), tail))
        && (Harmless(p.cfg, false, first, BaseState(p.cfg, d), tail) ==> Resembles(Standing(p), again))
  {
    hide Act, Alike, ReplayAll, GuardedRun, Replayable, Mirrors, CoreInv, KeepsUp, Harmless, Resembles, Standing, Bottom, BaseState, Durable;
    var s := Exec(acts);
    var d, p := s.disk, s.process;
    RunMirror(acts);
    RunState(acts);
    RunInv(acts);
    PositiveWindow(s);
    assert acts + [] == acts;
    GuardedRunsLoseNothing(acts, [], p.cfg);
    hide Exec;
    ReplayedTail(p.cfg, d);
    StandingMirrors(d, p);
    var first, base, tail := Bottom(p.cfg, d), BaseState(p.cfg, d), d.journal[d.base..];
    if Tokenless(d) { TokenlessBase(s, p.cfg); }
    UpAcceptable(s);
    BaseResembles(s, p.cfg);
    TailExactly(p.cfg, false, first, base, tail);
    if Harmless(p.cfg, false, first, base, tail) {
      KeptUp(p.cfg, first, base, tail);
      AlikeResembles(Standing(p), ReplayAll(p.cfg, first, tail), ReplayAll(p.cfg, base, tail));
    }
  }

  lemma PositiveWindow(s: System)
    requires Inv(s) && s.process.Up?
    ensures s.process.cfg.bounds.maxWindow > 0
  {
    hide DiskOk, PhaseOk, Increasing, Durable, Suffix, Later;
  }

  lemma UpAcceptable(s: System)
    requires CoreInv(s) && s.process.Up?
    ensures Acceptable(s.process.cfg)
  {
    hide CoreOk, StateLive, ServingBacked, Acceptable;
  }

  lemma ReplayedTail(cfg: Config, d: Disk)
    requires d.base <= |d.journal| && SavedLog(d) + Replayable(cfg, d) == Durable(d)
    ensures Replayable(cfg, d) == d.journal[d.base..]
  {
    hide Replayable;
    SameTail(SavedLog(d), Replayable(cfg, d), d.journal[d.base..]);
  }

  lemma KeptUp(cfg: Config, a: RuntimeState, b: RuntimeState, es: seq<Event>)
    requires KeepsUp(cfg, false, a, b, es)
    ensures Resembles(ReplayAll(cfg, a, es), ReplayAll(cfg, b, es))
  {
    hide Resembles, ReplayAll;
  }

  lemma AlikeResembles(x: RuntimeState, y: RuntimeState, z: RuntimeState)
    requires Alike(x, y) && Resembles(y, z)
    ensures Resembles(x, z)
  {
    hide AlikeTable, AlikeDpus, Agree;
    assert Alike(x.(fences := z.fences), y.(fences := z.fences));
    hide Alike;
    AlikeTrans(x.(fences := z.fences), y.(fences := z.fences), z);
  }
}
