/** Runs that never lose a committed event: a rotation forced by a full journal
    happens only for an event later than the watermark. And the runs that do. */
module SafeRotation {
  import opened Base
  import opened Order
  import opened Model
  import opened Reducers
  import opened Runs
  import opened Replay
  import opened Delivery
  import opened Protocol
  import opened ExactlyOnce
  import opened NothingLost

  // ---------------------------------------------------------------------
  // Repetition.
  // ---------------------------------------------------------------------

  lemma RecentSuffix(a: seq<Event>, p: seq<Event>, e: Event, c: nat)
    requires Recent(p, e, c)
    ensures Recent(a + p, e, c)
  {
    var k :| 0 <= k < |p| <= k + c && SameSource(p[k], e);
    assert (a + p)[|a| + k] == p[k];
  }

  lemma {:induction false} NoRepeatsDrop(a: seq<Event>, p: seq<Event>, es: seq<Event>, c: nat)
    requires NoRepeats(a + p, es, c)
    ensures NoRepeats(p, es, c)
    decreases |es|
  {
    hide Recent;
    if es != [] {
      if Recent(p, es[0], c) { RecentSuffix(a, p, es[0], c); }
      assert a + p + [es[0]] == a + (p + [es[0]]);
      NoRepeatsDrop(a, p + [es[0]], es[1..], c);
    }
  }

  lemma {:induction false} NoRepeatsSplit(p: seq<Event>, a: seq<Event>, b: seq<Event>, c: nat)
    ensures NoRepeats(p, a + b, c) <==> NoRepeats(p, a, c) && NoRepeats(p + a, b, c)
    decreases |a|
  {
    hide Recent;
    if a == [] {
      assert a + b == b && p + a == p;
    } else {
      assert (a + b)[1..] == a[1..] + b && (a + b)[0] == a[0];
      assert p + [a[0]] + a[1..] == p + a;
      NoRepeatsSplit(p + [a[0]], a[1..], b, c);
    }
  }

  lemma NoRepeatsTail(life: seq<Event>, k: nat, c: nat)
    requires NoRepeats([], life, c) && k <= |life|
    ensures NoRepeats([], life[k..], c)
  {
    assert life == life[..k] + life[k..];
    NoRepeatsSplit([], life[..k], life[k..], c);
    assert [] + life[..k] == life[..k] == life[..k] + [];
    NoRepeatsDrop(life[..k], [], life[k..], c);
  }

  lemma NoRepeatsAppend(life: seq<Event>, e: Event, c: nat)
    requires NoRepeats([], life, c) && !Recent(life, e, c)
    ensures NoRepeats([], life + [e], c)
  {
    NoRepeatsSplit([], life, [e], c);
    assert [] + life == life;
    assert NoRepeats(life, [e], c);
  }

  lemma {:induction false} WindowIs(cfg: Config, p: seq<Event>, es: seq<Event>)
    requires cfg.bounds.maxWindow > 0
    ensures WindowAfter(cfg, Last(Receipts(cfg, p), cfg.bounds.maxWindow), es) == Last(Receipts(cfg, p + es), cfg.bounds.maxWindow)
    decreases |es|
  {
    hide Last, Receipts, Pushed;
    if es == [] {
      assert p + es == p;
    } else {
      WindowStep(cfg, p, es[0]);
      WindowIs(cfg, p + [es[0]], es[1..]);
      assert p + [es[0]] + es[1..] == p + es;
    }
  }

  // ---------------------------------------------------------------------
  // The invariant of guarded runs.
  // ---------------------------------------------------------------------

  /** What this process applied, and the event it has just journaled. */
  function Lived(p: Process): seq<Event>
    requires p.Up?
  {
    if p.phase.Logged? && p.phase.queue != [] then p.life + [p.phase.queue[0]] else p.life
  }

  function QueueOf(phase: Phase): seq<Event> {
    match phase
    case Ready(q) => q
    case Renamed(q) => q
    case Rotated(q) => q
    case Logged(q) => q
    case _ => []
  }

  ghost predicate SafeDisk(d: Disk, c: nat)
    requires d.base <= |d.journal|
  {
    CutClean(d) && NoRepeats([], d.journal[d.base..], c)
  }

  ghost predicate SafeUp(d: Disk, p: Process, c: nat)
    requires p.Up? && d.base <= |d.journal|
  {
    && p.cfg.bounds.maxWindow == c
    && p.window == Last(Receipts(p.cfg, p.life), c)
    && NoRepeats([], Lived(p), c)
    && Later(QueueOf(p.phase), Floor(d))
    && (Serves(p.phase) ==> Suffix(d.journal[d.base..], Lived(p)))
    && (p.phase.Opening? ==> NotAfter(d.journal, p.st.watermark) && p.log == Durable(d))
  }

  ghost predicate SafeInv(s: System, c: nat) {
    && Inv(s) && s.disk.base <= |s.disk.journal| && SafeDisk(s.disk, c)
    && (s.process.Up? ==> SafeUp(s.disk, s.process, c))
  }

  /** The guard: a process opens with window `c`, a full journal is rotated only for an
      event later than the watermark, and a configuration the store refuses is only
      tried on a store without events. */
  predicate Guarded(s: System, a: Action, c: nat) {
    && (a.Open? ==> a.cfg.bounds.maxWindow == c)
    && (a.Reject? && a.saves ==> SavedLog(s.disk) == [] && s.disk.journal == [])
    && (a.Rename? && HasQueue(s.process) ==> s.process.phase.queue[0].at > s.process.st.watermark)
  }

  /** Every step is guarded, and no opening has a larger window than the ones before it,
      or a smaller one than `c`. */
  predicate GuardedRun(acts: seq<Action>, c: nat) {
    acts == [] ||
      var n := |acts| - 1;
      var w := WindowAt(acts[n], c);
      c <= w && GuardedRun(acts[..n], w) && Guarded(Exec(acts[..n]), acts[n], w)
  }

  function WindowAt(a: Action, c: nat): nat { if a.Open? then a.cfg.bounds.maxWindow else c }

  lemma {:induction false} GuardedNarrower(acts: seq<Action>, w: nat, c: nat)
    requires GuardedRun(acts, w) && c <= w
    ensures GuardedRun(acts, c)
    decreases |acts|
  {
    hide Exec;
    if acts != [] && !acts[|acts| - 1].Open? { GuardedNarrower(acts[..|acts| - 1], w, c); }
  }

  // ---------------------------------------------------------------------
  // Steps.
  // ---------------------------------------------------------------------

  lemma AllReplayed(cfg: Config, d: Disk, c: nat)
    requires DiskOk(d) && SafeDisk(d, c) && c > 0 && cfg.bounds.maxWindow == c
    ensures Replayable(cfg, d) == d.journal[d.base..]
    ensures NotAfter(d.journal, Latest(Replayable(cfg, d), Floor(d)))
  {
    hide Replayable, NoRepeats, CutClean, Increasing, Latest, NotAfter;
    RecoveryLosesNothingExactly(cfg, d);
    SameTail(SavedLog(d), Replayable(cfg, d), d.journal[d.base..]);
    AllBefore(d);
  }

  lemma AllBefore(d: Disk)
    requires d.base <= |d.journal| && CutClean(d)
    ensures NotAfter(d.journal, Latest(d.journal[d.base..], Floor(d)))
  {
    var es := d.journal[d.base..];
    LatestBounds(es, Floor(d));
    hide Latest;
    forall e | e in d.journal ensures e.at <= Latest(es, Floor(d)) {
      var k :| 0 <= k < |d.journal| && d.journal[k] == e;
      assert k >= d.base ==> es[k - d.base] == e;
    }
  }

  lemma ResumeSafe(s: System, cfg: Config, st: RuntimeState, c: nat)
    requires SafeInv(s, c) && s.process.Down? && c > 0 && cfg.bounds.maxWindow == c
    requires st.watermark == Latest(Replayable(cfg, s.disk), Floor(s.disk))
    ensures SafeInv(s.(process := Resumed(cfg, s.disk, st)), c)
  {
    hide DiskOk, SafeDisk, NoRepeats, WindowAfter, Latest, Replayable, Receipts, UpOk;
    var d, es := s.disk, Replayable(cfg, s.disk);
    ResumeInv(s, cfg, st);
    AllReplayed(cfg, d, c);
    hide Inv;
    TailRepeats(d, c);
    WindowIs(cfg, [], es);
    NoReceipts(cfg, c);
    assert [] + es == es;
    NoneLater(Floor(d));
    hide Later, NotAfter, Last;
  }

  lemma TailRepeats(d: Disk, c: nat)
    requires d.base <= |d.journal| && SafeDisk(d, c)
    ensures NoRepeats([], d.journal[d.base..], c)
  {
    hide NoRepeats, CutClean;
  }

  lemma BeginSafe(s: System, upto: nat, c: nat)
    requires SafeInv(s, c) && Enabled(s, Begin(upto))
    ensures SafeInv(Started(s, upto), c)
  {
    BeginInv(s, upto);
    var p := s.process;
    Parted(p.pending, upto);
    SortedQueue(Released(p.pending, upto));
    assert Later(p.pending, p.st.watermark) && Floor(s.disk) <= p.st.watermark;
    hide Inv, SafeDisk, NoRepeats, Receipts, Last, Sort, Released, Retained;
  }

  lemma PassSafe(s: System, a: Action, c: nat)
    requires SafeInv(s, c) && Enabled(s, a) && (a.Skip? || a.Refuse?)
    ensures SafeInv(Passed(s), c)
  {
    hide Inv, SafeDisk, NoRepeats, Receipts, Last, Seen;
    PassInv(s, a);
    var q := s.process.phase.queue;
    forall e | e in q[1..] ensures e in q { }
  }

  lemma AscendingInTime(q: seq<Event>, w: nat)
    requires Ascending(q, EventLess) && q != [] && q[0].at > w
    ensures Later(q, w)
  {
    forall e | e in q ensures e.at > w {
      var k :| 0 <= k < |q| && q[k] == e;
      if k > 0 { assert !EventLess(q[k], q[0]); }
    }
  }

  /** A snapshot taken when everything journaled is at or below the watermark cuts clean. */
  lemma SavedSafe(d: Disk, p: Process, c: nat)
    requires p.Up? && NotAfter(d.journal, p.st.watermark)
    ensures SafeDisk(Saved(d, p), c) && Saved(d, p).journal[Saved(d, p).base..] == []
  {
  }

  lemma SuffixAtMost(journal: seq<Event>, log: seq<Event>, w: nat)
    requires Suffix(journal, log) && NotAfter(log, w)
    ensures NotAfter(journal, w)
  {
  }

  lemma RenameSafe(s: System, c: nat)
    requires SafeInv(s, c) && Enabled(s, Rename) && Guarded(s, Rename, c)
    ensures SafeInv(SavedAs(s, Renamed(s.process.phase.queue)), c)
  {
    hide NoRepeats, Receipts, Last, NotAfter, Suffix, Ascending, CutClean, Increasing, AllLater, Seen, Later, Follows;
    var p, q := s.process, s.process.phase.queue;
    SaveInv(s, Renamed(q));
    AscendingInTime(q, p.st.watermark);
    SuffixAtMost(s.disk.journal, p.log, p.st.watermark);
    SavedSafe(s.disk, p, c);
    hide Inv, SafeDisk;
    NoTail(Lived(p));
  }

  lemma NoTail(life: seq<Event>)
    ensures Suffix([], life)
  {
  }

  lemma NoneLater(w: nat)
    ensures Later([], w)
  {
  }

  lemma SwapSafe(s: System, c: nat)
    requires SafeInv(s, c) && Enabled(s, Swap)
    ensures SafeInv(SavedAs(s, Swapped(s.process.phase.Opening?)), c)
  {
    hide Increasing, Durable, Later, NotAfter, Suffix, NoRepeats, CutClean, Receipts, Last;
    var p := s.process;
    SaveInv(s, Swapped(p.phase.Opening?));
    if p.phase.Idle? { SuffixAtMost(s.disk.journal, p.log, p.st.watermark); }
    SavedSafe(s.disk, p, c);
    hide Inv, SafeDisk;
    NoTail(Lived(p));
    NoneLater(Floor(Saved(s.disk, p)));
  }

  lemma EmptySafe(s: System, phase: Phase, c: nat)
    requires SafeInv(s, c) && s.process.Up?
    requires var p := s.process.phase; (p.Renamed? && phase == Rotated(p.queue)) || (p.Swapped? && phase == Idle)
    ensures SafeInv(EmptiedAs(s, phase), c)
  {
    EmptyInv(s, phase);
    assert SafeDisk(Emptied(s.disk), c);
    hide Inv, SafeDisk, NoRepeats, Receipts, Last;
    NoTail(Lived(s.process));
  }

  lemma TailAppend(d: Disk, life: seq<Event>, e: Event)
    requires d.base <= |d.journal| && Suffix(d.journal[d.base..], life)
    ensures Suffix((d.journal + [e])[d.base..], life + [e])
    ensures (d.journal + [e])[d.base..] == (life + [e])[|life| + d.base - |d.journal|..]
  {
    assert (d.journal + [e])[d.base..] == d.journal[d.base..] + [e];
  }

  lemma CutAppend(d: Disk, e: Event)
    requires d.base <= |d.journal| && CutClean(d) && e.at > Floor(d)
    ensures CutClean(d.(journal := d.journal + [e]))
  {
  }

  lemma AppendSafeParts(d: Disk, cfg: Config, life: seq<Event>, e: Event, c: nat)
    requires d.base <= |d.journal| && SafeDisk(d, c) && Suffix(d.journal[d.base..], life) && e.at > Floor(d)
    requires NoRepeats([], life, c) && !Seen(Last(Receipts(cfg, life), c), e)
    ensures var d' := d.(journal := d.journal + [e]);
      SafeDisk(d', c) && Suffix(d'.journal[d'.base..], life + [e]) && NoRepeats([], life + [e], c)
  {
    SeenRecent(cfg, life, e, c);
    hide Receipts, Last, Seen, Recent;
    NoRepeatsAppend(life, e, c);
    CutAppend(d, e);
    TailAppend(d, life, e);
    NoRepeatsTail(life + [e], |life| + d.base - |d.journal|, c);
    hide NoRepeats, CutClean;
  }

  lemma AppendSafe(s: System, c: nat)
    requires SafeInv(s, c) && Enabled(s, Append) && c > 0
    ensures SafeInv(Appended(s), c)
  {
    hide Inv, Seen, Receipts, Last, NoRepeats, SafeDisk;
    var p, q := s.process, s.process.phase.queue;
    AppendInv(s);
    assert q[0] in q;
    AppendSafeParts(s.disk, p.cfg, p.life, q[0], c);
    hide Later;
  }

  lemma TakeSafe(s: System, st: RuntimeState, c: nat)
    requires SafeInv(s, c) && Enabled(s, Take) && c > 0
    requires st.watermark == Max(s.process.st.watermark, s.process.phase.queue[0].at)
    ensures SafeInv(Taken(s, st), c)
  {
    hide Inv, NoRepeats, Receipts, Last, Pushed, SafeDisk, ReceiptOf, Floor;
    TakeInv(s, st);
    var p, q := s.process, s.process.phase.queue;
    WindowStep(p.cfg, p.life, q[0]);
    assert Later(q[1..], Floor(s.disk)) by {
      forall e | e in q[1..] ensures e in q { }
    }
    hide Later;
  }

  lemma StageSafe(s: System, e: Event, c: nat)
    requires SafeInv(s, c) && Enabled(s, Action.Stage(e))
    ensures SafeInv(s.(process := s.process.(pending := s.process.pending + [e])), c)
  {
    StageInv(s, e);
    hide Inv, NoRepeats, Receipts, Last, SafeDisk;
  }

  lemma IdleSafe(s: System, st: RuntimeState, c: nat)
    requires SafeInv(s, c) && s.process.Up? && (s.process.phase == Ready([]) || s.process.phase == Swapped(false))
    requires st.watermark == s.process.st.watermark
    ensures SafeInv(s.(process := s.process.(st := st, phase := Idle)), c)
  {
    hide NoRepeats, Receipts, Last, SafeDisk, Later, NotAfter;
    IdleInv(s, st);
    hide Inv;
    NoneLater(Floor(s.disk));
  }

  lemma CrashSafe(s: System, c: nat)
    requires SafeInv(s, c) && s.process.Up?
    ensures SafeInv(Crashed(s), c)
  {
    CrashInv(s);
    hide Inv, SafeUp, SafeDisk;
  }

  lemma OpenSafe(s: System, cfg: Config, c: nat)
    requires SafeInv(s, c) && Enabled(s, Action.Open(cfg)) && c > 0 && cfg.bounds.maxWindow == c
    ensures SafeInv(s.(process := Recovered(cfg, s.disk)), c)
  {
    hide SafeInv, Apply;
    if Fresh(s.disk) {
      FreshSafe(s, cfg, c);
    } else {
      RecoveredWatermark(cfg, s.disk, Replayable(cfg, s.disk));
      hide ReplayAll, Restart;
      ResumeSafe(s, cfg, Restart(cfg, ReplayAll(cfg, BaseState(cfg, s.disk), Replayable(cfg, s.disk))), c);
    }
  }

  lemma FreshSafe(s: System, cfg: Config, c: nat)
    requires SafeInv(s, c) && Fresh(s.disk) && c > 0 && cfg.bounds.maxWindow == c
    ensures SafeInv(s.(process := Begun(cfg)), c)
  {
    FreshInv(s, cfg);
    hide Inv;
  }

  lemma ActSafe(s: System, a: Action, c: nat)
    requires SafeInv(s, c) && Guarded(s, a, c) && c > 0
    ensures SafeInv(Act(s, a), c)
  {
    hide SafeInv, Recovered, Commit, RefreshHealth, Started, Passed, Appended, Taken, SavedAs, EmptiedAs, Crashed, Wrecked;
    if Enabled(s, a) {
      match a
      case Open(cfg) =>
        OpenSafe(s, cfg, c);
        TopFreeSafe(s.(process := Recovered(cfg, s.disk)), Max(s.top, cfg.boot), c);
      case Begin(upto) => BeginSafe(s, upto, c);
      case Skip => PassSafe(s, a, c);
      case Refuse => PassSafe(s, a, c);
      case Rename => RenameSafe(s, c);
      case Swap => SwapSafe(s, c);
      case Truncate => EmptySafe(s, Rotated(s.process.phase.queue), c);
      case SwapDone => EmptySafe(s, Idle, c);
      case Append => AppendSafe(s, c);
      case Take =>
        CommitWatermark(s.process.cfg, s.process.st, s.process.phase.queue[0]);
        TakeSafe(s, Commit(s.process.cfg, s.process.st, s.process.phase.queue[0]), c);
      case Stage(e) => StageSafe(s, e, c);
      case Finish =>
        RefreshWatermark(s.process.st);
        IdleSafe(s, RefreshHealth(s.process.st), c);
      case SwapFailed => IdleSafe(s, s.process.st, c);
      case Crash => CrashSafe(s, c);
      case Reject(cfg, saves, empties) => RejectSafe(s, a, c);
    }
  }

  /** On a store without events, a refused opening leaves one without events. */
  lemma RejectSafe(s: System, a: Action, c: nat)
    requires SafeInv(s, c) && a.Reject? && Enabled(s, a) && Guarded(s, a, c)
    ensures SafeInv(Act(s, a), c)
  {
    hide NoRepeats, Barred, Readable, ReplayAll, Init, Inv;
    var d, e := s.disk, Wrecked(a.cfg, s.disk, a.saves, a.empties);
    RejectInv(s, a.cfg, a.saves, a.empties);
    TopFree(s.(disk := e), Max(s.top, a.cfg.boot));
    if a.saves { EmptyStays(a.cfg, d, a.empties, c); }
    hide Wrecked, SafeDisk;
  }

  lemma EmptyStays(cfg: Config, d: Disk, empties: bool, c: nat)
    requires SavedLog(d) == [] && d.journal == [] && d.base == 0
    ensures var e := Wrecked(cfg, d, true, empties);
      SavedLog(e) == [] && e.journal == [] && e.base == 0 && SafeDisk(e, c)
  {
    hide Barred, ReplayAll, Init;
    assert Salvaged(cfg, d) == [];
  }

  lemma TopFreeSafe(s: System, top: nat, c: nat)
    ensures SafeInv(s.(top := top), c) <==> SafeInv(s, c)
  {
    TopFree(s, top);
    hide Inv, SafeDisk, SafeUp;
  }

  /** Safe for the window of the running process, which is no smaller than `c`. */
  ghost predicate SafeFor(s: System, c: nat) {
    if s.process.Up? then c <= s.process.cfg.bounds.maxWindow && SafeInv(s, s.process.cfg.bounds.maxWindow) else SafeInv(s, c)
  }

  lemma {:induction false} NoRepeatsNarrower(p: seq<Event>, es: seq<Event>, w: nat, c: nat)
    requires NoRepeats(p, es, w) && c <= w
    ensures NoRepeats(p, es, c)
    decreases |es|
  {
    if es != [] { NoRepeatsNarrower(p + [es[0]], es[1..], w, c); }
  }

  lemma DiskNarrower(d: Disk, w: nat, c: nat)
    requires d.base <= |d.journal| && SafeDisk(d, w) && c <= w
    ensures SafeDisk(d, c)
  {
    hide CutClean, NoRepeats;
    NoRepeatsNarrower([], d.journal[d.base..], w, c);
  }

  lemma SafeNarrower(s: System, w: nat, c: nat)
    requires SafeFor(s, w) && c <= w
    ensures SafeFor(s, c)
  {
    hide Inv, SafeDisk, SafeUp;
    if s.process.Down? { DiskNarrower(s.disk, w, c); }
  }

  lemma StepSafe(s: System, a: Action, c: nat)
    requires SafeFor(s, c) && Guarded(s, a, c) && c > 0
    ensures SafeFor(Act(s, a), c)
  {
    hide SafeInv, Act;
    if s.process.Down? {
      ActSafe(s, a, c);
      WindowKept(Act(s, a), c);
    } else if a.Open? {
      NotTwice(s, a.cfg);
    } else {
      var w := s.process.cfg.bounds.maxWindow;
      ActSafe(s, a, w);
      WindowKept(Act(s, a), w);
      SafeNarrower(Act(s, a), w, c);
    }
  }

  lemma WindowKept(s: System, c: nat)
    requires SafeInv(s, c)
    ensures SafeFor(s, c)
  {
    hide Inv, SafeDisk, NoRepeats, Receipts, Last, Later, Suffix, NotAfter, Durable;
  }

  lemma NotTwice(s: System, cfg: Config)
    requires s.process.Up?
    ensures Act(s, Action.Open(cfg)) == s
  {
    hide Effect;
  }

  lemma {:induction false} RunSafe(acts: seq<Action>, c: nat)
    requires GuardedRun(acts, c) && c > 0
    ensures SafeFor(Exec(acts), c)
    decreases |acts|
  {
    hide SafeInv, SafeFor, Act, Guarded;
    if acts == [] {
      StartSafe(c);
      WindowKept(START, c);
    } else {
      var n := |acts| - 1;
      var w := WindowAt(acts[n], c);
      RunSafe(acts[..n], w);
      StepSafe(Exec(acts[..n]), acts[n], w);
      SafeNarrower(Exec(acts), w, c);
    }
  }

  lemma StartSafe(c: nat)
    ensures SafeInv(START, c)
  {
    StartInv();
  }

  /** In a guarded run nothing committed is ever taken back. */
  lemma ActGrows(s: System, a: Action, c: nat)
    requires SafeInv(s, c) && Guarded(s, a, c) && c > 0
    ensures Inv(Act(s, a)) && s.disk.base <= |s.disk.journal| && Act(s, a).disk.base <= |Act(s, a).disk.journal|
    ensures Durable(s.disk) <= Durable(Act(s, a).disk)
  {
    hide Commit, RefreshHealth, Recovered, Started, Passed, Taken, Crashed, Inv, SafeInv, Durable, Wrecked;
    SafeInvIs(s, c);
    ActInv(s, a);
    InvBase(s);
    InvBase(Act(s, a));
    if Enabled(s, a) {
      match a
      case Append => AppendGrows(s.disk, s.process.phase.queue[0]);
      case Rename => LogIs(s, c); SavedDurable(s.disk, s.process);
      case Swap => LogIs(s, c); SavedDurable(s.disk, s.process);
      case Truncate => CutAtEnd(s); EmptiedDurable(s.disk);
      case SwapDone => CutAtEnd(s); EmptiedDurable(s.disk);
      case Reject(_, _, _) => RejectGrows(s, a, c);
      case _ => OtherDisk(s, a);
    }
  }

  lemma StepGrows(s: System, a: Action, c: nat)
    requires SafeFor(s, c) && Guarded(s, a, c) && c > 0
    ensures Inv(Act(s, a)) && s.disk.base <= |s.disk.journal| && Act(s, a).disk.base <= |Act(s, a).disk.journal|
    ensures Durable(s.disk) <= Durable(Act(s, a).disk)
  {
    hide SafeInv, Act, Inv, Durable;
    if s.process.Up? && a.Open? {
      NotTwice(s, a.cfg);
      SafeInvIs(s, s.process.cfg.bounds.maxWindow);
      InvBase(s);
    } else {
      ActGrows(s, a, if s.process.Up? then s.process.cfg.bounds.maxWindow else c);
    }
  }

  lemma SafeInvIs(s: System, c: nat)
    requires SafeInv(s, c)
    ensures Inv(s)
  {
    hide Inv, SafeDisk, SafeUp;
  }

  lemma OtherDisk(s: System, a: Action)
    requires Enabled(s, a)
    requires !a.Append? && !a.Rename? && !a.Swap? && !a.Truncate? && !a.SwapDone? && !a.Reject?
    ensures Effect(s, a).disk == s.disk
  {
    hide Commit, RefreshHealth, Recovered, Tokens, Sort, Released, Retained, Pushed, ReceiptOf;
  }

  lemma AppendGrows(d: Disk, e: Event)
    requires d.base <= |d.journal|
    ensures Durable(d) <= Durable(d.(journal := d.journal + [e]))
  {
    assert (d.journal + [e])[d.base..] == d.journal[d.base..] + [e];
  }

  lemma LogIs(s: System, c: nat)
    requires SafeInv(s, c) && s.process.Up?
    ensures s.disk.base <= |s.disk.journal| && s.process.log == Durable(s.disk)
  {
    hide PhaseOk, Increasing, NotAfter, Later, Suffix, NoRepeats, Receipts, Last, CutClean, Durable;
  }

  lemma CutAtEnd(s: System)
    requires Inv(s) && s.process.Up? && (s.process.phase.Renamed? || s.process.phase.Swapped?)
    ensures s.disk.base == |s.disk.journal|
  {
    hide Increasing, NotAfter, Later, Suffix, QueueOk, AllLater, Durable;
  }

  lemma RejectGrows(s: System, a: Action, c: nat)
    requires SafeInv(s, c) && a.Reject? && Guarded(s, a, c)
    ensures var d := Wrecked(a.cfg, s.disk, a.saves, a.empties);
      s.disk.base <= |s.disk.journal| && (d.base <= |d.journal| ==> Durable(s.disk) <= Durable(d))
  {
    hide Inv, Wrecked, NoRepeats;
    assert a.saves ==> Durable(s.disk) == [];
    assert Wrecked(a.cfg, s.disk, false, a.empties) == s.disk by { NotSaved(a.cfg, s.disk, a.empties); }
  }

  lemma SavedDurable(d: Disk, p: Process)
    requires p.Up?
    ensures Durable(Saved(d, p)) == p.log
  {
  }

  lemma {:induction false} GuardedGrows(acts: seq<Action>, more: seq<Action>, c: nat)
    requires GuardedRun(acts + more, c) && c > 0
    ensures GuardedRun(acts, c)
    ensures Inv(Exec(acts)) && Inv(Exec(acts + more)) && Durable(Exec(acts).disk) <= Durable(Exec(acts + more).disk)
    decreases |more|
  {
    hide Act, Guarded, Durable, Inv, SafeInv;
    RunInv(acts);
    if more == [] {
      assert acts + more == acts;
      hide Exec;
      InvBase(Exec(acts));
    } else {
      var n := |more| - 1;
      var mid := acts + more[..n];
      assert (acts + more)[..|acts + more| - 1] == mid && (acts + more)[|acts + more| - 1] == more[n];
      var w := WindowAt(more[n], c);
      GuardedGrows(acts, more[..n], w);
      GuardedNarrower(acts, w, c);
      RunSafe(mid, w);
      StepGrows(Exec(mid), more[n], w);
      InvBase(Exec(acts));
      InvBase(Exec(mid));
      InvBase(Act(Exec(mid), more[n]));
    }
  }

  lemma InvBase(s: System)
    requires Inv(s)
    ensures s.disk.base <= |s.disk.journal|
  {
    hide UpOk;
  }

  /** In a guarded run, what is committed at some point is part of what reopening brings
      back at any later point, and reopening brings back nothing else. */
  lemma GuardedRunsLoseNothing(acts: seq<Action>, more: seq<Action>, cfg: Config)
    requires GuardedRun(acts + more, cfg.bounds.maxWindow) && cfg.bounds.maxWindow > 0
    ensures var was, d := Exec(acts).disk, Exec(acts + more).disk;
      && was.base <= |was.journal| && d.base <= |d.journal|
      && Durable(was) <= Durable(d) && SavedLog(d) + Replayable(cfg, d) == Durable(d)
  {
    hide Act, GuardedRun, Durable, Replayable, Guarded;
    GuardedGrows(acts, more, cfg.bounds.maxWindow);
    InvBase(Exec(acts));
    InvBase(Exec(acts + more));
    RunSafe(acts + more, cfg.bounds.maxWindow);
    hide Exec, UpOk, SafeUp;
    SafeOnDisk(Exec(acts + more), cfg.bounds.maxWindow);
    RecoveryLosesNothingExactly(cfg, Exec(acts + more).disk);
  }

  lemma SafeOnDisk(s: System, c: nat)
    requires SafeFor(s, c)
    ensures Inv(s) && s.disk.base <= |s.disk.journal| && SafeDisk(s.disk, c)
  {
    hide Inv, SafeDisk, SafeUp;
    if s.process.Up? { DiskNarrower(s.disk, s.process.cfg.bounds.maxWindow, c); }
  }

  // ---------------------------------------------------------------------
  // Runs without the guard.
  // ---------------------------------------------------------------------

  /** An event journaled right after a forced rotation, at the watermark the rotation
      saved, is committed but never comes back. */
  lemma UnguardedRotationLoses(s: System, cfg: Config)
    requires Inv(s) && s.process.Up? && s.process.phase.Rotated? && HasQueue(s.process)
    requires s.process.phase.queue[0].at <= s.process.st.watermark
    ensures var e := s.process.phase.queue[0];
      var d := Crashed(Appended(s)).disk;
      && d.base <= |d.journal| && e in Durable(d) && e !in SavedLog(d) + Replayable(cfg, d)
  {
    hide QueueOk, AllLater, Seen, Increasing, Suffix, Later, NotAfter;
    var e, was := s.process.phase.queue[0], s.disk;
    var d := Crashed(Appended(s)).disk;
    assert d == was.(journal := was.journal + [e]) && Floor(d) == s.process.st.watermark;
    AppendInv(s);
    assert DiskOk(d);
    hide Inv, DiskOk;
    LastIsNew(d, e);
    DueExact(d.journal, Floor(d));
    HeldWithin(cfg, [], Due(d.journal, Floor(d)));
    hide Due, Held;
  }

  lemma LastIsNew(d: Disk, e: Event)
    requires DiskOk(d) && d.base < |d.journal| && d.journal[|d.journal| - 1] == e
    ensures e in Durable(d) && e !in SavedLog(d)
  {
    var all, saved := Durable(d), SavedLog(d);
    assert all[|all| - 1] == e;
    forall k | 0 <= k < |saved| ensures saved[k] != e {
      assert Before(all[k], all[|all| - 1]) && !Before(e, e);
    }
  }

  /** Two events of one instant, the journal filling up between them. */
  function LossyRun(cfg: Config, a: Event, b: Event): seq<Action> {
    [Action.Open(cfg), Action.Stage(a), Action.Stage(b), Begin(a.at), Append, Take, Rename, Truncate, Append, Crash]
  }

  lemma ExecSnoc(acts: seq<Action>, a: Action)
    ensures Exec(acts + [a]) == Act(Exec(acts), a)
  {
    hide Act;
    assert (acts + [a])[..|acts|] == acts;
  }

  /** Any two such events make a run that loses the second. */
  lemma LossIsReachable(cfg: Config, a: Event, b: Event)
    requires Opens(cfg, START.disk) && cfg.bounds.maxBatchEvents >= 2
    requires Complete(a) && Complete(b) && Sealed(cfg, a) && Sealed(cfg, b) && a.at == b.at > 0 && Before(a, b)
    ensures var d := Exec(LossyRun(cfg, a, b)).disk;
      d.base <= |d.journal| && Durable(d) == [a, b] && SavedLog(d) + Replayable(cfg, d) == [a]
  {
    hide Act, Durable, Replayable;
    var s3 := StagedTwo(cfg, a, b);
    var s6 := TakenOne(cfg, a, b, s3);
    var s := LostOne(cfg, a, b, s6);
    LossyRunIs(cfg, a, b);
    hide Exec;
    LostTail(cfg, a, b, s.disk);
  }

  lemma LossyRunIs(cfg: Config, a: Event, b: Event)
    ensures var s3 := Act(Act(Act(START, Action.Open(cfg)), Action.Stage(a)), Action.Stage(b));
      var s6 := Act(Act(Act(s3, Begin(a.at)), Append), Take);
      Exec(LossyRun(cfg, a, b)) == Act(Act(Act(Act(s6, Rename), Truncate), Append), Crash)
  {
    hide Act;
    var run := LossyRun(cfg, a, b);
    ExecPrefix(run, 0, 1);
    ExecPrefix(run, 1, 2);
    ExecPrefix(run, 2, 3);
    ExecPrefix(run, 3, 4);
    ExecPrefix(run, 4, 5);
    ExecPrefix(run, 5, 6);
    ExecPrefix(run, 6, 7);
    ExecPrefix(run, 7, 8);
    ExecPrefix(run, 8, 9);
    ExecPrefix(run, 9, 10);
    hide Exec;
    assert run[..10] == run && run[..0] == [];
    ExecNone();
    assert Exec(run[..3]) == Act(Act(Act(START, Action.Open(cfg)), Action.Stage(a)), Action.Stage(b));
    assert Exec(run[..6]) == Act(Act(Act(Exec(run[..3]), Begin(a.at)), Append), Take);
  }

  lemma ExecPrefix(run: seq<Action>, k: nat, n: nat)
    requires n == k + 1 <= |run|
    ensures Exec(run[..n]) == Act(Exec(run[..k]), run[k])
  {
    hide Act;
    assert run[..n] == run[..k] + [run[k]];
    ExecSnoc(run[..k], run[k]);
  }

  lemma ExecNone()
    ensures Exec([]) == START
  {
    hide Act;
  }

  lemma StagedTwo(cfg: Config, a: Event, b: Event) returns (s: System)
    requires Opens(cfg, START.disk) && cfg.bounds.maxBatchEvents >= 2
    requires Complete(a) && Complete(b) && Sealed(cfg, a) && Sealed(cfg, b) && a.at == b.at > 0 && Before(a, b)
    ensures s == Act(Act(Act(START, Action.Open(cfg)), Action.Stage(a)), Action.Stage(b))
    ensures s == System(START.disk, Up(cfg, Init(cfg), [a, b], [], Idle, [], []), {}, cfg.boot)
  {
    hide Resumed, ReplayAll, Commit, RefreshHealth;
    assert [] + [a] == [a] && [a] + [b] == [a, b];
    s := START.(process := Begun(cfg), top := cfg.boot);
    assert Act(START, Action.Open(cfg)) == s;
    var s1 := s.(process := s.process.(pending := [a]));
    assert Act(s, Action.Stage(a)) == s1;
    s := s1.(process := s.process.(pending := [a, b]));
    assert Act(s1, Action.Stage(b)) == s;
  }

  lemma QueuedTwo(cfg: Config, a: Event, b: Event, s: System) returns (t: System)
    requires s == System(START.disk, Up(cfg, Init(cfg), [a, b], [], Idle, [], []), {}, cfg.boot)
    requires a.at == b.at && Before(a, b)
    ensures t == Act(s, Begin(a.at)) && t == s.(process := s.process.(pending := [], phase := Ready([a, b])))
  {
    SortedPair(a, b);
    Released2(a, b);
    hide Commit, RefreshHealth, Recovered, Sort, Released, Retained, Init;
    t := s.(process := s.process.(pending := [], phase := Ready([a, b])));
  }

  lemma LoggedOne(cfg: Config, a: Event, b: Event, s: System) returns (t: System)
    requires s == System(START.disk, Up(cfg, Init(cfg), [], [], Ready([a, b]), [], []), {}, cfg.boot)
    ensures t == Act(s, Append) && t == Appended(s)
  {
    hide Commit, RefreshHealth, Recovered, Appended, Init;
    t := Appended(s);
    assert !Seen([], a);
  }

  lemma TakenOne(cfg: Config, a: Event, b: Event, s: System) returns (t: System)
    requires s == System(START.disk, Up(cfg, Init(cfg), [a, b], [], Idle, [], []), {}, cfg.boot)
    requires a.at == b.at > 0 && Before(a, b) && cfg.bounds.maxWindow > 0
    ensures t == Act(Act(Act(s, Begin(a.at)), Append), Take)
    ensures t.process.Up? && t.process.phase == Ready([b]) && t.process.log == [a] && t.process.st.watermark == a.at
    ensures t.disk == Disk(None, [a], 0) && t.process.cfg == cfg && t.process.window == [ReceiptOf(cfg, a)]
  {
    hide Act;
    var s1 := QueuedTwo(cfg, a, b, s);
    var s2 := LoggedOne(cfg, a, b, s1);
    assert [] + [a] == [a] && [a, b][1..] == [b];
    var st := Init(cfg).(journaled := 1);
    CommitWatermark(cfg, st, a);
    hide Commit;
    t := Taken(s2, Commit(cfg, st, a));
    TakeIs(s2);
    assert Pushed([], cfg.bounds.maxWindow, ReceiptOf(cfg, a)) == [ReceiptOf(cfg, a)];
  }

  lemma TakeIs(s: System)
    requires Enabled(s, Take)
    ensures HasQueue(s.process) && Act(s, Take) == Taken(s, Commit(s.process.cfg, s.process.st, s.process.phase.queue[0]))
  {
    hide Commit, RefreshHealth, Recovered, Taken;
  }

  lemma Released2(a: Event, b: Event)
    requires a.at == b.at
    ensures Released([a, b], a.at) == [a, b] && Retained([a, b], a.at) == []
  {
    assert [a, b][..1] == [a] && [a][..0] == [];
    assert Released([a], a.at) == [a] && Retained([a], a.at) == [];
  }

  lemma SortedPair(a: Event, b: Event)
    requires Before(a, b)
    ensures Sort([a, b], EventLess) == [a, b]
  {
    hide Sort;
    LessTotal(a.origin, b.origin);
    SortTwo(a, b, EventLess);
  }

  lemma LostOne(cfg: Config, a: Event, b: Event, s: System) returns (t: System)
    requires s.process.Up? && s.process.phase == Ready([b]) && s.process.log == [a] && s.process.st.watermark == a.at
    requires s.disk == Disk(None, [a], 0) && s.process.cfg == cfg && s.process.window == [ReceiptOf(cfg, a)]
    requires a.at == b.at && Before(a, b)
    ensures t == Act(Act(Act(Act(s, Rename), Truncate), Append), Crash)
    ensures t.disk.journal == [b] && t.disk.base == 0 && SavedLog(t.disk) == [a] && Floor(t.disk) == a.at
  {
    hide Act, Commit, RefreshHealth, Recovered;
    assert !Seen(s.process.window, b);
    hide Seen;
    var s2 := EmptiedAs(SavedAs(s, Renamed([b])), Rotated([b]));
    RotatedNow(s, b);
    AppendedThenGone(s2, b);
    t := Crashed(Appended(s2));
  }

  lemma RotatedNow(s: System, b: Event)
    requires s.process.Up? && s.process.phase == Ready([b]) && !Seen(s.process.window, b)
    ensures Act(Act(s, Rename), Truncate) == EmptiedAs(SavedAs(s, Renamed([b])), Rotated([b]))
  {
    hide Commit, RefreshHealth, Recovered, Seen, Wrecked;
    assert Act(s, Rename) == SavedAs(s, Renamed([b]));
  }

  lemma AppendedThenGone(s: System, b: Event)
    requires s.process.Up? && s.process.phase == Rotated([b]) && !Seen(s.process.window, b)
    ensures Act(Act(s, Append), Crash) == Crashed(Appended(s))
  {
    hide Commit, RefreshHealth, Recovered, Seen, Wrecked, Tokens;
    assert Act(s, Append) == Appended(s);
  }

  lemma LostTail(cfg: Config, a: Event, b: Event, d: Disk)
    requires d.journal == [b] && d.base == 0 && SavedLog(d) == [a] && Floor(d) == a.at && b.at == a.at
    ensures Durable(d) == [a, b] && SavedLog(d) + Replayable(cfg, d) == [a]
  {
    assert d.journal[1..] == [];
    assert Due([], a.at) == [];
    assert Due(d.journal, a.at) == [];
    assert [a] + [b] == [a, b];
  }
}
