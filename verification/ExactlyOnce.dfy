/** Every run commits each event at most once and in release order, through any
    number of rotations, crashes and recoveries. */
module ExactlyOnce {
  import opened Base
  import opened Order
  import opened Model
  import opened Reducers
  import opened Runs
  import opened Replay
  import opened Delivery
  import opened Protocol

  ghost predicate NotAfter(es: seq<Event>, w: nat) { forall e :: e in es ==> e.at <= w }

  ghost predicate Later(es: seq<Event>, w: nat) { forall e :: e in es ==> e.at > w }

  // ---------------------------------------------------------------------
  // The invariant.
  // ---------------------------------------------------------------------

  ghost predicate DiskOk(d: Disk) {
    && d.base <= |d.journal| && Increasing(d.journal)
    && Increasing(Durable(d)) && NotAfter(SavedLog(d), Floor(d))
  }

  /** A queued event comes after the log, or repeats its last event and is still
      remembered by the window. */
  ghost predicate Follows(log: seq<Event>, window: seq<Receipt>, x: Event) {
    log != [] ==>
      var last := log[|log| - 1];
      Before(last, x) || (last.at == x.at && SameSource(last, x) && Seen(window, x))
  }

  ghost predicate QueueOk(log: seq<Event>, window: seq<Receipt>, queue: seq<Event>) {
    Ascending(queue, EventLess) && forall x :: x in queue ==> Follows(log, window, x)
  }

  ghost predicate AllLater(pending: seq<Event>, queue: seq<Event>) {
    forall p, x :: p in pending && x in queue ==> p.at > x.at
  }

  ghost predicate Suffix(journal: seq<Event>, log: seq<Event>) {
    |journal| <= |log| && forall k {:trigger journal[k]} :: 0 <= k < |journal| ==> journal[k] == log[|log| - |journal| + k]
  }

  ghost predicate PhaseOk(d: Disk, p: Process)
    requires p.Up?
  {
    match p.phase
    case Idle => NotAfter(p.log, p.st.watermark)
    case Opening => NotAfter(p.log, p.st.watermark)
    case Swapped(_) => NotAfter(p.log, p.st.watermark) && d.base == |d.journal| && Floor(d) == p.st.watermark
    case Ready(q) => NotAfter(p.log, p.st.watermark) && QueueOk(p.log, p.window, q) && AllLater(p.pending, q)
    case Renamed(q) =>
      && NotAfter(p.log, p.st.watermark) && QueueOk(p.log, p.window, q) && AllLater(p.pending, q)
      && d.base == |d.journal| && q != [] && !Seen(p.window, q[0]) && Floor(d) == p.st.watermark
    case Rotated(q) =>
      && NotAfter(p.log, p.st.watermark) && QueueOk(p.log, p.window, q) && AllLater(p.pending, q)
      && q != [] && !Seen(p.window, q[0]) && Floor(d) == p.st.watermark
    case Logged(q) =>
      && q != [] && p.log != [] && p.log[|p.log| - 1] == q[0] && NotAfter(p.log[..|p.log| - 1], p.st.watermark)
      && Ascending(q, EventLess) && AllLater(p.pending, q)
  }

  ghost predicate UpOk(d: Disk, p: Process)
    requires d.base <= |d.journal| && p.Up?
  {
    && p.cfg.bounds.maxWindow > 0
    && Increasing(p.log) && Floor(d) <= p.st.watermark && Later(p.pending, p.st.watermark)
    && (!p.phase.Opening? ==> p.log == Durable(d))
    && (Serves(p.phase) ==> Suffix(d.journal, p.log))
    && PhaseOk(d, p)
  }

  ghost predicate Inv(s: System) { DiskOk(s.disk) && (s.process.Up? ==> UpOk(s.disk, s.process)) }

  // ---------------------------------------------------------------------
  // Recovery.
  // ---------------------------------------------------------------------

  lemma {:induction false} DueExact(journal: seq<Event>, floor: nat)
    ensures forall e :: e in Due(journal, floor) <==> e in journal && e.at > floor
    ensures Increasing(journal) ==> Increasing(Due(journal, floor))
  {
    if journal != [] {
      var rest := Due(journal[1..], floor);
      DueExact(journal[1..], floor);
      assert journal == [journal[0]] + journal[1..];
      assert Increasing(journal) ==> Increasing(journal[1..]);
      if Increasing(journal) {
        forall e | e in rest ensures Before(journal[0], e) {
          var k :| 0 <= k < |journal[1..]| && journal[1..][k] == e;
          assert journal[k + 1] == e;
        }
        IncreasingCons(journal[0], rest);
      }
    }
  }

  lemma IncreasingCons(x: Event, es: seq<Event>)
    requires Increasing(es) && forall e :: e in es ==> Before(x, e)
    ensures Increasing([x] + es)
  {
  }

  lemma {:induction false} HeldWithin(cfg: Config, window: seq<Receipt>, es: seq<Event>)
    ensures forall e :: e in Held(cfg, window, es) ==> e in es
    ensures Increasing(es) ==> Increasing(Held(cfg, window, es))
    decreases |es|
  {
    if es != [] {
      assert es == [es[0]] + es[1..];
      assert Increasing(es) ==> Increasing(es[1..]);
      if Seen(window, es[0]) {
        HeldWithin(cfg, window, es[1..]);
      } else {
        var w := Pushed(window, cfg.bounds.maxWindow, ReceiptOf(cfg, es[0]));
        HeldWithin(cfg, w, es[1..]);
        if Increasing(es) {
          forall e | e in Held(cfg, w, es[1..]) ensures Before(es[0], e) {
            var k :| 0 <= k < |es[1..]| && es[1..][k] == e;
            assert es[k + 1] == e;
          }
          IncreasingCons(es[0], Held(cfg, w, es[1..]));
        }
      }
    }
  }

  lemma IncreasingJoin(a: seq<Event>, b: seq<Event>, w: nat)
    requires Increasing(a) && Increasing(b) && NotAfter(a, w) && Later(b, w)
    ensures Increasing(a + b)
  {
    var c := a + b;
    forall i, j | 0 <= i < j < |c| ensures Before(c[i], c[j]) {
      if i < |a| && j >= |a| { assert a[i] in a && b[j - |a|] in b; }
    }
  }

  lemma {:induction false} LatestBounds(es: seq<Event>, from: nat)
    ensures Latest(es, from) >= from && NotAfter(es, Latest(es, from))
  {
    if es != [] {
      LatestBounds(es[..|es| - 1], from);
      assert es == es[..|es| - 1] + [es[|es| - 1]];
    }
  }

  lemma SavedIncreasing(d: Disk)
    requires DiskOk(d)
    ensures Increasing(SavedLog(d))
  {
    var a, all := SavedLog(d), Durable(d);
    forall i, j | 0 <= i < j < |a| ensures Before(a[i], a[j]) { assert all[i] == a[i] && all[j] == a[j]; }
  }

  lemma ReplayableOk(cfg: Config, d: Disk)
    requires DiskOk(d)
    ensures Increasing(Replayable(cfg, d)) && Later(Replayable(cfg, d), Floor(d))
  {
    DueExact(d.journal, Floor(d));
    HeldWithin(cfg, [], Due(d.journal, Floor(d)));
    hide Due, Held, Increasing;
  }

  /** The watermark of a recovered state. */
  lemma RecoveredWatermark(cfg: Config, d: Disk, es: seq<Event>)
    ensures Restart(cfg, ReplayAll(cfg, BaseState(cfg, d), es)).watermark == Latest(es, Floor(d))
  {
    ReplayClock(cfg, BaseState(cfg, d), es);
    hide ReplayAll;
  }

  lemma ResumeInv(s: System, cfg: Config, st: RuntimeState)
    requires Inv(s) && s.process.Down? && cfg.bounds.maxWindow > 0
    requires st.watermark == Latest(Replayable(cfg, s.disk), Floor(s.disk))
    ensures Inv(s.(process := Resumed(cfg, s.disk, st)))
  {
    var d, es := s.disk, Replayable(cfg, s.disk);
    ReplayableOk(cfg, d);
    SavedIncreasing(d);
    LatestBounds(es, Floor(d));
    IncreasingJoin(SavedLog(d), es, Floor(d));
    hide Latest, Increasing, Replayable, Durable, WindowAfter;
    assert NotAfter(SavedLog(d) + es, Latest(es, Floor(d)));
  }

  lemma OpenInv(s: System, cfg: Config)
    requires Inv(s) && Enabled(s, Action.Open(cfg))
    ensures Inv(s.(process := Recovered(cfg, s.disk)))
  {
    hide Inv, Apply;
    if Fresh(s.disk) {
      FreshInv(s, cfg);
    } else {
      RecoveredWatermark(cfg, s.disk, Replayable(cfg, s.disk));
      hide ReplayAll, Restart;
      ResumeInv(s, cfg, Restart(cfg, ReplayAll(cfg, BaseState(cfg, s.disk), Replayable(cfg, s.disk))));
    }
  }

  lemma FreshInv(s: System, cfg: Config)
    requires Inv(s) && Fresh(s.disk) && cfg.bounds.maxWindow > 0
    ensures Inv(s.(process := Begun(cfg)))
  {
  }

  // ---------------------------------------------------------------------
  // Staging and starting a release.
  // ---------------------------------------------------------------------

  lemma {:induction false} Parted(pending: seq<Event>, upto: nat)
    ensures forall e :: e in Released(pending, upto) <==> e in pending && e.at <= upto
    ensures forall e :: e in Retained(pending, upto) <==> e in pending && e.at > upto
  {
    if pending != [] {
      var n := |pending| - 1;
      Parted(pending[..n], upto);
      assert pending == pending[..n] + [pending[n]];
    }
  }

  lemma SortedQueue(es: seq<Event>)
    ensures Ascending(Sort(es, EventLess), EventLess)
    ensures forall e :: e in Sort(es, EventLess) <==> e in es
  {
    EventStrictWeak();
    SortAscends(es, EventLess);
    SortKeeps(es, EventLess);
    forall e ensures e in Sort(es, EventLess) <==> e in es {
      assert e in multiset(Sort(es, EventLess)) <==> e in multiset(es);
    }
  }

  lemma BeginParts(log: seq<Event>, window: seq<Receipt>, pending: seq<Event>, w: nat, upto: nat)
    requires NotAfter(log, w) && Later(pending, w)
    ensures var queue := Sort(Released(pending, upto), EventLess);
      && QueueOk(log, window, queue) && AllLater(Retained(pending, upto), queue) && Later(Retained(pending, upto), w)
  {
    var queue := Sort(Released(pending, upto), EventLess);
    Parted(pending, upto);
    SortedQueue(Released(pending, upto));
    hide Sort, Released, Retained, Ascending, Seen;
    forall x | x in queue ensures Follows(log, window, x) {
      if log != [] { assert log[|log| - 1] in log; }
    }
  }

  lemma BeginInv(s: System, upto: nat)
    requires Inv(s) && Enabled(s, Begin(upto))
    ensures Inv(Started(s, upto))
  {
    hide NotAfter, Later, QueueOk, AllLater, Sort, Released, Retained, Increasing, Durable, Suffix;
    var p := s.process;
    BeginParts(p.log, p.window, p.pending, p.st.watermark, upto);
  }

  // ---------------------------------------------------------------------
  // Releasing.
  // ---------------------------------------------------------------------

  lemma QueueTail(log: seq<Event>, window: seq<Receipt>, q: seq<Event>, pending: seq<Event>)
    requires QueueOk(log, window, q) && AllLater(pending, q) && q != []
    ensures QueueOk(log, window, q[1..]) && AllLater(pending, q[1..])
  {
    hide Follows;
  }

  lemma PassInv(s: System, a: Action)
    requires Inv(s) && Enabled(s, a) && (a.Skip? || a.Refuse?)
    ensures Inv(Passed(s))
  {
    var p := s.process;
    QueueTail(p.log, p.window, p.phase.queue, p.pending);
    hide QueueOk, AllLater, Increasing, Durable, Suffix;
  }

  lemma AppendParts(d: Disk, log: seq<Event>, window: seq<Receipt>, q: seq<Event>)
    requires d.base <= |d.journal| && log == Durable(d) && Suffix(d.journal, log) && Increasing(log)
    requires QueueOk(log, window, q) && q != [] && !Seen(window, q[0])
    ensures var d' := d.(journal := d.journal + [q[0]]);
      && Durable(d') == log + [q[0]] && Increasing(log + [q[0]]) && Suffix(d'.journal, log + [q[0]]) && Increasing(d'.journal)
      && Ascending(q, EventLess)
  {
    hide Seen, Before, Increasing, Suffix, Ascending;
    var e := q[0];
    assert Follows(log, window, e);
    IncreasingAppend(log, e);
    SuffixAppend(d.journal, log, e);
    assert (d.journal + [e])[d.base..] == d.journal[d.base..] + [e];
  }

  lemma AppendInv(s: System)
    requires Inv(s) && Enabled(s, Append)
    ensures Inv(Appended(s))
  {
    hide NotAfter, Later, QueueOk, AllLater, Increasing, Durable, Suffix, Seen, Ascending;
    var p := s.process;
    var q := p.phase.queue;
    AppendParts(s.disk, p.log, p.window, q);
    assert (p.log + [q[0]])[..|p.log|] == p.log;
  }

  lemma SuffixAppend(journal: seq<Event>, log: seq<Event>, e: Event)
    requires Suffix(journal, log) && Increasing(log + [e])
    ensures Suffix(journal + [e], log + [e]) && Increasing(journal + [e])
  {
    var off := |log| - |journal|;
    forall i, j | 0 <= i < j < |journal + [e]| ensures Before((journal + [e])[i], (journal + [e])[j]) {
      assert (journal + [e])[i] == (log + [e])[off + i] && (journal + [e])[j] == (log + [e])[off + j];
    }
  }

  lemma CommitWatermark(cfg: Config, st: RuntimeState, e: Event)
    ensures Commit(cfg, st, e).watermark == Max(st.watermark, e.at) && Commit(cfg, st, e).boot == st.boot
  {
    hide Apply;
  }

  /** After an event is applied, the rest of its queue still follows the log. */
  lemma RestFollows(cfg: Config, log: seq<Event>, window: seq<Receipt>, q: seq<Event>)
    requires q != [] && log != [] && log[|log| - 1] == q[0] && Ascending(q, EventLess) && cfg.bounds.maxWindow > 0
    ensures QueueOk(log, Pushed(window, cfg.bounds.maxWindow, ReceiptOf(cfg, q[0])), q[1..])
  {
    var w := Pushed(window, cfg.bounds.maxWindow, ReceiptOf(cfg, q[0]));
    forall x | x in q[1..] ensures Follows(log, w, x) {
      var k :| 0 < k < |q| && q[k] == x;
      assert !EventLess(q[k], q[0]);
      NotLess(q[0], x);
      if SameSource(q[0], x) { PushSeen(cfg, window, cfg.bounds.maxWindow, q[0], x); }
    }
  }

  lemma TakeParts(log: seq<Event>, pending: seq<Event>, q: seq<Event>, w: nat)
    requires q != [] && log != [] && log[|log| - 1] == q[0] && NotAfter(log[..|log| - 1], w)
    requires AllLater(pending, q) && Later(pending, w)
    ensures NotAfter(log, Max(w, q[0].at)) && AllLater(pending, q[1..]) && Later(pending, Max(w, q[0].at))
  {
    var n := |log| - 1;
    assert log == log[..n] + [log[n]];
    assert q[0] in q;
    forall x | x in q[1..] ensures x in q { }
  }

  lemma TakeInv(s: System, st: RuntimeState)
    requires Inv(s) && Enabled(s, Take)
    requires st.watermark == Max(s.process.st.watermark, s.process.phase.queue[0].at)
    ensures Inv(Taken(s, st))
  {
    hide QueueOk, Increasing, Durable, Pushed, ReceiptOf, Ascending, AllLater, NotAfter, Later, Suffix;
    var p := s.process;
    var q := p.phase.queue;
    RestFollows(p.cfg, p.log, p.window, q);
    TakeParts(p.log, p.pending, q, p.st.watermark);
  }

  // ---------------------------------------------------------------------
  // Rotation and checkpoints.
  // ---------------------------------------------------------------------

  lemma SaveInv(s: System, phase: Phase)
    requires Inv(s) && s.process.Up?
    requires var p := s.process.phase;
      || (p.Ready? && p.queue != [] && !Seen(s.process.window, p.queue[0]) && phase == Renamed(p.queue))
      || (p.Idle? && phase == Swapped(false)) || (p.Opening? && phase == Swapped(true))
    ensures Inv(SavedAs(s, phase))
  {
    var p, d := s.process, s.disk;
    assert Durable(Saved(d, p)) == p.log;
    hide Increasing, QueueOk, AllLater, Durable, Seen;
  }

  lemma EmptyInv(s: System, phase: Phase)
    requires Inv(s) && s.process.Up?
    requires var p := s.process.phase; (p.Renamed? && phase == Rotated(p.queue)) || (p.Swapped? && phase == Idle)
    ensures Inv(EmptiedAs(s, phase))
  {
    hide QueueOk, AllLater, Seen, Increasing, Suffix, NotAfter, Later;
    var d, p := s.disk, s.process;
    EmptiedDurable(d);
    hide Durable;
    NoJournal(p.log);
  }

  lemma EmptiedDurable(d: Disk)
    requires d.base == |d.journal|
    ensures Durable(Emptied(d)) == Durable(d)
  {
    assert d.journal[d.base..] == [];
  }

  lemma NoJournal(log: seq<Event>)
    ensures Increasing([]) && Suffix([], log)
  {
  }

  lemma StageInv(s: System, e: Event)
    requires Inv(s) && Enabled(s, Action.Stage(e))
    ensures Inv(s.(process := s.process.(pending := s.process.pending + [e])))
  {
    hide Increasing, Durable, Seen;
  }

  /** Returning to the caller between calls. */
  lemma IdleInv(s: System, st: RuntimeState)
    requires Inv(s) && s.process.Up? && (s.process.phase == Ready([]) || s.process.phase == Swapped(false))
    requires st.watermark == s.process.st.watermark
    ensures Inv(s.(process := s.process.(st := st, phase := Idle)))
  {
    hide Increasing, QueueOk, AllLater, Durable;
  }

  lemma CrashInv(s: System)
    requires Inv(s) && s.process.Up?
    ensures Inv(Crashed(s))
  {
    hide UpOk, DiskOk;
  }

  // ---------------------------------------------------------------------
  // Refused openings.
  // ---------------------------------------------------------------------

  /** What a refused opening replayed comes after the saved log and before the rest of
      the journal. */
  lemma SalvagedOk(cfg: Config, d: Disk)
    requires DiskOk(d)
    ensures var es := Salvaged(cfg, d);
      var rest := d.journal[Max(Readable(cfg, d.journal), d.base)..];
      && Later(es, Floor(d)) && Increasing(SavedLog(d) + es) && Increasing(SavedLog(d) + es + rest)
  {
    var k := Readable(cfg, d.journal);
    var front := d.(journal := d.journal[..k], base := Min(k, d.base));
    var es, b := Salvaged(cfg, d), Max(k, d.base);
    assert Increasing(front.journal);
    DueExact(front.journal, Floor(d));
    HeldWithin(cfg, [], Due(front.journal, Floor(d)));
    SavedIncreasing(d);
    hide Due, Held;
    assert NotAfter(SavedLog(d), Floor(d));
    IncreasingJoin(SavedLog(d), es, Floor(d));
    RestAfter(d, es, k, b);
  }

  lemma RestAfter(d: Disk, es: seq<Event>, k: nat, b: nat)
    requires d.base <= |d.journal| && Increasing(d.journal) && Increasing(Durable(d)) && Increasing(SavedLog(d) + es)
    requires k <= b && d.base <= b <= |d.journal| && forall e :: e in es ==> e in d.journal[..k]
    ensures Increasing(SavedLog(d) + es + d.journal[b..])
  {
    hide Before;
    var saved, n := SavedLog(d), |SavedLog(d) + es|;
    var all, c := Durable(d), SavedLog(d) + es + d.journal[b..];
    forall i, j | 0 <= i < j < |c| ensures Before(c[i], c[j]) {
      if j < n {
        assert c[i] == (saved + es)[i] && c[j] == (saved + es)[j];
      } else {
        var m := b + j - n;
        assert c[j] == d.journal[m] && all[|saved| + m - d.base] == d.journal[m];
        if i < |saved| {
          assert all[i] == c[i];
        } else if i < n {
          assert c[i] in es;
          var x :| 0 <= x < k && d.journal[x] == c[i];
        } else {
          assert c[i] == d.journal[b + i - n];
        }
      }
    }
  }

  lemma WreckWatermark(cfg: Config, d: Disk)
    requires !Barred(cfg, d)
    ensures Wreck(cfg, d).st.watermark == Latest(Salvaged(cfg, d), Floor(d))
    ensures Wreck(cfg, d).st.boot == BaseState(cfg, d).boot
  {
    ReplayClock(cfg, BaseState(cfg, d), Salvaged(cfg, d));
    hide ReplayAll, Salvaged, Barred;
  }

  lemma WreckedOk(cfg: Config, d: Disk, saves: bool, empties: bool)
    requires DiskOk(d)
    ensures DiskOk(Wrecked(cfg, d, saves, empties))
  {
    hide Barred, Readable, Salvaged, ReplayAll;
    if Barred(cfg, d) {
      assert d.journal[0..] == d.journal && [] + d.journal == d.journal;
    } else {
      var es := Salvaged(cfg, d);
      SalvagedOk(cfg, d);
      WreckWatermark(cfg, d);
      LatestBounds(es, Floor(d));
      hide Latest, Increasing;
      assert SavedLog(d) + es + [] == SavedLog(d) + es;
      assert NotAfter(SavedLog(d) + es, Latest(es, Floor(d)));
      NoJournal([]);
    }
  }

  lemma NotSaved(cfg: Config, d: Disk, empties: bool)
    ensures Wrecked(cfg, d, false, empties) == d
  {
    hide Wreck, Barred, Readable;
  }

  lemma RejectInv(s: System, cfg: Config, saves: bool, empties: bool)
    requires Inv(s) && s.process.Down?
    ensures Inv(s.(disk := Wrecked(cfg, s.disk, saves, empties)))
  {
    WreckedOk(cfg, s.disk, saves, empties);
    hide DiskOk, UpOk, Wrecked;
  }

  // ---------------------------------------------------------------------
  // Every run.
  // ---------------------------------------------------------------------

  lemma ActInv(s: System, a: Action)
    requires Inv(s)
    ensures Inv(Act(s, a))
  {
    hide Inv, Recovered, Commit, RefreshHealth, Started, Passed, Appended, Taken, SavedAs, EmptiedAs, Crashed, Wrecked;
    if Enabled(s, a) {
      match a
      case Open(cfg) =>
        OpenInv(s, cfg);
        TopFree(s.(process := Recovered(cfg, s.disk)), Max(s.top, cfg.boot));
      case Begin(upto) => BeginInv(s, upto);
      case Skip => PassInv(s, a);
      case Refuse => PassInv(s, a);
      case Rename => SaveInv(s, Renamed(s.process.phase.queue));
      case Swap => SaveInv(s, Swapped(s.process.phase.Opening?));
      case Truncate => EmptyInv(s, Rotated(s.process.phase.queue));
      case SwapDone => EmptyInv(s, Idle);
      case Append => AppendInv(s);
      case Take =>
        CommitWatermark(s.process.cfg, s.process.st, s.process.phase.queue[0]);
        TakeInv(s, Commit(s.process.cfg, s.process.st, s.process.phase.queue[0]));
      case Stage(e) => StageInv(s, e);
      case Finish =>
        RefreshWatermark(s.process.st);
        IdleInv(s, RefreshHealth(s.process.st));
      case SwapFailed => IdleInv(s, s.process.st);
      case Crash => CrashInv(s);
      case Reject(cfg, saves, empties) =>
        RejectInv(s, cfg, saves, empties);
        TopFree(s.(disk := Wrecked(cfg, s.disk, saves, empties)), Max(s.top, cfg.boot));
    }
  }

  lemma TopFree(s: System, top: nat)
    ensures Inv(s.(top := top)) <==> Inv(s)
  {
    hide UpOk, DiskOk;
  }

  lemma RefreshWatermark(st: RuntimeState)
    ensures RefreshHealth(st).watermark == st.watermark
  {
  }

  lemma {:induction false} RunInv(acts: seq<Action>)
    ensures Inv(Exec(acts))
  {
    hide Inv, Act;
    if acts == [] {
      StartInv();
    } else {
      RunInv(acts[..|acts| - 1]);
      ActInv(Exec(acts[..|acts| - 1]), acts[|acts| - 1]);
    }
  }

  lemma StartInv()
    ensures Inv(START)
  {
  }

  /** In every run the committed log, and the log of the running process, hold each
      event at most once and in release order. */
  lemma EveryRunExactlyOnce(acts: seq<Action>)
    ensures var s := Exec(acts);
      && s.disk.base <= |s.disk.journal| && Increasing(Durable(s.disk))
      && (s.process.Up? ==> Increasing(s.process.log))
  {
    RunInv(acts);
    hide Exec;
  }
}
