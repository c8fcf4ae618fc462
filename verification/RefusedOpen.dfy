/** What a refused opening does to the store. The half-built runtime is destroyed, and its
    closing checkpoint replaces the snapshot and empties the journal. */
module RefusedOpen {
  import opened Base
  import opened Order
  import opened Model
  import opened Authority
  import opened Reducers
  import opened Runs
  import opened Replay
  import opened Delivery
  import opened Protocol
  import opened ExactlyOnce
  import opened NothingLost
  import opened SafeRotation
  import opened Deliveries

  /** Nothing is left to lose: no committed event if the opening was refused outright; if
      it stopped at a record, no event outside the snapshot. */
  ghost predicate Spared(cfg: Config, d: Disk) {
    && d.base == |d.journal|
    && (if Barred(cfg, d) then SavedLog(d) == []
        else forall i :: 0 <= i < Readable(cfg, d.journal) ==> d.journal[i].at <= Floor(d))
  }

  lemma {:induction false} NothingDueExactly(journal: seq<Event>, floor: nat)
    ensures Due(journal, floor) == [] <==> forall i :: 0 <= i < |journal| ==> journal[i].at <= floor
  {
    DueExact(journal, floor);
    hide Due;
    if Due(journal, floor) != [] { assert Due(journal, floor)[0] in Due(journal, floor); }
    forall i | 0 <= i < |journal| && journal[i].at > floor ensures Due(journal, floor) != [] {
      assert journal[i] in Due(journal, floor);
    }
  }

  lemma HeldNone(cfg: Config, es: seq<Event>)
    ensures Held(cfg, [], es) == [] <==> es == []
  {
    if es != [] { HeldFirst(cfg, es); }
  }

  /** The records salvaged all come before the rest of the journal. */
  lemma SalvagedWithin(cfg: Config, d: Disk)
    requires DiskOk(d) && Readable(cfg, d.journal) < |d.journal|
    ensures Salvaged(cfg, d) == d.journal[d.base..] <==>
      d.base == |d.journal| && forall i :: 0 <= i < Readable(cfg, d.journal) ==> d.journal[i].at <= Floor(d)
  {
    hide Increasing, Readable, Due, Held;
    var k := Readable(cfg, d.journal);
    var front, es := d.journal[..k], Salvaged(cfg, d);
    DueExact(front, Floor(d));
    HeldWithin(cfg, [], Due(front, Floor(d)));
    NothingDueExactly(front, Floor(d));
    HeldNone(cfg, Due(front, Floor(d)));
    LastNotFront(d.journal, k);
    var tail := d.journal[d.base..];
    assert d.base < |d.journal| ==> tail[|tail| - 1] == d.journal[|d.journal| - 1];
  }

  lemma LastNotFront(journal: seq<Event>, k: nat)
    requires Increasing(journal) && k < |journal|
    ensures journal[|journal| - 1] !in journal[..k]
  {
    var last := journal[|journal| - 1];
    forall x | 0 <= x < k ensures journal[x] != last { assert Before(journal[x], last) && !Before(last, last); }
  }

  /** Exactly when a refused opening keeps what was committed, once its closing checkpoint
      has gone through. */
  lemma RefusedOpenKeepsExactly(cfg: Config, d: Disk)
    requires DiskOk(d) && Rejects(cfg, d)
    ensures var after := Wrecked(cfg, d, true, true);
      && after.base <= |after.journal| && (Durable(after) == Durable(d) <==> Spared(cfg, d))
      && (Barred(cfg, d) ==> Durable(after) == [])
  {
    hide Acceptable, Salvaged, ReplayAll, Increasing;
    var after, tail := Wrecked(cfg, d, true, true), d.journal[d.base..];
    assert after.journal[after.base..] == [];
    if Barred(cfg, d) {
      assert tail == [] <==> d.base == |d.journal|;
    } else {
      var es := Salvaged(cfg, d);
      assert Durable(after) == SavedLog(d) + es + [] == SavedLog(d) + es;
      SameTail(SavedLog(d), es, tail);
      SalvagedWithin(cfg, d);
    }
  }

  /** Interrupted before the journal is emptied, an outright refusal has already cost the
      events of the old snapshot that are not in the journal. */
  lemma BarredInterrupted(cfg: Config, d: Disk)
    requires d.base <= |d.journal| && Barred(cfg, d)
    ensures var after := Wrecked(cfg, d, true, false);
      after.base <= |after.journal| && (Durable(after) == Durable(d) <==> SavedLog(d) == d.journal[..d.base])
  {
    hide Barred, ReplayAll;
    var j := d.journal;
    assert j[0..] == j && [] + j == j && j == j[..d.base] + j[d.base..];
    if SavedLog(d) + j[d.base..] == j[..d.base] + j[d.base..] {
      assert |SavedLog(d)| == d.base;
      assert (SavedLog(d) + j[d.base..])[..d.base] == SavedLog(d) && (j[..d.base] + j[d.base..])[..d.base] == j[..d.base];
    }
  }

  /** The store up to the first record that does not decode. */
  function Legible(cfg: Config, d: Disk): Disk {
    var k := Readable(cfg, d.journal);
    d.(journal := d.journal[..k], base := Min(k, d.base))
  }

  lemma LegibleOk(cfg: Config, d: Disk)
    requires DiskOk(d)
    ensures DiskOk(Legible(cfg, d)) && Salvaged(cfg, d) == Replayable(cfg, Legible(cfg, d))
    ensures SavedLog(Legible(cfg, d)) == SavedLog(d)
  {
    hide Due, Held, Readable, Increasing, NotAfter;
    var k, e := Readable(cfg, d.journal), Legible(cfg, d);
    var tail := d.journal[d.base..];
    var n := if k <= d.base then 0 else k - d.base;
    assert e.journal[e.base..] == tail[..n];
    assert Durable(e) == Durable(d)[..|SavedLog(d)| + n];
    IncreasingPrefix(Durable(d), |SavedLog(d)| + n);
    IncreasingPrefix(d.journal, k);
  }

  lemma IncreasingPrefix(es: seq<Event>, n: nat)
    requires Increasing(es) && n <= |es|
    ensures Increasing(es[..n])
  {
    hide Before;
  }

  /** What is put behind the new snapshot, and what it has to stand for. */
  lemma SplitAtLegible(cfg: Config, d: Disk, es: seq<Event>)
    requires d.base <= |d.journal|
    ensures var k, e := Readable(cfg, d.journal), Legible(cfg, d);
      SavedLog(d) + es + d.journal[Max(k, d.base)..] == Durable(d) <==> SavedLog(d) + es == Durable(e)
  {
    hide Readable;
    var k, e := Readable(cfg, d.journal), Legible(cfg, d);
    var rest := d.journal[Max(k, d.base)..];
    assert Durable(d) == Durable(e) + rest by { assert d.journal[d.base..] == e.journal[e.base..] + rest; }
    SameFront(SavedLog(d) + es, Durable(e), rest);
  }

  lemma SameFront(a: seq<Event>, b: seq<Event>, c: seq<Event>)
    ensures a + c == b + c <==> a == b
  {
    if a + c == b + c {
      assert |a| == |b|;
      assert (a + c)[..|a|] == a && (b + c)[..|b|] == b;
    }
  }

  /** Interrupted before the journal is emptied, a refused opening keeps what was committed
      exactly when
      - refused outright: the old snapshot stood for records that are still in the journal;
      - refused at a record: of the records before it, those written after the snapshot are
        the ones above its watermark, and none repeats a position within the window. */
  lemma InterruptedKeepsExactly(cfg: Config, d: Disk)
    requires DiskOk(d) && Rejects(cfg, d)
    ensures var after, e := Wrecked(cfg, d, true, false), Legible(cfg, d);
      && after.base <= |after.journal|
      && (Durable(after) == Durable(d) <==>
            if Barred(cfg, d) then SavedLog(d) == d.journal[..d.base]
            else CutClean(e) && NoRepeats([], e.journal[e.base..], cfg.bounds.maxWindow))
  {
    hide Salvaged, ReplayAll, Increasing, CutClean, NoRepeats, Readable, Replayable;
    if Barred(cfg, d) {
      BarredInterrupted(cfg, d);
    } else {
      var e := Legible(cfg, d);
      LegibleOk(cfg, d);
      SplitAtLegible(cfg, d, Salvaged(cfg, d));
      RecoveryLosesNothingExactly(cfg, e);
      hide Durable, Legible, Barred;
    }
  }

  /** One event, a clean stop, and an opening under another store's name. */
  function ForeignRun(cfg: Config, e: Event, other: Config): seq<Action> {
    [Action.Open(cfg)] + Deliver(e) + [Swap] + [SwapDone] + [Crash] + [Action.Reject(other, true, true)]
  }

  /** The event is committed and then gone, and the store's own configuration is refused
      from then on. */
  lemma WipeIsReachable(cfg: Config, e: Event, other: Config)
    requires Opens(cfg, START.disk) && cfg.bounds.maxBatchEvents > 0 && Complete(e) && Sealed(cfg, e) && e.at > 0
    requires Acceptable(other) && other.storeId != cfg.storeId
    ensures var run := ForeignRun(cfg, e, other);
      var d, after := Exec(run[..|run| - 1]).disk, Exec(run).disk;
      && d.base <= |d.journal| && Durable(d) == [e] && after.base <= |after.journal| && Durable(after) == []
      && Rejects(cfg, after)
  {
    hide Exec, Act, Wrecked, Barred, Readable, Init, Complete, Sealed;
    var run := ForeignRun(cfg, e, other);
    var b := [Action.Open(cfg)] + Deliver(e);
    CommitOne(cfg, e);
    StopClean(b);
    var c := b + [Swap] + [SwapDone] + [Crash];
    assert run[..|run| - 1] == c && run == c + [Action.Reject(other, true, true)];
    ExecSnoc(c, Action.Reject(other, true, true));
    RejectForeign(cfg, other, Exec(c));
  }

  /** An empty store opened, and one event delivered. */
  lemma CommitOne(cfg: Config, e: Event)
    requires Opens(cfg, START.disk) && cfg.bounds.maxBatchEvents > 0 && Complete(e) && Sealed(cfg, e) && e.at > 0
    ensures var s := Exec([Action.Open(cfg)] + Deliver(e));
      Waiting(s) && s.process.log == [e] && s.process.st.storeId == cfg.storeId
  {
    hide Exec, Act, Commit, RefreshHealth, Barred, Readable;
    var a := [Action.Open(cfg)];
    OpenFresh(cfg);
    assert Stageable(Exec(a).process, e);
    DeliverOne(a, e);
    DeliveredFrame(cfg, Init(cfg), e);
    hide Delivered;
    assert [] + [e] == [e];
  }

  lemma RejectForeign(cfg: Config, other: Config, s: System)
    requires s.process.Down? && s.disk.snapshot.Some? && s.disk.snapshot.value.st.storeId == cfg.storeId != ""
    requires Acceptable(cfg) && Acceptable(other) && other.storeId != cfg.storeId
    ensures var t := Act(s, Action.Reject(other, true, true));
      t.disk == Disk(Some(Snapshot(Init(other), [])), [], 0) && Rejects(cfg, t.disk)
  {
    hide Commit, RefreshHealth, Recovered, ReplayAll, Salvaged;
    assert Barred(other, s.disk);
  }
}
