/** What recovery brings back: exactly which stores lose a committed event, and the
    runs in which none is ever lost. */
module NothingLost {
  import opened Base
  import opened Order
  import opened Model
  import opened Authority
  import opened Reducers
  import opened Runs
  import opened Replay
  import opened Delivery
  import opened Protocol
  import opened ExactlyOnce

  // ---------------------------------------------------------------------
  // Which journal records come back.
  // ---------------------------------------------------------------------

  /** The event's origin position is among the last `c` of `p`. */
  ghost predicate Recent(p: seq<Event>, e: Event, c: nat) {
    exists k :: 0 <= k < |p| <= k + c && SameSource(p[k], e)
  }

  /** No event of `es` repeats an origin position within `c` deliveries, `p` before them. */
  ghost predicate NoRepeats(p: seq<Event>, es: seq<Event>, c: nat)
    decreases |es|
  {
    es == [] || (!Recent(p, es[0], c) && NoRepeats(p + [es[0]], es[1..], c))
  }

  lemma SeenRecent(cfg: Config, p: seq<Event>, e: Event, c: nat)
    ensures Seen(Last(Receipts(cfg, p), c), e) <==> Recent(p, e, c)
  {
    hide Last, Receipts;
    LastReceipts(cfg, p, c);
    SeenAmong(cfg, p, e, Last(Receipts(cfg, p), c), c);
    hide Seen, Recent;
  }

  lemma SeenAmong(cfg: Config, p: seq<Event>, e: Event, w: seq<Receipt>, c: nat)
    requires |w| == Min(c, |p|) && forall k :: 0 <= k < |w| ==> w[k] == ReceiptOf(cfg, p[|p| - |w| + k])
    ensures Seen(w, e) <==> Recent(p, e, c)
  {
    if Seen(w, e) {
      var k :| 0 <= k < |w| && Matches(w[k], e);
      assert SameSource(p[|p| - |w| + k], e);
    }
    if Recent(p, e, c) {
      var k :| 0 <= k < |p| <= k + c && SameSource(p[k], e);
      assert w[k - (|p| - |w|)] in w;
    }
  }

  lemma LastReceipts(cfg: Config, p: seq<Event>, c: nat)
    ensures var w := Last(Receipts(cfg, p), c);
      |w| == Min(c, |p|) && forall k :: 0 <= k < |w| ==> w[k] == ReceiptOf(cfg, p[|p| - |w| + k])
  {
    hide ReceiptOf;
  }

  lemma WindowStep(cfg: Config, p: seq<Event>, e: Event)
    requires cfg.bounds.maxWindow > 0
    ensures Pushed(Last(Receipts(cfg, p), cfg.bounds.maxWindow), cfg.bounds.maxWindow, ReceiptOf(cfg, e))
         == Last(Receipts(cfg, p + [e]), cfg.bounds.maxWindow)
  {
    PushedLast(Receipts(cfg, p), cfg.bounds.maxWindow, ReceiptOf(cfg, e));
    assert Receipts(cfg, p + [e]) == Receipts(cfg, p) + [ReceiptOf(cfg, e)];
  }

  /** The window keeps every event exactly when none repeats. */
  lemma {:induction false} HeldExactly(cfg: Config, p: seq<Event>, es: seq<Event>)
    requires cfg.bounds.maxWindow > 0
    ensures var h := Held(cfg, Last(Receipts(cfg, p), cfg.bounds.maxWindow), es);
      |h| <= |es| && (h == es <==> NoRepeats(p, es, cfg.bounds.maxWindow))
    decreases |es|
  {
    hide Seen, Recent, Last, Receipts, Pushed, ReceiptOf;
    if es != [] {
      var c := cfg.bounds.maxWindow;
      var w := Last(Receipts(cfg, p), c);
      SeenRecent(cfg, p, es[0], c);
      if Seen(w, es[0]) {
        HeldShorter(cfg, w, es[1..]);
      } else {
        WindowStep(cfg, p, es[0]);
        HeldExactly(cfg, p + [es[0]], es[1..]);
        Front(es, Held(cfg, Last(Receipts(cfg, p + [es[0]]), c), es[1..]));
      }
    }
  }

  lemma Front(es: seq<Event>, h: seq<Event>)
    requires es != []
    ensures [es[0]] + h == es <==> h == es[1..]
  {
    assert ([es[0]] + h)[1..] == h;
    assert es == [es[0]] + es[1..];
  }

  lemma {:induction false} HeldShorter(cfg: Config, window: seq<Receipt>, es: seq<Event>)
    ensures |Held(cfg, window, es)| <= |es|
    decreases |es|
  {
    if es != [] {
      if Seen(window, es[0]) {
        HeldShorter(cfg, window, es[1..]);
      } else {
        HeldShorter(cfg, Pushed(window, cfg.bounds.maxWindow, ReceiptOf(cfg, es[0])), es[1..]);
      }
    }
  }

  /** How many leading records recovery skips. */
  function Skipped(journal: seq<Event>, floor: nat): nat {
    if journal == [] || journal[0].at > floor then 0 else 1 + Skipped(journal[1..], floor)
  }

  ghost predicate InTime(es: seq<Event>) { forall i, j :: 0 <= i < j < |es| ==> es[i].at <= es[j].at }

  lemma IncreasingInTime(es: seq<Event>)
    requires Increasing(es)
    ensures InTime(es)
  {
    forall i, j | 0 <= i < j < |es| ensures es[i].at <= es[j].at { assert Before(es[i], es[j]); }
  }

  lemma {:induction false} SkippedExact(journal: seq<Event>, floor: nat)
    requires InTime(journal)
    ensures var k := Skipped(journal, floor);
      && k <= |journal| && Due(journal, floor) == journal[k..]
      && (forall i :: 0 <= i < k ==> journal[i].at <= floor) && (forall i :: k <= i < |journal| ==> journal[i].at > floor)
  {
    if journal != [] {
      var rest := journal[1..];
      SkippedExact(rest, floor);
      if journal[0].at > floor {
        assert forall i :: 0 <= i < |rest| ==> rest[i].at > floor;
        assert Skipped(rest, floor) == 0;
      } else {
        forall i | 0 <= i < 1 + Skipped(rest, floor) ensures journal[i].at <= floor {
          if i > 0 { assert rest[i - 1].at <= floor; }
        }
        forall i | 1 + Skipped(rest, floor) <= i < |journal| ensures journal[i].at > floor { assert rest[i - 1].at > floor; }
      }
    }
  }

  /** The journal is cut at the snapshot's watermark exactly where the snapshot was taken. */
  ghost predicate CutClean(d: Disk) {
    && (forall k :: 0 <= k < d.base && k < |d.journal| ==> d.journal[k].at <= Floor(d))
    && (forall k :: d.base <= k < |d.journal| ==> d.journal[k].at > Floor(d))
  }

  lemma CutIsSkipped(d: Disk)
    requires DiskOk(d)
    ensures CutClean(d) <==> Skipped(d.journal, Floor(d)) == d.base
  {
    IncreasingInTime(d.journal);
    SkippedExact(d.journal, Floor(d));
    var k := Skipped(d.journal, Floor(d));
    hide Skipped, Due, Increasing;
    assert k < d.base ==> d.journal[k].at > Floor(d);
    assert k > d.base ==> d.journal[d.base].at <= Floor(d);
  }

  /** Recovery reproduces the committed log exactly when every record written after the
      snapshot is later than its watermark, none written before is, and none of them
      repeats an origin position within the delivery window. */
  lemma RecoveryLosesNothingExactly(cfg: Config, d: Disk)
    requires DiskOk(d) && cfg.bounds.maxWindow > 0
    ensures SavedLog(d) + Replayable(cfg, d) == Durable(d) <==>
      CutClean(d) && NoRepeats([], d.journal[d.base..], cfg.bounds.maxWindow)
  {
    hide Skipped, Due, Held, Receipts, Last, CutClean, NoRepeats, Increasing;
    var tail, es := d.journal[d.base..], Replayable(cfg, d);
    SameTail(SavedLog(d), es, tail);
    CutIsSkipped(d);
    IncreasingInTime(d.journal);
    SkippedExact(d.journal, Floor(d));
    var k := Skipped(d.journal, Floor(d));
    HeldExactly(cfg, [], d.journal[k..]);
    NoReceipts(cfg, cfg.bounds.maxWindow);
    assert es == Held(cfg, [], d.journal[k..]);
    if k < d.base {
      HeldFirst(cfg, d.journal[k..]);
      assert es[0] == d.journal[k];
      NotFirst(d.journal, k, d.base);
    } else if k > d.base {
      assert |es| < |tail|;
    }
  }

  lemma NoReceipts(cfg: Config, c: nat)
    ensures Last(Receipts(cfg, []), c) == []
  {
  }

  lemma HeldFirst(cfg: Config, es: seq<Event>)
    requires es != []
    ensures Held(cfg, [], es) != [] && Held(cfg, [], es)[0] == es[0]
  {
    hide Pushed, ReceiptOf;
  }

  lemma NotFirst(journal: seq<Event>, k: nat, base: nat)
    requires Increasing(journal) && k < base <= |journal|
    ensures journal[base..] == [] || journal[base..][0] != journal[k]
  {
    if base < |journal| { assert Before(journal[k], journal[base]) && !Before(journal[k], journal[k]); }
  }

  lemma SameTail(a: seq<Event>, b: seq<Event>, c: seq<Event>)
    ensures a + b == a + c <==> b == c
  {
    if a + b == a + c {
      assert (a + b)[|a|..] == b && (a + c)[|a|..] == c;
    }
  }
}
