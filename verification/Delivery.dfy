/** The order in which events are released, and the window of recent deliveries
    that recognises duplicates. */
module Delivery {
  import opened Base
  import opened Order
  import opened Model
  import opened Reducers

  // ---------------------------------------------------------------------
  // The release order.
  // ---------------------------------------------------------------------

  predicate EventLess(a: Event, b: Event) {
    if a.at != b.at then a.at < b.at
    else if a.origin != b.origin then Less(a.origin, b.origin)
    else if a.originEpoch != b.originEpoch then a.originEpoch < b.originEpoch
    else if a.originSeq != b.originSeq then a.originSeq < b.originSeq
    else Less(a.id, b.id)
  }

  /** Strictly earlier by instant, origin, origin epoch and origin sequence. */
  predicate Before(a: Event, b: Event) {
    if a.at != b.at then a.at < b.at
    else if a.origin != b.origin then Less(a.origin, b.origin)
    else if a.originEpoch != b.originEpoch then a.originEpoch < b.originEpoch
    else a.originSeq < b.originSeq
  }

  /** One position of one origin. */
  predicate SameSource(a: Event, b: Event) {
    a.origin == b.origin && a.originEpoch == b.originEpoch && a.originSeq == b.originSeq
  }

  lemma BeforeTrans(a: Event, b: Event, c: Event)
    requires Before(a, b) && Before(b, c)
    ensures Before(a, c)
  {
    if a.at == b.at == c.at && a.origin != b.origin && b.origin != c.origin {
      LessTrans(a.origin, b.origin, c.origin);
      LessTotal(a.origin, c.origin);
    }
  }

  lemma NotLess(a: Event, b: Event)
    requires !EventLess(b, a)
    ensures Before(a, b) || (SameSource(a, b) && a.at == b.at)
  {
    LessTotal(a.origin, b.origin);
  }

  lemma EventTotal(a: Event, b: Event)
    ensures !(EventLess(a, b) && EventLess(b, a))
    ensures !EventLess(a, b) && !EventLess(b, a) ==> a.at == b.at && SameSource(a, b) && a.id == b.id
  {
    LessTotal(a.origin, b.origin);
    LessTotal(a.id, b.id);
  }

  lemma EventTrans(a: Event, b: Event, c: Event)
    requires !EventLess(b, a) && !EventLess(c, b)
    ensures !EventLess(c, a)
  {
    LessTotal(a.origin, b.origin);
    LessTotal(b.origin, c.origin);
    LessTotal(a.origin, c.origin);
    LessTotal(a.id, b.id);
    LessTotal(b.id, c.id);
    LessTotal(a.id, c.id);
    if a.at == b.at == c.at {
      if Less(a.origin, b.origin) && Less(b.origin, c.origin) { LessTrans(a.origin, b.origin, c.origin); }
      if SameSource(a, b) && SameSource(b, c) && Less(a.id, b.id) && Less(b.id, c.id) { LessTrans(a.id, b.id, c.id); }
    }
  }

  lemma EventStrictWeak()
    ensures StrictWeak(EventLess)
  {
    forall a, b ensures !(EventLess(a, b) && EventLess(b, a)) { EventTotal(a, b); }
    forall a, b, c | !EventLess(b, a) && !EventLess(c, b) ensures !EventLess(c, a) { EventTrans(a, b, c); }
  }

  /** In strictly increasing order, so no position of an origin occurs twice at one
      instant. */
  ghost predicate Increasing(es: seq<Event>) {
    forall i, j :: 0 <= i < j < |es| ==> Before(es[i], es[j])
  }

  /** Anything placed after the last entry is placed after all of them. */
  lemma IncreasingAppend(es: seq<Event>, e: Event)
    requires Increasing(es) && (es != [] ==> Before(es[|es| - 1], e))
    ensures Increasing(es + [e])
  {
    forall i, j | 0 <= i < j < |es + [e]| ensures Before((es + [e])[i], (es + [e])[j]) {
      if j == |es| && i < |es| - 1 { BeforeTrans(es[i], es[|es| - 1], e); }
    }
  }

  /** An increasing log holds every event at most once. */
  lemma IncreasingOnce(es: seq<Event>, i: nat, j: nat)
    requires Increasing(es) && i < |es| && j < |es| && es[i].at == es[j].at && SameSource(es[i], es[j])
    ensures i == j
  {
  }

  // ---------------------------------------------------------------------
  // The delivery window.
  // ---------------------------------------------------------------------

  datatype Receipt = Receipt(origin: Id, epoch: nat, number: nat, digest: Id)

  function ReceiptOf(cfg: Config, e: Event): Receipt { Receipt(e.origin, e.originEpoch, e.originSeq, cfg.digest(e)) }

  predicate Matches(r: Receipt, e: Event) {
    r.origin == e.origin && r.epoch == e.originEpoch && r.number == e.originSeq
  }

  predicate Seen(window: seq<Receipt>, e: Event) { exists r :: r in window && Matches(r, e) }

  /** The first receipt of the event's position. */
  function Match(window: seq<Receipt>, e: Event): (r: Option<Receipt>)
    ensures r.Some? <==> Seen(window, e)
    ensures r.Some? ==> r.value in window && Matches(r.value, e)
  {
    if window == [] then None
    else if Matches(window[0], e) then Some(window[0])
    else
      var r := Match(window[1..], e);
      assert window == [window[0]] + window[1..];
      r
  }

  function Last<T>(s: seq<T>, n: nat): (r: seq<T>)
    ensures |r| == Min(n, |s|) && r == s[|s| - |r|..]
  {
    if |s| > n then s[|s| - n..] else s
  }

  /** A bounded first-in first-out history after one more entry. */
  function Pushed<T>(s: seq<T>, capacity: nat, x: T): seq<T> {
    if capacity == 0 then s else Last(s, capacity - 1) + [x]
  }

  /** `BoundedHistory::push`: entries leave at the front until there is room. */
  method PushBounded<T>(s: seq<T>, capacity: nat, x: T) returns (r: seq<T>, evicted: nat)
    ensures r == Pushed(s, capacity, x)
    ensures capacity > 0 ==> |s| + 1 == |r| + evicted && |r| <= Max(capacity, 1)
    ensures capacity == 0 ==> evicted == 0
  {
    if capacity == 0 { return s, 0; }
    r, evicted := s, 0;
    while |r| >= capacity
      invariant evicted <= |s| && r == s[evicted..]
      invariant evicted == 0 || |r| >= capacity - 1
      decreases |r|
    {
      r, evicted := r[1..], evicted + 1;
    }
    assert r == Last(s, capacity - 1);
    r := r + [x];
  }

  /** The linear search both `stage` and `flush` run over the window. */
  method Lookup(window: seq<Receipt>, e: Event) returns (hit: Option<Receipt>)
    ensures hit == Match(window, e)
  {
    var k := 0;
    while k < |window|
      invariant 0 <= k <= |window|
      invariant Match(window, e) == Match(window[k..], e)
    {
      assert window[k..][0] == window[k] && window[k..][1..] == window[k + 1..];
      if Matches(window[k], e) { return Some(window[k]); }
      k := k + 1;
    }
    return None;
  }

  function Receipts(cfg: Config, es: seq<Event>): seq<Receipt> {
    seq(|es|, i requires 0 <= i < |es| => ReceiptOf(cfg, es[i]))
  }

  lemma PushSeen(cfg: Config, window: seq<Receipt>, capacity: nat, e: Event, x: Event)
    requires capacity > 0 && SameSource(e, x)
    ensures Seen(Pushed(window, capacity, ReceiptOf(cfg, e)), x)
  {
    var w := Pushed(window, capacity, ReceiptOf(cfg, e));
    assert w[|w| - 1] in w && Matches(w[|w| - 1], x);
  }

  /** The window always is the end of what was delivered. */
  lemma PushedLast<T>(s: seq<T>, capacity: nat, x: T)
    requires capacity > 0
    ensures Pushed(Last(s, capacity), capacity, x) == Last(s + [x], capacity)
  {
  }
}
