/** The accepted state does not depend on the order in which events were staged, exactly
    as long as events with the same release key have the same content. */
module StagingOrder {
  import opened Base
  import opened Order
  import opened Model
  import opened Reducers
  import opened Runs
  import opened Delivery
  import opened Protocol
  import opened SafeRotation
  import opened Runtime

  /** Equal release keys: neither event sorts before the other. */
  predicate SameKey(a: Event, b: Event) { a.at == b.at && SameSource(a, b) && a.id == b.id }

  /** The release key of an event tells which event it is. */
  ghost predicate KeysTell(es: seq<Event>) {
    forall a, b :: a in es && b in es && SameKey(a, b) ==> a == b
  }

  // ---------------------------------------------------------------------
  // The queue.
  // ---------------------------------------------------------------------

  /** An ascending arrangement is unique when ties are equal. */
  lemma {:induction false} AscendingUnique(a: seq<Event>, b: seq<Event>)
    requires Ascending(a, EventLess) && Ascending(b, EventLess) && multiset(a) == multiset(b) && KeysTell(a)
    ensures a == b
    decreases |a|
  {
    hide EventLess, KeysTell;
    assert |multiset(a)| == |a| && |multiset(b)| == |b|;
    if a != [] {
      SameHead(a, b);
      assert a == [a[0]] + a[1..] && b == [b[0]] + b[1..];
      assert multiset(a[1..]) == multiset(a) - multiset{a[0]} == multiset(b[1..]);
      FewerTell(a);
      AscendingUnique(a[1..], b[1..]);
    }
  }

  lemma FewerTell(a: seq<Event>)
    requires KeysTell(a) && a != []
    ensures KeysTell(a[1..])
  {
    hide SameKey;
    assert forall e :: e in a[1..] ==> e in a;
  }

  lemma SameHead(a: seq<Event>, b: seq<Event>)
    requires Ascending(a, EventLess) && Ascending(b, EventLess) && multiset(a) == multiset(b) && KeysTell(a) && a != [] && b != []
    ensures a[0] == b[0]
  {
    hide EventLess;
    EventTotal(a[0], b[0]);
    EventTotal(a[0], a[0]);
    assert a[0] in multiset(b) && b[0] in multiset(a);
    var i :| 0 <= i < |b| && b[i] == a[0];
    var j :| 0 <= j < |a| && a[j] == b[0];
    assert i > 0 ==> !EventLess(b[i], b[0]);
    assert j > 0 ==> !EventLess(a[j], a[0]);
    assert a[0] in a && b[0] in a;
    assert a[0] == b[0] || SameKey(a[0], b[0]);
  }

  /** How often an event is released, or kept back. */
  lemma {:induction false} ReleasedCount(p: seq<Event>, upto: nat, e: Event)
    ensures multiset(Released(p, upto))[e] == if e.at <= upto then multiset(p)[e] else 0
    ensures multiset(Retained(p, upto))[e] == if e.at <= upto then 0 else multiset(p)[e]
    decreases |p|
  {
    if p != [] {
      var n := |p| - 1;
      ReleasedCount(p[..n], upto, e);
      assert p == p[..n] + [p[n]];
    }
  }

  lemma PermutedRelease(p: seq<Event>, q: seq<Event>, upto: nat)
    requires multiset(p) == multiset(q)
    ensures multiset(Released(p, upto)) == multiset(Released(q, upto))
    ensures multiset(Retained(p, upto)) == multiset(Retained(q, upto))
  {
    hide Released, Retained;
    forall e
      ensures multiset(Released(p, upto))[e] == multiset(Released(q, upto))[e]
      ensures multiset(Retained(p, upto))[e] == multiset(Retained(q, upto))[e]
    {
      ReleasedCount(p, upto, e);
      ReleasedCount(q, upto, e);
    }
  }

  function Queue(p: seq<Event>, upto: nat): seq<Event> { Sort(Released(p, upto), EventLess) }

  lemma SameQueue(p: seq<Event>, q: seq<Event>, upto: nat)
    requires multiset(p) == multiset(q) && KeysTell(Released(p, upto))
    ensures Queue(p, upto) == Queue(q, upto)
  {
    hide Released, Sort;
    EventStrictWeak();
    PermutedRelease(p, q, upto);
    var a, b := Released(p, upto), Released(q, upto);
    SortKeeps(a, EventLess);
    SortKeeps(b, EventLess);
    SortAscends(a, EventLess);
    SortAscends(b, EventLess);
    AscendingUnique(Sort(a, EventLess), Sort(b, EventLess));
  }

  // ---------------------------------------------------------------------
  // Ties: the sort is stable, so the first of equal keys stays first.
  // ---------------------------------------------------------------------

  function First(es: seq<Event>, k: Event): Option<Event> {
    if es == [] then None else if SameKey(es[0], k) then Some(es[0]) else First(es[1..], k)
  }

  lemma {:induction false} FirstSnoc(es: seq<Event>, e: Event, k: Event)
    ensures First(es + [e], k) == if First(es, k).Some? then First(es, k) else First([e], k)
    decreases |es|
  {
    if es == [] {
      assert [] + [e] == [e];
    } else {
      assert (es + [e])[0] == es[0] && (es + [e])[1..] == es[1..] + [e];
      FirstSnoc(es[1..], e, k);
    }
  }

  /** Whatever sorts after an event has another key. */
  lemma {:induction false} NoneOfKey(es: seq<Event>, k: Event)
    requires forall e :: e in es ==> EventLess(k, e)
    ensures First(es, k) == None
    decreases |es|
  {
    if es != [] {
      LessTotal(k.origin, k.origin);
      LessTotal(k.id, k.id);
      assert es[0] in es;
      NoneOfKey(es[1..], k);
    }
  }

  lemma KeyLess(k: Event, x: Event, e: Event)
    requires SameKey(x, k)
    ensures EventLess(x, e) == EventLess(k, e)
  {
  }

  lemma {:induction false} InsertFirst(x: Event, s: seq<Event>, k: Event)
    requires Ascending(s, EventLess)
    ensures First(Insert(x, s, EventLess), k) == if First(s, k).Some? then First(s, k) else First([x], k)
    decreases |s|
  {
    hide EventLess;
    if s == [] {
    } else if EventLess(x, s[0]) {
      assert ([x] + s)[1..] == s;
      if SameKey(x, k) {
        EventStrictWeak();
        forall e | e in s ensures EventLess(k, e) {
          var i :| 0 <= i < |s| && s[i] == e;
          assert i > 0 ==> !EventLess(e, s[0]);
          KeyLess(k, x, e);
          KeyLess(k, x, s[0]);
          assert !EventLess(s[0], x);
        }
        NoneOfKey(s, k);
      }
    } else {
      var rest := Insert(x, s[1..], EventLess);
      assert ([s[0]] + rest)[1..] == rest;
      InsertFirst(x, s[1..], k);
    }
  }

  lemma {:induction false} SortFirst(s: seq<Event>, k: Event)
    ensures First(Sort(s, EventLess), k) == First(s, k)
    decreases |s|
  {
    hide EventLess;
    if s != [] {
      var n := |s| - 1;
      EventStrictWeak();
      SortFirst(s[..n], k);
      SortAscends(s[..n], EventLess);
      InsertFirst(s[n], Sort(s[..n], EventLess), k);
      FirstSnoc(s[..n], s[n], k);
      assert s == s[..n] + [s[n]];
    }
  }

  /** Moving a released event to the front makes it the first of its key. */
  lemma MovedFront(p: seq<Event>, upto: nat, x: Event) returns (q: seq<Event>)
    requires x in Released(p, upto)
    ensures multiset(q) == multiset(p) && First(Queue(q, upto), x) == Some(x)
  {
    hide Sort, Released, First, SameKey;
    ReleasedCount(p, upto, x);
    assert x in multiset(Released(p, upto));
    assert x in multiset(p) && x.at <= upto;
    var i :| 0 <= i < |p| && p[i] == x;
    var rest := p[..i] + p[i + 1..];
    q := [x] + rest;
    assert p == p[..i] + [x] + p[i + 1..];
    ReleasedFront(x, rest, upto);
    FrontFirst(x, Released(rest, upto));
    SortFirst(Released(q, upto), x);
  }

  lemma FrontFirst(x: Event, es: seq<Event>)
    ensures First([x] + es, x) == Some(x)
  {
  }

  lemma {:induction false} ReleasedFront(x: Event, rest: seq<Event>, upto: nat)
    requires x.at <= upto
    ensures Released([x] + rest, upto) == [x] + Released(rest, upto)
    decreases |rest|
  {
    if rest == [] {
      assert [x] + rest == [x] && [x][..0] == [];
    } else {
      var n := |rest| - 1;
      assert ([x] + rest)[..n + 1] == [x] + rest[..n] && ([x] + rest)[n + 1] == rest[n];
      ReleasedFront(x, rest[..n], upto);
    }
  }

  /** The released queue is the same for every staging order exactly when no two
      released events share a key and differ. */
  lemma QueueOrderFreeExactly(p: seq<Event>, upto: nat)
    ensures (forall q :: multiset(q) == multiset(p) ==> Queue(q, upto) == Queue(p, upto)) <==> KeysTell(Released(p, upto))
  {
    hide Queue, Released, First;
    if KeysTell(Released(p, upto)) {
      forall q | multiset(q) == multiset(p) ensures Queue(q, upto) == Queue(p, upto) { SameQueue(p, q, upto); }
    } else {
      var x, y :| x in Released(p, upto) && y in Released(p, upto) && SameKey(x, y) && x != y;
      var q := MovedFront(p, upto, x);
      var r := MovedFront(p, upto, y);
      KeyFirst(Queue(q, upto), x, y);
      assert Queue(q, upto) != Queue(r, upto);
    }
  }

  lemma {:induction false} KeyFirst(es: seq<Event>, x: Event, y: Event)
    requires SameKey(x, y)
    ensures First(es, x) == First(es, y)
    decreases |es|
  {
    if es != [] { KeyFirst(es[1..], x, y); }
  }

  // ---------------------------------------------------------------------
  // The state: nothing but staging and starting a release looks at the buffer.
  // ---------------------------------------------------------------------

  function Blind(s: System): System {
    if s.process.Up? then s.(process := s.process.(pending := [])) else s
  }

  predicate Ignores(a: Action) { !a.Stage? && !a.Begin? && !a.Open? && !a.Crash? && !a.Reject? }

  lemma ActBlind(s: System, t: System, a: Action)
    requires Blind(s) == Blind(t) && Ignores(a)
    ensures Blind(Act(s, a)) == Blind(Act(t, a))
    ensures s.process.Up? ==> Act(s, a).process.Up? && Act(s, a).process.pending == s.process.pending
  {
    hide Commit, RefreshHealth, Recovered, Seen, Pushed, ReceiptOf, Tokens;
  }

  lemma {:induction false} ExecBlind(a: seq<Action>, b: seq<Action>, xs: seq<Action>)
    requires Blind(Exec(a)) == Blind(Exec(b)) && forall x :: x in xs ==> Ignores(x)
    ensures Blind(Exec(a + xs)) == Blind(Exec(b + xs))
    ensures Exec(a).process.Up? ==> Exec(a + xs).process.Up? && Exec(a + xs).process.pending == Exec(a).process.pending
    decreases |xs|
  {
    hide Exec, Act, Blind, Ignores;
    if xs == [] {
      assert a + xs == a && b + xs == b;
    } else {
      var n := |xs| - 1;
      ExecBlind(a, b, xs[..n]);
      assert a + xs == (a + xs[..n]) + [xs[n]] && b + xs == (b + xs[..n]) + [xs[n]];
      ExecSnoc(a + xs[..n], xs[n]);
      ExecSnoc(b + xs[..n], xs[n]);
      ActBlind(Exec(a + xs[..n]), Exec(b + xs[..n]), xs[n]);
    }
  }

  lemma PathIgnores(seen: bool, v: Reply)
    ensures forall x :: x in PathOf(seen, v) ==> Ignores(x)
  {
  }

  /** From states that differ only in the buffer, a queue takes the same steps and gets
      the same answers. */
  lemma {:induction false} ReleasingBlind(a: seq<Action>, b: seq<Action>, queue: seq<Event>, store: nat -> Reply, k: nat)
    returns (xs: seq<Action>)
    requires k <= |queue| && Blind(Exec(a)) == Blind(Exec(b)) && Exec(a).process.Up?
    ensures forall x :: x in xs ==> Ignores(x)
    ensures Releasing(a, queue, store, k).acts == a + xs && Releasing(b, queue, store, k).acts == b + xs
    ensures Releasing(a, queue, store, k).answers == Releasing(b, queue, store, k).answers
    decreases k
  {
    hide Exec, Releasing, PathOf, AnswerTo, Seen, Ignores;
    if k == 0 {
      xs := [];
      ReleasingNone(a, queue, store);
      ReleasingNone(b, queue, store);
      assert a + xs == a && b + xs == b;
    } else {
      var ys := ReleasingBlind(a, b, queue, store, k - 1);
      ExecBlind(a, b, ys);
      var p, q := Exec(a + ys).process, Exec(b + ys).process;
      assert q.Up? && p.window == q.window && p.cfg == q.cfg && p.st == q.st;
      ReleasingStep(a, queue, store, k, p);
      ReleasingStep(b, queue, store, k, q);
      var step := PathOf(Seen(p.window, queue[k - 1]), store(k - 1));
      PathIgnores(Seen(p.window, queue[k - 1]), store(k - 1));
      xs := ys + step;
      assert a + ys + step == a + xs && b + ys + step == b + xs;
    }
  }

  /** Two runs that have staged the same events in different orders release them to the
      same answers and the same state, and keep the same events back. */
  lemma StagingOrderFree(a: seq<Action>, b: seq<Action>, upto: nat, store: nat -> Reply)
    requires Blind(Exec(a)) == Blind(Exec(b)) && Exec(a).process.Up? && Exec(a).process.phase.Idle?
    requires multiset(Exec(a).process.pending) == multiset(Exec(b).process.pending)
    requires KeysTell(Released(Exec(a).process.pending, upto))
    ensures var x := Flushed(a, Exec(a).process.pending, upto, store);
      var y := Flushed(b, Exec(b).process.pending, upto, store);
      && x.answers == y.answers && Blind(Exec(x.acts)) == Blind(Exec(y.acts))
      && Exec(x.acts).process.Up? && Exec(y.acts).process.Up?
      && multiset(Exec(x.acts).process.pending) == multiset(Exec(y.acts).process.pending)
  {
    hide Exec, Releasing, KeysTell, Released, Retained, Sort;
    var p, q := Exec(a).process.pending, Exec(b).process.pending;
    SameQueue(p, q, upto);
    PermutedRelease(p, q, upto);
    BeginBlind(a, b, upto);
    var queue := Queue(p, upto);
    var a', b' := a + [Begin(upto)], b + [Begin(upto)];
    var xs := ReleasingBlind(a', b', queue, store, |queue|);
    assert a' + xs + [Finish] == a' + (xs + [Finish]) && b' + xs + [Finish] == b' + (xs + [Finish]);
    ExecBlind(a', b', xs + [Finish]);
    ExecBlind(b', a', xs + [Finish]);
  }

  lemma BeginBlind(a: seq<Action>, b: seq<Action>, upto: nat)
    requires Blind(Exec(a)) == Blind(Exec(b)) && Exec(a).process.Up? && Exec(a).process.phase.Idle?
    requires Queue(Exec(a).process.pending, upto) == Queue(Exec(b).process.pending, upto)
    ensures Blind(Exec(a + [Begin(upto)])) == Blind(Exec(b + [Begin(upto)]))
    ensures Exec(a + [Begin(upto)]).process.Up? && Exec(b + [Begin(upto)]).process.Up?
    ensures Exec(a + [Begin(upto)]).process.pending == Retained(Exec(a).process.pending, upto)
    ensures Exec(b + [Begin(upto)]).process.pending == Retained(Exec(b).process.pending, upto)
  {
    hide Exec, Released, Retained, Sort;
    BeginEffect(a, Exec(a), upto);
    BeginEffect(b, Exec(b), upto);
  }

  // ---------------------------------------------------------------------
  // Batches.
  // ---------------------------------------------------------------------

  /** An event that admission does not turn away for its own sake. */
  predicate Welcome(p: Process, e: Event)
    requires p.Up?
  {
    Complete(e) && Sealed(p.cfg, e) && !Seen(p.window, e) && e.at > p.st.watermark
  }

  /** The welcome events of a batch, in order. */
  function Welcomed(p: Process, es: seq<Event>): seq<Event>
    requires p.Up?
  {
    if es == [] then []
    else
      var n := |es| - 1;
      Welcomed(p, es[..n]) + (if Welcome(p, es[n]) then [es[n]] else [])
  }

  /** How many events the buffer still takes. */
  function Room(p: Process): nat
    requires p.Up?
  {
    if |p.pending| < p.cfg.bounds.maxBatchEvents then p.cfg.bounds.maxBatchEvents - |p.pending| else 0
  }

  /** The admitted events are the first welcome ones, as many as there is room for. */
  lemma {:induction false} AdmittedIs(p: Process, es: seq<Event>)
    requires p.Up?
    ensures Admitted(p, es) == Welcomed(p, es)[..Min(Room(p), |Welcomed(p, es)|)]
    decreases |es|
  {
    hide Welcome;
    if es != [] {
      var n := |es| - 1;
      AdmittedIs(p, es[..n]);
      StageableIs(p, Admitted(p, es[..n]), es[n]);
      hide Stageable;
      var w := Welcomed(p, es[..n]);
      assert (w + [es[n]])[..|w|] == w;
    }
  }

  lemma StageableIs(p: Process, before: seq<Event>, e: Event)
    requires p.Up?
    ensures Stageable(p.(pending := p.pending + before), e) <==> Welcome(p, e) && |before| < Room(p)
  {
    hide Seen;
  }

  lemma {:induction false} WelcomedJoin(p: Process, es: seq<Event>, fs: seq<Event>)
    requires p.Up?
    ensures Welcomed(p, es + fs) == Welcomed(p, es) + Welcomed(p, fs)
    decreases |fs|
  {
    hide Welcome;
    if fs == [] {
      assert es + fs == es;
    } else {
      var n := |fs| - 1;
      assert (es + fs)[..|es| + n] == es + fs[..n] && (es + fs)[|es| + n] == fs[n];
      WelcomedJoin(p, es, fs[..n]);
    }
  }

  lemma {:induction false} WelcomedCount(p: Process, es: seq<Event>, e: Event)
    requires p.Up?
    ensures multiset(Welcomed(p, es))[e] == if Welcome(p, e) then multiset(es)[e] else 0
    decreases |es|
  {
    hide Welcome;
    if es != [] {
      var n := |es| - 1;
      WelcomedCount(p, es[..n], e);
      assert es == es[..n] + [es[n]];
    }
  }

  /** Permuted batches have the same welcome events. */
  lemma WelcomedPermuted(p: Process, es: seq<Event>, fs: seq<Event>)
    requires p.Up? && multiset(es) == multiset(fs)
    ensures multiset(Welcomed(p, es)) == multiset(Welcomed(p, fs)) && |Welcomed(p, es)| == |Welcomed(p, fs)|
  {
    hide Welcome, Welcomed;
    forall e ensures multiset(Welcomed(p, es))[e] == multiset(Welcomed(p, fs))[e] {
      WelcomedCount(p, es, e);
      WelcomedCount(p, fs, e);
    }
    assert |multiset(Welcomed(p, es))| == |Welcomed(p, es)| && |multiset(Welcomed(p, fs))| == |Welcomed(p, fs)|;
  }

  /** Everything fits, nothing does, or there is nothing to choose between. */
  predicate NoChoice(w: seq<Event>, room: nat) {
    |w| <= room || room == 0 || forall i :: 0 <= i < |w| ==> w[i] == w[0]
  }

  lemma ChoiceFree(w: seq<Event>, v: seq<Event>, room: nat)
    requires multiset(w) == multiset(v) && |w| == |v| && NoChoice(w, room)
    ensures multiset(w[..Min(room, |w|)]) == multiset(v[..Min(room, |v|)])
  {
    if |w| <= room {
      assert w[..|w|] == w && v[..|v|] == v;
    } else if room > 0 {
      MultisetMembers(w, v);
      assert w[0] in w;
      forall i | 0 <= i < |v| ensures v[i] == w[0] { assert v[i] in v; }
      assert w[..room] == v[..room];
    }
  }

  function Others(es: seq<Event>, x: Event): seq<Event> {
    if es == [] then []
    else
      var n := |es| - 1;
      Others(es[..n], x) + (if es[n] == x then [] else [es[n]])
  }

  lemma {:induction false} OthersCount(es: seq<Event>, x: Event, e: Event)
    ensures multiset(Others(es, x))[e] == if e == x then 0 else multiset(es)[e]
    decreases |es|
  {
    if es != [] {
      var n := |es| - 1;
      OthersCount(es[..n], x, e);
      assert es == es[..n] + [es[n]];
    }
  }

  function Copies(x: Event, c: nat): seq<Event> { seq(c, _ => x) }

  lemma {:induction false} CopiesCount(x: Event, c: nat, e: Event)
    ensures multiset(Copies(x, c))[e] == if e == x then c else 0
  {
    if c > 0 {
      CopiesCount(x, c - 1, e);
      assert Copies(x, c) == Copies(x, c - 1) + [x];
    }
  }

  lemma {:induction false} WelcomedCopies(p: Process, x: Event, c: nat)
    requires p.Up? && Welcome(p, x)
    ensures Welcomed(p, Copies(x, c)) == Copies(x, c)
  {
    hide Welcome;
    if c > 0 {
      WelcomedCopies(p, x, c - 1);
      assert Copies(x, c)[..c - 1] == Copies(x, c - 1) && Copies(x, c)[c - 1] == x;
      assert Copies(x, c) == Copies(x, c - 1) + [x];
    }
  }

  /** All copies of one event in front of the rest, or behind it. */
  lemma Gathered(es: seq<Event>, x: Event)
    ensures var c, rest := multiset(es)[x], Others(es, x);
      multiset(Copies(x, c) + rest) == multiset(es) && multiset(rest + Copies(x, c)) == multiset(es)
  {
    var c, rest := multiset(es)[x], Others(es, x);
    hide Others, Copies;
    forall e ensures multiset(Copies(x, c) + rest)[e] == multiset(es)[e] {
      OthersCount(es, x, e);
      CopiesCount(x, c, e);
    }
    assert multiset(rest + Copies(x, c)) == multiset(Copies(x, c) + rest);
  }

  /** In front, the copies take what room there is; behind, only what the rest leaves. */
  lemma FrontAndBack(x: Event, c: nat, rest: seq<Event>, room: nat)
    requires x !in rest && rest != [] && c > 0 && 0 < room < c + |rest|
    ensures multiset((Copies(x, c) + rest)[..room]) != multiset((rest + Copies(x, c))[..room])
  {
    var front, back := (Copies(x, c) + rest)[..room], (rest + Copies(x, c))[..room];
    if room <= c {
      assert front == Copies(x, room);
    } else {
      assert front == Copies(x, c) + rest[..room - c];
    }
    if room <= |rest| {
      assert back == rest[..room];
      CopiesCount(x, 0, x);
    } else {
      assert back == rest + Copies(x, room - |rest|);
      CopiesCount(x, room - |rest|, x);
    }
    CopiesCount(x, Min(room, c), x);
    AbsentPrefix(rest, x);
    hide Copies;
  }

  lemma AbsentPrefix(rest: seq<Event>, x: Event)
    requires x !in rest
    ensures multiset(rest)[x] == 0 && forall k :: 0 <= k <= |rest| ==> multiset(rest[..k])[x] == 0
  {
    forall k | 0 <= k <= |rest| ensures x !in rest[..k] { }
  }

  lemma OthersWelcome(p: Process, es: seq<Event>, x: Event)
    requires p.Up?
    ensures x !in Welcomed(p, Others(es, x))
  {
    hide Welcome, Welcomed, Others;
    WelcomedCount(p, Others(es, x), x);
    OthersCount(es, x, x);
    assert x in Welcomed(p, Others(es, x)) <==> x in multiset(Welcomed(p, Others(es, x)));
  }

  /** Two arrangements of one batch that admit different events. */
  lemma Contested(p: Process, es: seq<Event>) returns (fs: seq<Event>, gs: seq<Event>)
    requires p.Up? && !NoChoice(Welcomed(p, es), Room(p))
    ensures multiset(fs) == multiset(es) && multiset(gs) == multiset(es)
    ensures multiset(Admitted(p, fs)) != multiset(Admitted(p, gs))
  {
    hide Welcome, Welcomed, Admitted, Room;
    var w, room := Welcomed(p, es), Room(p);
    var x := w[0];
    var c, rest := multiset(es)[x], Others(es, x);
    fs, gs := Copies(x, c) + rest, rest + Copies(x, c);
    Gathered(es, x);
    WelcomedCount(p, es, x);
    assert x in multiset(w);
    WelcomedCopies(p, x, c);
    WelcomedJoin(p, Copies(x, c), rest);
    WelcomedJoin(p, rest, Copies(x, c));
    WelcomedPermuted(p, es, fs);
    OthersWelcome(p, es, x);
    AdmittedIs(p, fs);
    AdmittedIs(p, gs);
    WelcomedPermuted(p, es, gs);
    var v := Welcomed(p, rest);
    hide Others;
    NotAllCopies(w, x, c, v);
    FrontAndBack(x, c, v, room);
  }

  lemma NotAllCopies(w: seq<Event>, x: Event, c: nat, v: seq<Event>)
    requires w != [] && w[0] == x && exists i :: 0 <= i < |w| && w[i] != x
    requires multiset(w) == multiset(Copies(x, c) + v) && |w| == |Copies(x, c) + v|
    ensures v != [] && |w| == c + |v|
  {
    MultisetMembers(w, Copies(x, c) + v);
    var i :| 0 <= i < |w| && w[i] != x;
    assert w[i] in w;
    assert w[i] in v;
  }

  /** Which events of a batch are admitted is the same for every order of the batch
      exactly when its welcome events all fit, none does, or they are all the same. */
  lemma BatchOrderFreeExactly(p: Process, es: seq<Event>)
    requires p.Up?
    ensures (forall fs :: multiset(fs) == multiset(es) ==> multiset(Admitted(p, fs)) == multiset(Admitted(p, es)))
       <==> NoChoice(Welcomed(p, es), Room(p))
  {
    hide Welcomed, Admitted, Room, NoChoice;
    if NoChoice(Welcomed(p, es), Room(p)) {
      forall fs | multiset(fs) == multiset(es) ensures multiset(Admitted(p, fs)) == multiset(Admitted(p, es)) {
        WelcomedPermuted(p, es, fs);
        AdmittedIs(p, es);
        AdmittedIs(p, fs);
        ChoiceFree(Welcomed(p, es), Welcomed(p, fs), Room(p));
      }
    } else {
      var fs, gs := Contested(p, es);
    }
  }

  /** With room for one, two welcome events of a batch are both admitted in neither
      order: whichever comes first is. */
  lemma FullBufferPicksFirst(p: Process, e: Event, f: Event)
    requires p.Up? && |p.pending| + 1 == p.cfg.bounds.maxBatchEvents && Welcome(p, e) && Welcome(p, f)
    ensures Admitted(p, [e, f]) == [e] && Admitted(p, [f, e]) == [f]
  {
    hide Seen;
    AdmittedPair(p, e, f);
    AdmittedPair(p, f, e);
  }

  lemma AdmittedPair(p: Process, e: Event, f: Event)
    requires p.Up? && |p.pending| + 1 == p.cfg.bounds.maxBatchEvents && Welcome(p, e)
    ensures Admitted(p, [e, f]) == [e]
  {
    hide Seen;
    assert [e, f][..1] == [e] && [e][..0] == [];
    assert Admitted(p, [e]) == [e] by { assert p.pending + [] == p.pending; }
  }
}
