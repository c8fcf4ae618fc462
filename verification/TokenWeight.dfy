/** What two reconciliations have in common that start from one table under different
    issuers: the same decisions, and tokens that can be weighed against each other. */
module TokenWeight {
  import opened Base
  import opened Order
  import opened Model
  import opened Authority
  import opened Reducers
  import opened Lifecycle
  import opened Table

  // ---------------------------------------------------------------------
  // The serials of all tokens of a table, added up.
  // ---------------------------------------------------------------------

  function RowWeight(attempts: seq<Attempt>): nat {
    if attempts == [] then 0 else RowWeight(attempts[..|attempts| - 1]) + attempts[|attempts| - 1].fence.serial
  }

  function Weight(s: seq<Instance>): nat {
    if s == [] then 0 else Weight(s[..|s| - 1]) + RowWeight(s[|s| - 1].attempts)
  }

  lemma {:induction false} WeightUpdate(s: seq<Instance>, k: nat, j: Instance)
    requires k < |s|
    ensures Weight(s[k := j]) + RowWeight(s[k].attempts) == Weight(s) + RowWeight(j.attempts)
    decreases |s|
  {
    hide RowWeight;
    var n := |s| - 1;
    if k < n {
      assert s[k := j][..n] == s[..n][k := j];
      WeightUpdate(s[..n], k, j);
    } else {
      assert s[k := j][..n] == s[..n];
    }
  }

  lemma WeightAppend(s: seq<Instance>, j: Instance)
    ensures Weight(s + [j]) == Weight(s) + RowWeight(j.attempts)
  {
    hide RowWeight;
    assert (s + [j])[..|s|] == s;
  }

  lemma {:induction false} WeightFront(x: Instance, s: seq<Instance>)
    ensures Weight([x] + s) == RowWeight(x.attempts) + Weight(s)
    decreases |s|
  {
    hide RowWeight;
    if s == [] {
      assert [x] + s == [x] && [x][..0] == [];
      assert Weight([]) == 0;
    } else {
      var n := |s| - 1;
      assert ([x] + s)[..n + 1] == [x] + s[..n];
      WeightFront(x, s[..n]);
    }
  }

  lemma {:induction false} WeightInsert(x: Instance, s: seq<Instance>)
    ensures Weight(Insert(x, s, InstanceLess)) == RowWeight(x.attempts) + Weight(s)
    decreases |s|
  {
    hide RowWeight, Weight, InstanceLess;
    if s == [] || InstanceLess(x, s[0]) {
      WeightFront(x, s);
    } else {
      WeightInsert(x, s[1..]);
      WeightFront(s[0], Insert(x, s[1..], InstanceLess));
      WeightFront(s[0], s[1..]);
      assert s == [s[0]] + s[1..];
    }
  }

  lemma {:induction false} WeightSort(s: seq<Instance>)
    ensures Weight(Sort(s, InstanceLess)) == Weight(s)
    decreases |s|
  {
    hide RowWeight, Insert;
    if s != [] {
      var n := |s| - 1;
      WeightSort(s[..n]);
      WeightInsert(s[n], Sort(s[..n], InstanceLess));
    }
  }

  lemma {:induction false} RowWeightSame(a: seq<Attempt>, b: seq<Attempt>)
    requires |a| == |b| && forall k :: 0 <= k < |a| ==> a[k].fence == b[k].fence
    ensures RowWeight(a) == RowWeight(b)
    decreases |a|
  {
    if a != [] { RowWeightSame(a[..|a| - 1], b[..|b| - 1]); }
  }

  lemma {:induction false} WeightSame(a: seq<Instance>, b: seq<Instance>)
    requires |a| == |b| && forall k :: 0 <= k < |a| ==> a[k].attempts == b[k].attempts
    ensures Weight(a) == Weight(b)
    decreases |a|
  {
    hide RowWeight;
    if a != [] { WeightSame(a[..|a| - 1], b[..|b| - 1]); }
  }

  lemma OpenWeight(attempts: seq<Attempt>, token: Token, phase: Model.Lifecycle, at: nat)
    ensures RowWeight(OpenAttempt(attempts, token, phase, at)) == RowWeight(attempts) + token.serial
  {
    assert OpenAttempt(attempts, token, phase, at)[..|attempts|] == attempts;
  }

  lemma CancelWeight(attempts: seq<Attempt>, at: nat, reason: Reason)
    ensures RowWeight(CancelAttempts(attempts, at, reason)) == RowWeight(attempts)
  {
    RowWeightSame(CancelAttempts(attempts, at, reason), attempts);
  }

  // ---------------------------------------------------------------------
  // Tables that differ only in tokens.
  // ---------------------------------------------------------------------

  function Untoken(a: Attempt): Attempt { a.(fence := Token(0, 0, 0)) }

  function Plain(i: Instance): Instance { i.(attempts := Map(Untoken, i.attempts)) }

  /** The issuer `g` remembers at most what `f` does. */
  ghost predicate Dominates(f: Fences, g: Fences) {
    && g.epoch == f.epoch && g.boot == f.boot
    && forall k :: k in g.serials ==> k in f.serials && 0 < g.serials[k] <= f.serials[k]
  }

  predicate Forgot(f: Fences, g: Fences, id: Id) { id in f.serials && id !in g.serials }

  ghost predicate Shadows(v: Work, w: Work) {
    Map(Plain, v.instances) == Map(Plain, w.instances) && Dominates(v.fences, w.fences) && Positive(v.fences)
  }

  lemma PlainParts(i: Instance, j: Instance)
    requires Plain(i) == Plain(j)
    ensures i.id == j.id && i.dpu == j.dpu && i.version == j.version && i.state == j.state && i.service == j.service
    ensures i.group == j.group && |i.attempts| == |j.attempts| && HasOpen(i) == HasOpen(j)
    ensures NextNumber(i.attempts) == NextNumber(j.attempts)
    ensures forall k :: 0 <= k < |i.attempts| ==> Untoken(i.attempts[k]) == Untoken(j.attempts[k])
  {
    var a, b := Map(Untoken, i.attempts), Map(Untoken, j.attempts);
    assert Plain(i).attempts == a && Plain(j).attempts == b;
    assert Plain(i).id == i.id && Plain(j).id == j.id && Plain(i).state == i.state && Plain(j).state == j.state;
    assert Plain(i).dpu == i.dpu && Plain(j).dpu == j.dpu && Plain(i).version == i.version && Plain(j).version == j.version;
    assert Plain(i).service == i.service && Plain(j).service == j.service && Plain(i).group == i.group && Plain(j).group == j.group;
    forall k | 0 <= k < |a| ensures Untoken(i.attempts[k]) == Untoken(j.attempts[k]) { assert a[k] == b[k]; }
    if a != [] {
      var n := |a| - 1;
      assert Untoken(i.attempts[n]).outcome == i.attempts[n].outcome && Untoken(j.attempts[n]).outcome == j.attempts[n].outcome;
      assert Untoken(i.attempts[n]).number == i.attempts[n].number && Untoken(j.attempts[n]).number == j.attempts[n].number;
    }
  }

  lemma PlainIds(v: seq<Instance>, w: seq<Instance>)
    requires Map(Plain, v) == Map(Plain, w)
    ensures |v| == |w| && Ids(v) == Ids(w)
  {
    forall k | 0 <= k < |v| ensures Ids(v)[k] == Ids(w)[k] {
      assert Map(Plain, v)[k] == Map(Plain, w)[k];
      PlainParts(v[k], w[k]);
    }
  }

  lemma PlainUpdate(v: seq<Instance>, w: seq<Instance>, k: nat, i: Instance, j: Instance)
    requires Map(Plain, v) == Map(Plain, w) && k < |v| && Plain(i) == Plain(j)
    ensures |w| == |v| && Map(Plain, v[k := i]) == Map(Plain, w[k := j])
  {
    hide Plain;
    PlainSizes(v, w);
    var x, y := Map(Plain, v[k := i]), Map(Plain, w[k := j]);
    forall m | 0 <= m < |v| ensures x[m] == y[m] { assert Map(Plain, v)[m] == Map(Plain, w)[m]; }
  }

  lemma PlainSizes(v: seq<Instance>, w: seq<Instance>)
    requires Map(Plain, v) == Map(Plain, w)
    ensures |v| == |w|
  {
  }

  lemma PlainAppend(v: seq<Instance>, w: seq<Instance>, i: Instance, j: Instance)
    requires Map(Plain, v) == Map(Plain, w) && Plain(i) == Plain(j)
    ensures Map(Plain, v + [i]) == Map(Plain, w + [j])
  {
    hide Plain;
    PlainSizes(v, w);
    assert Map(Plain, v + [i]) == Map(Plain, v) + [Plain(i)] && Map(Plain, w + [j]) == Map(Plain, w) + [Plain(j)];
  }

  lemma PlainOpen(i: seq<Attempt>, j: seq<Attempt>, s: Token, t: Token, phase: Model.Lifecycle, at: nat)
    requires |i| == |j| && NextNumber(i) == NextNumber(j)
    requires forall k :: 0 <= k < |i| ==> Untoken(i[k]) == Untoken(j[k])
    ensures Map(Untoken, OpenAttempt(i, s, phase, at)) == Map(Untoken, OpenAttempt(j, t, phase, at))
  {
  }

  lemma PlainCancel(i: seq<Attempt>, j: seq<Attempt>, at: nat, reason: Reason)
    requires |i| == |j| && forall k :: 0 <= k < |i| ==> Untoken(i[k]) == Untoken(j[k])
    ensures var x, y := CancelAttempts(i, at, reason), CancelAttempts(j, at, reason);
      |x| == |y| && (forall k :: 0 <= k < |x| ==> Untoken(x[k]) == Untoken(y[k])) && Map(Untoken, x) == Map(Untoken, y)
    ensures NextNumber(i) == NextNumber(j) ==>
      NextNumber(CancelAttempts(i, at, reason)) == NextNumber(CancelAttempts(j, at, reason))
  {
    var x, y := CancelAttempts(i, at, reason), CancelAttempts(j, at, reason);
    forall k | 0 <= k < |x| ensures Untoken(x[k]) == Untoken(y[k]) {
      assert Untoken(i[k]) == Untoken(j[k]) && Untoken(i[k]).outcome == i[k].outcome && Untoken(j[k]).outcome == j[k].outcome;
      assert Untoken(CancelAttempt(i[k], at, reason)) == CancelAttempt(Untoken(i[k]), at, reason);
      assert Untoken(CancelAttempt(j[k], at, reason)) == CancelAttempt(Untoken(j[k]), at, reason);
    }
  }

  // ---------------------------------------------------------------------
  // One issue.
  // ---------------------------------------------------------------------

  /** Under the issuer that remembers less, an issue fails only if it fails under the other,
      and the serial is no higher: the same if both remember the instance alike, lower if
      only the other remembers it. */
  lemma IssueShadows(f: Fences, g: Fences, id: Id)
    requires Dominates(f, g) && Positive(f)
    ensures Issue(g, id).Err? ==> Issue(f, id).Err?
    ensures Issue(f, id).Ok? ==>
      var x, y := Issue(f, id).value, Issue(g, id).value;
      && Dominates(x.fences, y.fences) && Positive(x.fences)
      && 0 < y.token.serial <= x.token.serial && (Forgot(f, g, id) ==> y.token.serial < x.token.serial)
      && (forall k :: Forgot(x.fences, y.fences, k) <==> k != id && Forgot(f, g, k))
    ensures Issue(g, id).Ok? ==> Issue(g, id).value.token.serial > 0
  {
  }

  // ---------------------------------------------------------------------
  // One planned replica.
  // ---------------------------------------------------------------------

  /** Whether the planned replica takes a token. */
  predicate Issues(s: seq<Instance>, slot: Slot, id: Id) {
    var k := FindInstance(s, id);
    k.None? || Replaces(s[k.value], slot) || !HasOpen(s[k.value])
  }

  lemma FindPlain(v: seq<Instance>, w: seq<Instance>, id: Id)
    requires Map(Plain, v) == Map(Plain, w)
    ensures |v| == |w| && FindInstance(v, id) == FindInstance(w, id)
    ensures FindInstance(v, id).Some? ==>
      FindInstance(v, id).value < |v| && Plain(v[FindInstance(v, id).value]) == Plain(w[FindInstance(v, id).value])
    ensures FindInstance(v, id).Some? ==> v[FindInstance(v, id).value].id == id
  {
    hide Plain;
    PlainIds(v, w);
    var k := LowerBound(Ids(v), id);
    if k < |v| {
      assert Ids(v)[k] == v[k].id && Ids(w)[k] == w[k].id;
      assert Map(Plain, v)[k] == Map(Plain, w)[k];
    }
  }

  lemma PlainMoved(i: Instance, j: Instance, slot: Slot, plan: Plan, s: Token, t: Token, at: nat)
    requires Plain(i) == Plain(j)
    ensures Replaces(i, slot) == Replaces(j, slot) && HasOpen(i) == HasOpen(j)
    ensures Plain(ReplaceInstance(i, slot, plan, s, at)) == Plain(ReplaceInstance(j, slot, plan, t, at))
    ensures Plain(Reattempt(i, plan, s, at)) == Plain(Reattempt(j, plan, t, at))
    ensures Plain(i.(deploymentGeneration := plan.generation)) == Plain(j.(deploymentGeneration := plan.generation))
  {
    PlainParts(i, j);
    var reason := if Terminal(i.state) then SupersededEffect else AttemptSuperseded;
    PlainCancel(i.attempts, j.attempts, at, reason);
    PlainOpen(CancelAttempts(i.attempts, at, reason), CancelAttempts(j.attempts, at, reason), s, t, Authorized, at);
    PlainOpen(i.attempts, j.attempts, s, t, Authorized, at);
    hide CancelAttempts, OpenAttempt, NextNumber, Untoken;
    assert i == Plain(i).(attempts := i.attempts) && j == Plain(j).(attempts := j.attempts);
  }

  lemma MovedWeight(i: Instance, slot: Slot, plan: Plan, t: Token, at: nat)
    ensures RowWeight(ReplaceInstance(i, slot, plan, t, at).attempts) == RowWeight(i.attempts) + t.serial
    ensures RowWeight(Reattempt(i, plan, t, at).attempts) == RowWeight(i.attempts) + t.serial
  {
    var reason := if Terminal(i.state) then SupersededEffect else AttemptSuperseded;
    CancelWeight(i.attempts, at, reason);
    OpenWeight(CancelAttempts(i.attempts, at, reason), t, Authorized, at);
    OpenWeight(i.attempts, t, Authorized, at);
    hide RowWeight, CancelAttempts, OpenAttempt;
  }

  /** What one planned replica adds: the serial of the token it takes. */
  lemma SlotWeight(w: Work, s: Slot, plan: Plan, group: Id, at: nat, maxInstances: nat, hash: string -> string)
    requires ReconcileSlot(w, s, plan, group, at, maxInstances, hash).Ok?
    ensures var x := ReconcileSlot(w, s, plan, group, at, maxInstances, hash).value;
      var id := SlotId(hash, group, s);
      && (Issues(w.instances, s, id) ==>
            Issue(w.fences, id).Ok? && x.fences == Issue(w.fences, id).value.fences
            && Weight(x.instances) == Weight(w.instances) + Issue(w.fences, id).value.token.serial)
      && (!Issues(w.instances, s, id) ==> x.fences == w.fences && Weight(x.instances) == Weight(w.instances))
  {
    hide SlotId, Issue, Weight;
    var x := ReconcileSlot(w, s, plan, group, at, maxInstances, hash).value;
    var id := SlotId(hash, group, s);
    FindHits(w.instances, id);
    var k := FindInstance(w.instances, id);
    hide FindInstance;
    if k.None? {
      var j := CreateInstance(id, s, plan, group, Issue(w.fences, id).value.token, at);
      OpenWeight([], Issue(w.fences, id).value.token, Authorized, at);
      WeightAppend(w.instances, j);
      assert RowWeight([]) == 0;
    } else {
      var i := w.instances[k.value];
      if Issue(w.fences, id).Ok? { MovedWeight(i, s, plan, Issue(w.fences, id).value.token, at); }
      hide ReplaceInstance, Reattempt, Replaces, HasOpen, RowWeight;
      WeightUpdate(w.instances, k.value, x.instances[k.value]);
    }
  }

  /** The step under two issuers, as far as it goes under both. */
  lemma SlotPlain(v: Work, w: Work, s: Slot, plan: Plan, group: Id, at: nat, maxInstances: nat, hash: string -> string)
    requires Shadows(v, w)
    ensures var x := ReconcileSlot(v, s, plan, group, at, maxInstances, hash);
      var y := ReconcileSlot(w, s, plan, group, at, maxInstances, hash);
      var id := SlotId(hash, group, s);
      && Issues(v.instances, s, id) == Issues(w.instances, s, id)
      && (y.Err? ==> x.Err?)
      && (x.Ok? && y.Ok? ==> Map(Plain, x.value.instances) == Map(Plain, y.value.instances))
  {
    hide SlotId, Issue, Plain;
    var id := SlotId(hash, group, s);
    IssueShadows(v.fences, w.fences, id);
    FindPlain(v.instances, w.instances, id);
    var k := FindInstance(v.instances, id);
    hide FindInstance, Dominates, Positive;
    var p := if Issue(v.fences, id).Ok? then Issue(v.fences, id).value.token else Token(0, 0, 0);
    var q := if Issue(w.fences, id).Ok? then Issue(w.fences, id).value.token else Token(0, 0, 0);
    if k.None? {
      PlainCreated(id, s, plan, group, p, q, at);
      hide CreateInstance;
      PlainAppend(v.instances, w.instances, CreateInstance(id, s, plan, group, p, at), CreateInstance(id, s, plan, group, q, at));
    } else {
      var i, j := v.instances[k.value], w.instances[k.value];
      PlainMoved(i, j, s, plan, p, q, at);
      hide ReplaceInstance, Reattempt, Replaces, HasOpen;
      PlainUpdate(v.instances, w.instances, k.value, ReplaceInstance(i, s, plan, p, at), ReplaceInstance(j, s, plan, q, at));
      PlainUpdate(v.instances, w.instances, k.value, Reattempt(i, plan, p, at), Reattempt(j, plan, q, at));
      PlainUpdate(v.instances, w.instances, k.value,
                  i.(deploymentGeneration := plan.generation), j.(deploymentGeneration := plan.generation));
    }
  }

  lemma PlainCreated(id: Id, s: Slot, plan: Plan, group: Id, p: Token, q: Token, at: nat)
    ensures Plain(CreateInstance(id, s, plan, group, p, at)) == Plain(CreateInstance(id, s, plan, group, q, at))
  {
    PlainOpen([], [], p, q, Authorized, at);
  }

  /** How far ahead `v` gets of `w`, from `v0` and `w0`. */
  ghost predicate Ahead(v0: Work, w0: Work, v: Work, w: Work, strictly: bool) {
    if strictly then Weight(v.instances) + Weight(w0.instances) > Weight(w.instances) + Weight(v0.instances)
    else Weight(v.instances) + Weight(w0.instances) >= Weight(w.instances) + Weight(v0.instances)
  }

  lemma SlotShadows(v: Work, w: Work, s: Slot, plan: Plan, group: Id, at: nat, maxInstances: nat, hash: string -> string)
    requires Shadows(v, w)
    ensures var x := ReconcileSlot(v, s, plan, group, at, maxInstances, hash);
      var y := ReconcileSlot(w, s, plan, group, at, maxInstances, hash);
      var id := SlotId(hash, group, s);
      var takes := Issues(w.instances, s, id);
      && (y.Err? ==> x.Err?)
      && (y.Ok? ==> Weight(y.value.instances) >= Weight(w.instances) + if takes then 1 else 0)
      && (x.Ok? ==>
            && Shadows(x.value, y.value)
            && Ahead(v, w, x.value, y.value, takes && Forgot(v.fences, w.fences, id))
            && (forall k :: Forgot(x.value.fences, y.value.fences, k) <==> Forgot(v.fences, w.fences, k) && !(takes && k == id)))
  {
    var x := ReconcileSlot(v, s, plan, group, at, maxInstances, hash);
    var y := ReconcileSlot(w, s, plan, group, at, maxInstances, hash);
    var id := SlotId(hash, group, s);
    SlotPlain(v, w, s, plan, group, at, maxInstances, hash);
    IssueShadows(v.fences, w.fences, id);
    if y.Ok? { SlotWeight(w, s, plan, group, at, maxInstances, hash); }
    if x.Ok? { SlotWeight(v, s, plan, group, at, maxInstances, hash); }
    hide ReconcileSlot, SlotId, Issue, Weight, Issues, Plain, Map;
  }

  /** The step under two issuers that agree on what both remember, when it takes no token
      that only one of them remembers. */
  ghost predicate Agree(f: Fences, g: Fences) {
    && g.epoch == f.epoch && g.boot == f.boot && Positive(f)
    && forall k :: k in g.serials ==> k in f.serials && g.serials[k] == f.serials[k]
  }

  lemma AgreeDominates(f: Fences, g: Fences)
    requires Agree(f, g)
    ensures Dominates(f, g)
  {
  }

  lemma IssueAgrees(f: Fences, g: Fences, id: Id)
    requires Agree(f, g) && !Forgot(f, g, id)
    ensures Issue(f, id).Ok? == Issue(g, id).Ok?
    ensures Issue(f, id).Ok? ==>
      var x, y := Issue(f, id).value, Issue(g, id).value;
      x.token == y.token && Agree(x.fences, y.fences) && forall k :: Forgot(x.fences, y.fences, k) <==> Forgot(f, g, k)
  {
  }

  lemma SlotAgrees(v: Work, w: Work, s: Slot, plan: Plan, group: Id, at: nat, maxInstances: nat, hash: string -> string)
    requires v.instances == w.instances && Agree(v.fences, w.fences)
    requires var id := SlotId(hash, group, s); !(Issues(w.instances, s, id) && Forgot(v.fences, w.fences, id))
    ensures var x := ReconcileSlot(v, s, plan, group, at, maxInstances, hash);
      var y := ReconcileSlot(w, s, plan, group, at, maxInstances, hash);
      && x.Ok? == y.Ok?
      && (x.Ok? ==> x.value.instances == y.value.instances && Agree(x.value.fences, y.value.fences)
                    && forall k :: Forgot(x.value.fences, y.value.fences, k) <==> Forgot(v.fences, w.fences, k))
  {
    hide SlotId, Issue, FindInstance, CreateInstance, ReplaceInstance, Reattempt;
    var id := SlotId(hash, group, s);
    if Issues(w.instances, s, id) { IssueAgrees(v.fences, w.fences, id); }
    hide Agree, Forgot;
  }

  // ---------------------------------------------------------------------
  // The first pass.
  // ---------------------------------------------------------------------

  /** The instances that take a token in the first pass. */
  function Taking(w: Work, slots: seq<Slot>, plan: Plan, group: Id, at: nat, maxInstances: nat, hash: string -> string): set<Id>
    decreases |slots|
  {
    if slots == [] then {}
    else
      var next := ReconcileSlot(w, slots[0], plan, group, at, maxInstances, hash);
      var id := SlotId(hash, group, slots[0]);
      (if Issues(w.instances, slots[0], id) then {id} else {})
        + (if next.Ok? then Taking(next.value, slots[1..], plan, group, at, maxInstances, hash) else {})
  }

  ghost predicate AnyForgot(f: Fences, g: Fences, ids: set<Id>) { exists id :: id in ids && Forgot(f, g, id) }

  lemma {:induction false} SlotsShadow(v: Work, w: Work, slots: seq<Slot>, plan: Plan, group: Id, at: nat, maxInstances: nat, hash: string -> string)
    requires Shadows(v, w)
    ensures var x := ReconcileSlots(v, slots, plan, group, at, maxInstances, hash);
      var y := ReconcileSlots(w, slots, plan, group, at, maxInstances, hash);
      var taking := Taking(w, slots, plan, group, at, maxInstances, hash);
      && (y.Err? ==> x.Err?)
      && (y.Ok? ==> Weight(y.value.instances) >= Weight(w.instances) + if taking != {} then 1 else 0)
      && (x.Ok? ==>
            && Shadows(x.value, y.value)
            && Ahead(v, w, x.value, y.value, AnyForgot(v.fences, w.fences, taking))
            && (forall k :: Forgot(x.value.fences, y.value.fences, k) <==> Forgot(v.fences, w.fences, k) && k !in taking))
    decreases |slots|
  {
    hide ReconcileSlot, SlotId, Weight, Issues, Shadows, Forgot;
    if slots != [] {
      SlotShadows(v, w, slots[0], plan, group, at, maxInstances, hash);
      var x := ReconcileSlot(v, slots[0], plan, group, at, maxInstances, hash);
      var y := ReconcileSlot(w, slots[0], plan, group, at, maxInstances, hash);
      if x.Ok? {
        SlotsShadow(x.value, y.value, slots[1..], plan, group, at, maxInstances, hash);
      } else if ReconcileSlots(w, slots, plan, group, at, maxInstances, hash).Ok? {
        ShadowPositive(v, w);
        SlotsGrow(w, slots, plan, group, at, maxInstances, hash);
      }
    }
  }

  lemma ShadowPositive(v: Work, w: Work)
    requires Shadows(v, w)
    ensures Positive(w.fences)
  {
    hide Map, Plain;
  }

  lemma {:induction false} SlotsGrow(w: Work, slots: seq<Slot>, plan: Plan, group: Id, at: nat, maxInstances: nat, hash: string -> string)
    requires Positive(w.fences) && ReconcileSlots(w, slots, plan, group, at, maxInstances, hash).Ok?
    ensures var y := ReconcileSlots(w, slots, plan, group, at, maxInstances, hash).value;
      Weight(y.instances) >= Weight(w.instances) + if Taking(w, slots, plan, group, at, maxInstances, hash) != {} then 1 else 0
    decreases |slots|
  {
    hide SlotId, Weight, Issues;
    if slots != [] {
      SelfShadows(w);
      SlotShadows(w, w, slots[0], plan, group, at, maxInstances, hash);
      hide ReconcileSlot;
      var y := ReconcileSlot(w, slots[0], plan, group, at, maxInstances, hash).value;
      SlotsGrow(y, slots[1..], plan, group, at, maxInstances, hash);
    }
  }

  lemma SelfShadows(w: Work)
    requires Positive(w.fences)
    ensures Shadows(w, w)
  {
  }

  lemma {:induction false} SlotsAgree(v: Work, w: Work, slots: seq<Slot>, plan: Plan, group: Id, at: nat, maxInstances: nat, hash: string -> string)
    requires v.instances == w.instances && Agree(v.fences, w.fences)
    requires !AnyForgot(v.fences, w.fences, Taking(w, slots, plan, group, at, maxInstances, hash))
    ensures var x := ReconcileSlots(v, slots, plan, group, at, maxInstances, hash);
      var y := ReconcileSlots(w, slots, plan, group, at, maxInstances, hash);
      && x.Ok? == y.Ok?
      && (x.Ok? ==> x.value.instances == y.value.instances && Agree(x.value.fences, y.value.fences)
                    && forall k :: Forgot(x.value.fences, y.value.fences, k) <==> Forgot(v.fences, w.fences, k))
    decreases |slots|
  {
    hide ReconcileSlot, SlotId, Issues, Agree, Forgot;
    if slots != [] {
      SlotAgrees(v, w, slots[0], plan, group, at, maxInstances, hash);
      var x := ReconcileSlot(v, slots[0], plan, group, at, maxInstances, hash);
      var y := ReconcileSlot(w, slots[0], plan, group, at, maxInstances, hash);
      if x.Ok? { SlotsAgree(x.value, y.value, slots[1..], plan, group, at, maxInstances, hash); }
    }
  }

  // ---------------------------------------------------------------------
  // The second pass.
  // ---------------------------------------------------------------------

  /** The instances that take a token to be withdrawn, from position `from` on. */
  function Leaving(s: seq<Instance>, from: nat, plan: Plan, group: Id, planned: seq<Id>): set<Id>
    requires from <= |s|
    decreases |s| - from
  {
    if from == |s| || plan.kind != Withdraw then {}
    else (if Retires(s[from], plan, group, planned) then {s[from].id} else {}) + Leaving(s, from + 1, plan, group, planned)
  }

  lemma {:induction false} LeavingUpdate(s: seq<Instance>, k: nat, j: Instance, from: nat, plan: Plan, group: Id, planned: seq<Id>)
    requires k < from <= |s|
    ensures Leaving(s[k := j], from, plan, group, planned) == Leaving(s, from, plan, group, planned)
    decreases |s| - from
  {
    hide Retires;
    if from < |s| { LeavingUpdate(s, k, j, from + 1, plan, group, planned); }
  }

  lemma RetireWeight(i: Instance, f: Fences, plan: Plan, at: nat)
    requires RetireInstance(i, f, plan, at).Ok?
    ensures var (j, g) := RetireInstance(i, f, plan, at).value;
      && j.id == i.id
      && (plan.kind == Withdraw ==>
            && Issue(f, i.id).Ok? && g == Issue(f, i.id).value.fences
            && RowWeight(j.attempts) == RowWeight(i.attempts) + Issue(f, i.id).value.token.serial)
      && (plan.kind != Withdraw ==> g == f && RowWeight(j.attempts) == RowWeight(i.attempts))
  {
    CancelWeight(i.attempts, at, QuiesceAsked);
    if plan.kind == Withdraw { OpenWeight(Quiesce(i, at).attempts, Issue(f, i.id).value.token, Quiescing, at); }
    hide RowWeight, CancelAttempts, OpenAttempt, Issue;
  }

  lemma RetirePlain(i: Instance, j: Instance, f: Fences, g: Fences, plan: Plan, at: nat)
    requires Plain(i) == Plain(j) && Dominates(f, g) && Positive(f)
    ensures RetireInstance(j, g, plan, at).Err? ==> RetireInstance(i, f, plan, at).Err?
    ensures RetireInstance(i, f, plan, at).Ok? && RetireInstance(j, g, plan, at).Ok? ==>
      Plain(RetireInstance(i, f, plan, at).value.0) == Plain(RetireInstance(j, g, plan, at).value.0)
  {
    PlainParts(i, j);
    IssueShadows(f, g, i.id);
    PlainCancel(i.attempts, j.attempts, at, QuiesceAsked);
    hide Dominates, Positive, Issue;
    var x, y := CancelAttempts(i.attempts, at, QuiesceAsked), CancelAttempts(j.attempts, at, QuiesceAsked);
    if Issue(f, i.id).Ok? {
      PlainOpen(x, y, Issue(f, i.id).value.token, Issue(g, i.id).value.token, Quiescing, at);
    }
    hide CancelAttempts, OpenAttempt, NextNumber, Untoken;
    assert i == Plain(i).(attempts := i.attempts) && j == Plain(j).(attempts := j.attempts);
  }

  lemma RetiresPlain(i: Instance, j: Instance, plan: Plan, group: Id, planned: seq<Id>)
    requires Plain(i) == Plain(j)
    ensures Retires(i, plan, group, planned) == Retires(j, plan, group, planned) && i.id == j.id
  {
    PlainParts(i, j);
  }

  /** One retired instance under two issuers. */
  lemma RetireShadows(v: Work, w: Work, k: nat, plan: Plan, at: nat)
    requires Shadows(v, w) && k < |v.instances| && k < |w.instances|
    ensures var id := w.instances[k].id;
      var takes := plan.kind == Withdraw;
      var x, y := RetireInstance(v.instances[k], v.fences, plan, at), RetireInstance(w.instances[k], w.fences, plan, at);
      && v.instances[k].id == id && (y.Err? ==> x.Err?)
      && (y.Ok? ==> Weight(w.instances[k := y.value.0]) >= Weight(w.instances) + if takes then 1 else 0)
      && (x.Ok? ==> var a, b := Work(v.instances[k := x.value.0], x.value.1), Work(w.instances[k := y.value.0], y.value.1);
            && Shadows(a, b) && Ahead(v, w, a, b, takes && Forgot(v.fences, w.fences, id))
            && (forall m :: Forgot(a.fences, b.fences, m) <==> Forgot(v.fences, w.fences, m) && !(takes && m == id)))
  {
    hide RetireInstance, Issue, RowWeight, Weight, Plain, Issues;
    var i, j := v.instances[k], w.instances[k];
    assert Map(Plain, v.instances)[k] == Map(Plain, w.instances)[k];
    PlainIds(v.instances, w.instances);
    assert Ids(v.instances)[k] == i.id && Ids(w.instances)[k] == j.id;
    RetirePlain(i, j, v.fences, w.fences, plan, at);
    IssueShadows(v.fences, w.fences, i.id);
    var x, y := RetireInstance(i, v.fences, plan, at), RetireInstance(j, w.fences, plan, at);
    if y.Ok? {
      RetireWeight(j, w.fences, plan, at);
      WeightUpdate(w.instances, k, y.value.0);
    }
    if x.Ok? {
      RetireWeight(i, v.fences, plan, at);
      WeightUpdate(v.instances, k, x.value.0);
      PlainUpdate(v.instances, w.instances, k, x.value.0, y.value.0);
    }
    hide Map;
  }

  lemma {:induction false} RetireFromShadows(v: Work, w: Work, from: nat, plan: Plan, group: Id, planned: seq<Id>, at: nat)
    requires Shadows(v, w) && from <= |v.instances| && |v.instances| == |w.instances|
    ensures var x := RetireFrom(v, from, plan, group, planned, at);
      var y := RetireFrom(w, from, plan, group, planned, at);
      var leaving := Leaving(w.instances, from, plan, group, planned);
      && (y.Err? ==> x.Err?)
      && (y.Ok? ==> Weight(y.value.instances) >= Weight(w.instances) + if leaving != {} then 1 else 0)
      && (x.Ok? ==> Ahead(v, w, x.value, y.value, AnyForgot(v.fences, w.fences, leaving)))
    decreases |v.instances| - from
  {
    hide RetireInstance, Weight, Shadows, Forgot, Retires;
    if from < |v.instances| {
      var i, j := v.instances[from], w.instances[from];
      RowPlain(v, w, from);
      RetiresPlain(i, j, plan, group, planned);
      if !Retires(j, plan, group, planned) {
        RetireFromShadows(v, w, from + 1, plan, group, planned, at);
      } else {
        RetireShadows(v, w, from, plan, at);
        var x, y := RetireInstance(i, v.fences, plan, at), RetireInstance(j, w.fences, plan, at);
        if y.Ok? { LeavingUpdate(w.instances, from, y.value.0, from + 1, plan, group, planned); }
        if x.Ok? {
          RetireFromShadows(Work(v.instances[from := x.value.0], x.value.1), Work(w.instances[from := y.value.0], y.value.1),
                            from + 1, plan, group, planned, at);
        } else if RetireFrom(w, from, plan, group, planned, at).Ok? {
          ShadowPositive(v, w);
          RetireGrows(w, from, plan, group, planned, at);
        }
      }
    }
  }

  lemma RowPlain(v: Work, w: Work, k: nat)
    requires Shadows(v, w) && k < |v.instances| && k < |w.instances|
    ensures Plain(v.instances[k]) == Plain(w.instances[k])
  {
    hide Plain;
    assert Map(Plain, v.instances)[k] == Map(Plain, w.instances)[k];
  }

  lemma {:induction false} RetireGrows(w: Work, from: nat, plan: Plan, group: Id, planned: seq<Id>, at: nat)
    requires Positive(w.fences) && from <= |w.instances| && RetireFrom(w, from, plan, group, planned, at).Ok?
    ensures Weight(RetireFrom(w, from, plan, group, planned, at).value.instances)
      >= Weight(w.instances) + if Leaving(w.instances, from, plan, group, planned) != {} then 1 else 0
    decreases |w.instances| - from
  {
    hide RetireInstance, Weight, Forgot, Retires, Plain;
    if from < |w.instances| {
      if !Retires(w.instances[from], plan, group, planned) {
        RetireGrows(w, from + 1, plan, group, planned, at);
      } else {
        SelfShadows(w);
        RetireShadows(w, w, from, plan, at);
        var y := RetireInstance(w.instances[from], w.fences, plan, at).value;
        LeavingUpdate(w.instances, from, y.0, from + 1, plan, group, planned);
        ShadowPositive(Work(w.instances[from := y.0], y.1), Work(w.instances[from := y.0], y.1));
        RetireGrows(Work(w.instances[from := y.0], y.1), from + 1, plan, group, planned, at);
      }
    }
  }

  lemma {:induction false} RetireAgrees(v: Work, w: Work, from: nat, plan: Plan, group: Id, planned: seq<Id>, at: nat)
    requires v.instances == w.instances && Agree(v.fences, w.fences) && from <= |v.instances|
    requires !AnyForgot(v.fences, w.fences, Leaving(w.instances, from, plan, group, planned))
    ensures var x := RetireFrom(v, from, plan, group, planned, at);
      var y := RetireFrom(w, from, plan, group, planned, at);
      && x.Ok? == y.Ok?
      && (x.Ok? ==> x.value.instances == y.value.instances && Agree(x.value.fences, y.value.fences)
                    && forall k :: Forgot(x.value.fences, y.value.fences, k) <==> Forgot(v.fences, w.fences, k))
    decreases |v.instances| - from
  {
    hide Retires, Issue, Agree, Forgot;
    if from < |v.instances| {
      var i := v.instances[from];
      if !Retires(i, plan, group, planned) {
        RetireAgrees(v, w, from + 1, plan, group, planned, at);
      } else {
        if plan.kind == Withdraw { IssueAgrees(v.fences, w.fences, i.id); }
        var x, y := RetireInstance(i, v.fences, plan, at), RetireInstance(i, w.fences, plan, at);
        assert x.Ok? == y.Ok? && (x.Ok? ==> x.value.0 == y.value.0);
        hide RetireInstance;
        if x.Ok? {
          LeavingUpdate(w.instances, from, y.value.0, from + 1, plan, group, planned);
          RetireAgrees(Work(v.instances[from := x.value.0], x.value.1), Work(w.instances[from := y.value.0], y.value.1),
                       from + 1, plan, group, planned, at);
        }
      }
    }
  }

  // ---------------------------------------------------------------------
  // Both passes.
  // ---------------------------------------------------------------------

  /** Every instance that takes a token while the plan is carried out. */
  function Renewed(w: Work, plan: Plan, group: Id, at: nat, maxInstances: nat, hash: string -> string): set<Id> {
    var slots := Slots(plan.services);
    var first := ReconcileSlots(w, slots, plan, group, at, maxInstances, hash);
    Taking(w, slots, plan, group, at, maxInstances, hash)
      + if first.Ok? then Leaving(first.value.instances, 0, plan, group, PlannedIds(hash, group, slots)) else {}
  }

  /** The issuer that remembers less accepts whatever the other does. If a token goes to an
      instance only the other remembers, the outcomes differ in weight. */
  lemma ReconcileShadows(s: seq<Instance>, f: Fences, g: Fences, plan: Plan, group: Id, at: nat, maxInstances: nat, hash: string -> string)
    requires Agree(f, g)
    ensures var x := Reconcile(Work(s, f), plan, group, at, maxInstances, hash);
      var y := Reconcile(Work(s, g), plan, group, at, maxInstances, hash);
      && (y.Err? ==> x.Err?)
      && (y.Ok? && AnyForgot(f, g, Renewed(Work(s, g), plan, group, at, maxInstances, hash)) ==>
            if x.Ok? then Weight(x.value.instances) > Weight(y.value.instances) else Weight(y.value.instances) > Weight(s))
  {
    hide ReconcileSlots, RetireFrom, Taking, Leaving, Weight, Slots, PlannedIds, Forgot, Shadows;
    var v, w, slots := Work(s, f), Work(s, g), Slots(plan.services);
    AgreeDominates(f, g);
    StartShadows(s, f, g);
    SlotsShadow(v, w, slots, plan, group, at, maxInstances, hash);
    var x := ReconcileSlots(v, slots, plan, group, at, maxInstances, hash);
    var y := ReconcileSlots(w, slots, plan, group, at, maxInstances, hash);
    hide Agree;
    if x.Ok? {
      ShadowSizes(x.value, y.value);
      RetireFromShadows(x.value, y.value, 0, plan, group, PlannedIds(hash, group, slots), at);
      if RetireFrom(x.value, 0, plan, group, PlannedIds(hash, group, slots), at).Err?
         && RetireFrom(y.value, 0, plan, group, PlannedIds(hash, group, slots), at).Ok? {
        ShadowPositive(x.value, y.value);
        RetireGrows(y.value, 0, plan, group, PlannedIds(hash, group, slots), at);
      }
    } else if y.Ok? && RetireFrom(y.value, 0, plan, group, PlannedIds(hash, group, slots), at).Ok? {
      ShadowPositive(v, w);
      SlotsPositive(w, slots, plan, group, at, maxInstances, hash);
      RetireGrows(y.value, 0, plan, group, PlannedIds(hash, group, slots), at);
    }
  }

  lemma {:induction false} SlotsPositive(w: Work, slots: seq<Slot>, plan: Plan, group: Id, at: nat, maxInstances: nat, hash: string -> string)
    requires Positive(w.fences) && ReconcileSlots(w, slots, plan, group, at, maxInstances, hash).Ok?
    ensures Positive(ReconcileSlots(w, slots, plan, group, at, maxInstances, hash).value.fences)
    decreases |slots|
  {
    hide SlotId, Weight, Issues, Plain;
    if slots != [] {
      SelfShadows(w);
      SlotShadows(w, w, slots[0], plan, group, at, maxInstances, hash);
      hide ReconcileSlot;
      var y := ReconcileSlot(w, slots[0], plan, group, at, maxInstances, hash).value;
      ShadowPositive(y, y);
      SlotsPositive(y, slots[1..], plan, group, at, maxInstances, hash);
    }
  }

  lemma StartShadows(s: seq<Instance>, f: Fences, g: Fences)
    requires Dominates(f, g) && Positive(f)
    ensures Shadows(Work(s, f), Work(s, g))
  {
  }

  lemma ShadowSizes(v: Work, w: Work)
    requires Shadows(v, w)
    ensures |v.instances| == |w.instances|
  {
    hide Plain;
    PlainSizes(v.instances, w.instances);
  }

  lemma ReconcileAgrees(s: seq<Instance>, f: Fences, g: Fences, plan: Plan, group: Id, at: nat, maxInstances: nat, hash: string -> string)
    requires Agree(f, g) && !AnyForgot(f, g, Renewed(Work(s, g), plan, group, at, maxInstances, hash))
    ensures var x := Reconcile(Work(s, f), plan, group, at, maxInstances, hash);
      var y := Reconcile(Work(s, g), plan, group, at, maxInstances, hash);
      && x.Ok? == y.Ok?
      && (x.Ok? ==> x.value.instances == y.value.instances && Agree(x.value.fences, y.value.fences))
  {
    hide ReconcileSlots, RetireFrom, Taking, Leaving, Slots, PlannedIds, Forgot, Agree;
    var v, w, slots := Work(s, f), Work(s, g), Slots(plan.services);
    SlotsAgree(v, w, slots, plan, group, at, maxInstances, hash);
    var x := ReconcileSlots(v, slots, plan, group, at, maxInstances, hash);
    var y := ReconcileSlots(w, slots, plan, group, at, maxInstances, hash);
    if x.Ok? { RetireAgrees(x.value, y.value, 0, plan, group, PlannedIds(hash, group, slots), at); }
  }
}
