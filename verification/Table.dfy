/** The instance table as a whole: what every reducer keeps, including
    reconciliation under correct lookups. */
module Table {
  import opened Base
  import opened Order
  import opened Model
  import opened Authority
  import opened Reducers
  import opened Lifecycle

  /** Every instance by itself is in order. */
  ghost predicate Entries(s: seq<Instance>, f: Fences) {
    forall i :: i in s ==> InstanceOk(i, f)
  }

  /** Identities are unique, and the issuer knows the last token of each instance and
      nothing else. This takes lookups that find what is there. */
  ghost predicate Rows(s: seq<Instance>, f: Fences) {
    && Distinct(Ids(s))
    && (forall i :: i in s ==> Current(i, f))
    && (forall k :: k in f.serials ==> k in Ids(s))
  }

  ghost predicate TableOk(s: seq<Instance>, f: Fences) { Entries(s, f) && Rows(s, f) }

  ghost predicate AllLive(s: seq<Instance>, f: Fences) {
    forall i :: i in s ==> Live(i, f)
  }

  ghost predicate Succeeds(i: Instance, b: seq<Instance>, at: nat) {
    exists j :: j in b && Evolves(i, j, at)
  }

  /** Every instance lives on and evolves. */
  ghost predicate TableEvolves(a: seq<Instance>, b: seq<Instance>, at: nat) {
    forall i {:trigger Succeeds(i, b, at)} :: i in a ==> Succeeds(i, b, at)
  }

  // ---------------------------------------------------------------------
  // Pointwise changes.
  // ---------------------------------------------------------------------

  /** One entry keeps what the table needs. */
  ghost predicate EntryKeeps(i: Instance, j: Instance, f: Fences, at: nat) {
    InstanceOk(i, f) ==>
      InstanceOk(j, f) && (Current(i, f) ==> Current(j, f)) && (Live(i, f) ==> Live(j, f)) && Evolves(i, j, at)
  }

  lemma PointwiseOk(a: seq<Instance>, b: seq<Instance>, f: Fences, at: nat)
    requires |a| == |b| && forall k :: 0 <= k < |a| ==> EntryKeeps(a[k], b[k], f, at) && b[k].id == a[k].id
    requires Entries(a, f)
    ensures Entries(b, f) && (Rows(a, f) ==> Rows(b, f)) && (AllLive(a, f) ==> AllLive(b, f)) && TableEvolves(a, b, at)
    ensures Ids(b) == Ids(a)
  {
    hide InstanceOk, Current, Live, Evolves;
    assert Ids(b) == Ids(a);
    forall j | j in b ensures InstanceOk(j, f) && (Rows(a, f) ==> Current(j, f)) && (AllLive(a, f) ==> Live(j, f)) {
      var k :| 0 <= k < |b| && b[k] == j;
      assert a[k] in a && EntryKeeps(a[k], b[k], f, at);
    }
    forall i | i in a ensures Succeeds(i, b, at) {
      var k :| 0 <= k < |a| && a[k] == i;
      assert EntryKeeps(a[k], b[k], f, at) && b[k] in b;
    }
  }

  lemma UpdateOk(a: seq<Instance>, k: nat, j: Instance, f: Fences, at: nat)
    requires k < |a| && Entries(a, f) && EntryKeeps(a[k], j, f, at) && j.id == a[k].id
    ensures Entries(a[k := j], f) && (Rows(a, f) ==> Rows(a[k := j], f))
    ensures (AllLive(a, f) ==> AllLive(a[k := j], f)) && TableEvolves(a, a[k := j], at)
    ensures Ids(a[k := j]) == Ids(a)
  {
    var b := a[k := j];
    forall m | 0 <= m < |a| ensures EntryKeeps(a[m], b[m], f, at) && b[m].id == a[m].id {
      if m != k { SelfKeeps(a[m], f, at); }
    }
    PointwiseOk(a, b, f, at);
  }

  lemma SelfKeeps(i: Instance, f: Fences, at: nat)
    ensures Evolves(i, i, at) && EntryKeeps(i, i, f, at)
  {
  }

  lemma SelfEvolves(a: seq<Instance>, at: nat)
    ensures TableEvolves(a, a, at)
  {
    forall i | i in a ensures Succeeds(i, a, at) { SelfKeeps(i, Fences(0, 0, map[]), at); }
  }

  lemma EvolvesTrans(i: Instance, j: Instance, k: Instance, at: nat)
    requires Evolves(i, j, at) && Evolves(j, k, at)
    ensures Evolves(i, k, at)
  {
    forall m | 0 <= m < |i.attempts| ensures KeepsAttempt(i.attempts[m], k.attempts[m]) {
      assert KeepsAttempt(i.attempts[m], j.attempts[m]) && KeepsAttempt(j.attempts[m], k.attempts[m]);
    }
  }

  lemma TableEvolvesTrans(a: seq<Instance>, b: seq<Instance>, c: seq<Instance>, at: nat)
    requires TableEvolves(a, b, at) && TableEvolves(b, c, at)
    ensures TableEvolves(a, c, at)
  {
    hide Evolves;
    forall i | i in a ensures Succeeds(i, c, at) {
      assert Succeeds(i, b, at);
      var j :| j in b && Evolves(i, j, at);
      assert Succeeds(j, c, at);
      var k :| k in c && Evolves(j, k, at);
      EvolvesTrans(i, j, k, at);
    }
  }

  // ---------------------------------------------------------------------
  // Lookups during reconciliation.
  // ---------------------------------------------------------------------

  /** Every lookup of a present identity finds it, as the table grows. */
  predicate LookupsRight(ids: seq<Id>, planned: seq<Id>)
    decreases |planned|
  {
    if planned == [] then true
    else
      && (planned[0] in ids ==> Hit(ids, planned[0]))
      && LookupsRight(if Hit(ids, planned[0]) then ids else ids + [planned[0]], planned[1..])
  }

  /** The identity column after the planned lookups. */
  function ColumnAfter(ids: seq<Id>, planned: seq<Id>): seq<Id>
    decreases |planned|
  {
    if planned == [] then ids
    else ColumnAfter(if Hit(ids, planned[0]) then ids else ids + [planned[0]], planned[1..])
  }

  lemma {:induction false} ColumnGrows(ids: seq<Id>, planned: seq<Id>)
    ensures ids <= ColumnAfter(ids, planned)
    decreases |planned|
  {
    if planned != [] {
      ColumnGrows(if Hit(ids, planned[0]) then ids else ids + [planned[0]], planned[1..]);
    }
  }

  /** The table ends up without duplicates exactly when every lookup was right. */
  lemma {:induction false} UniqueIffRight(ids: seq<Id>, planned: seq<Id>)
    requires Distinct(ids)
    ensures Distinct(ColumnAfter(ids, planned)) <==> LookupsRight(ids, planned)
    decreases |planned|
  {
    if planned != [] {
      var id := planned[0];
      if Hit(ids, id) {
        UniqueIffRight(ids, planned[1..]);
      } else if id in ids {
        ColumnGrows(ids + [id], planned[1..]);
        var k :| 0 <= k < |ids| && ids[k] == id;
        var final := ColumnAfter(ids, planned);
        assert final[k] == (ids + [id])[k] && final[|ids|] == (ids + [id])[|ids|];
      } else {
        UniqueIffRight(ids + [id], planned[1..]);
      }
    }
  }

  /** Sufficient: known identities are looked up before new ones, each once. */
  ghost predicate OldBeforeNew(ids: seq<Id>, planned: seq<Id>) {
    && Distinct(planned)
    && (forall i, j :: 0 <= i < j < |planned| && planned[j] in ids ==> planned[i] in ids)
  }

  lemma {:induction false} NewOnlyRight(ids: seq<Id>, planned: seq<Id>)
    requires Distinct(planned) && forall p :: p in planned ==> p !in ids
    ensures LookupsRight(ids, planned)
    decreases |planned|
  {
    if planned != [] {
      assert planned[0] in planned;
      assert !Hit(ids, planned[0]);
      forall p | p in planned[1..] ensures p !in ids + [planned[0]] {
        var k :| 1 <= k < |planned| && planned[k] == p;
        assert planned[0] != planned[k];
      }
      NewOnlyRight(ids + [planned[0]], planned[1..]);
    }
  }

  lemma {:induction false} OldBeforeNewRight(ids: seq<Id>, planned: seq<Id>)
    requires StrictlySorted(ids) && OldBeforeNew(ids, planned)
    ensures LookupsRight(ids, planned)
  {
    if planned != [] {
      LowerBoundExact(ids, planned[0]);
      if planned[0] in ids {
        OldBeforeNewRight(ids, planned[1..]);
      } else {
        forall p | p in planned ensures p !in ids {
          var k :| 0 <= k < |planned| && planned[k] == p;
        }
        NewOnlyRight(ids, planned);
      }
    }
  }

  /** With `y` present and an earlier `x` appended first, the lookup of `y` misses and a
      second `y` is added. */
  lemma EarlierHidesLater(x: Id, y: Id)
    requires Less(x, y)
    ensures ColumnAfter([y], [x, y]) == [y, x, y] && !LookupsRight([y], [x, y])
  {
    LessTotal(x, y);
    LessTotal(y, y);
    var t := [y, x];
    assert Answers([y], x) == [false];
    assert LowerBound([y], x) == 0 && !Hit([y], x);
    assert Answers(t, y) == [false, true];
    assert Halve([false, true], 0, 2) == Halve([false, true], 2, 0) == 2;
    assert LowerBound(t, y) == 2 && !Hit(t, y);
    assert [x, y][1..] == [y] && [y][1..] == [];
    assert [y] + [x] == t && t + [y] == [y, x, y];
    assert ColumnAfter(t, [y]) == ColumnAfter(t + [y], []);
    assert y in t;
    assert !LookupsRight(t, [y]);
  }

  // ---------------------------------------------------------------------
  // Reconciliation.
  // ---------------------------------------------------------------------

  ghost predicate Positive(f: Fences) { forall k :: k in f.serials ==> f.serials[k] > 0 }

  /** From `w` to `x`: every instance still in order, still live, and evolved. */
  ghost predicate WorkKeeps(w: Work, x: Work, at: nat) {
    && Entries(x.instances, x.fences)
    && (AllLive(w.instances, w.fences) ==> AllLive(x.instances, x.fences))
    && TableEvolves(w.instances, x.instances, at)
    && x.fences.epoch == w.fences.epoch && x.fences.boot == w.fences.boot
    && (Positive(w.fences) ==> Positive(x.fences))
  }

  ghost predicate RowsKept(w: Work, x: Work) { Rows(w.instances, w.fences) ==> Rows(x.instances, x.fences) }

  lemma WorkKeepsTrans(w: Work, x: Work, y: Work, at: nat)
    requires WorkKeeps(w, x, at) && WorkKeeps(x, y, at)
    ensures WorkKeeps(w, y, at)
  {
    TableEvolvesTrans(w.instances, x.instances, y.instances, at);
  }

  lemma IssueKeys(f: Fences, id: Id)
    requires Issue(f, id).Ok?
    ensures var g := Issue(f, id).value.fences;
      && g.epoch == f.epoch && g.boot == f.boot && (forall k :: k in g.serials <==> k == id || k in f.serials)
      && (Positive(f) ==> Positive(g))
  {
  }

  lemma AppendOk(w: Work, j: Instance, at: nat)
    requires Entries(w.instances, w.fences) && Issue(w.fences, j.id).Ok?
    requires var g := Issue(w.fences, j.id).value.fences; InstanceOk(j, g) && Current(j, g) && Live(j, g)
    ensures var x := Work(w.instances + [j], Issue(w.fences, j.id).value.fences);
      WorkKeeps(w, x, at) && (j.id !in Ids(w.instances) ==> RowsKept(w, x))
    ensures Ids(w.instances + [j]) == Ids(w.instances) + [j.id]
  {
    hide InstanceOk, Current, Live, Evolves, Issue;
    IssueKeys(w.fences, j.id);
    hide Positive;
    var g := Issue(w.fences, j.id).value.fences;
    var b := w.instances + [j];
    assert Ids(b) == Ids(w.instances) + [j.id];
    forall i | i in w.instances
      ensures InstanceOk(i, g) && (Live(i, w.fences) ==> Live(i, g)) && Succeeds(i, b, at)
      ensures j.id !in Ids(w.instances) && Current(i, w.fences) ==> Current(i, g)
    {
      IdOf(w.instances, i);
      IssueKeepsOthers(i, w.fences, j.id);
      SelfKeeps(i, g, at);
    }
  }

  lemma IdOf(s: seq<Instance>, i: Instance)
    requires i in s
    ensures i.id in Ids(s)
  {
    var k :| 0 <= k < |s| && s[k] == i;
    assert Ids(s)[k] == i.id;
  }

  lemma SameId(s: seq<Instance>, i: Instance, j: Instance)
    requires Distinct(Ids(s)) && i in s && j in s && i.id == j.id
    ensures i == j
  {
    var k :| 0 <= k < |s| && s[k] == i;
    var m :| 0 <= m < |s| && s[m] == j;
    assert Ids(s)[k] == Ids(s)[m];
  }

  /** Changing one instance together with issuing its token. */
  lemma IssueUpdateOk(w: Work, k: nat, j: Instance, at: nat)
    requires k < |w.instances| && Entries(w.instances, w.fences) && j.id == w.instances[k].id
    requires Issue(w.fences, j.id).Ok? && Evolves(w.instances[k], j, at)
    requires var g := Issue(w.fences, j.id).value.fences; InstanceOk(j, g) && Current(j, g) && Live(j, g)
    ensures var x := Work(w.instances[k := j], Issue(w.fences, j.id).value.fences); WorkKeeps(w, x, at) && RowsKept(w, x)
    ensures Ids(w.instances[k := j]) == Ids(w.instances)
  {
    hide InstanceOk, Current, Live, Evolves, Issue;
    var a, g := w.instances, Issue(w.fences, j.id).value.fences;
    var b := a[k := j];
    IssueKeys(w.fences, j.id);
    hide Positive;
    assert Ids(b) == Ids(a) && Ids(a)[k] == j.id;
    forall m | 0 <= m < |b|
      ensures InstanceOk(b[m], g) && (AllLive(a, w.fences) ==> Live(b[m], g)) && (Rows(a, w.fences) ==> Current(b[m], g))
    {
      if m != k { IssueAt(w, k, m); }
    }
    forall i | i in a ensures Succeeds(i, b, at) {
      var m :| 0 <= m < |a| && a[m] == i;
      SelfKeeps(i, g, at);
      assert b[m] in b;
    }
  }

  lemma IssueAt(w: Work, k: nat, m: nat)
    requires k < |w.instances| && m < |w.instances| && m != k && Entries(w.instances, w.fences)
    requires Issue(w.fences, w.instances[k].id).Ok?
    ensures var g := Issue(w.fences, w.instances[k].id).value.fences;
      && InstanceOk(w.instances[m], g) && (AllLive(w.instances, w.fences) ==> Live(w.instances[m], g))
      && (Rows(w.instances, w.fences) ==> Current(w.instances[m], g))
  {
    hide InstanceOk, Current, Live, Issue;
    assert Rows(w.instances, w.fences) ==> Ids(w.instances)[m] != Ids(w.instances)[k];
    assert w.instances[m] in w.instances;
    IssueKeepsOthers(w.instances[m], w.fences, w.instances[k].id);
  }

  lemma ReplaceOk(i: Instance, f: Fences, s: Slot, plan: Plan, at: nat)
    requires InstanceOk(i, f) && Issue(f, i.id).Ok?
    ensures var issued := Issue(f, i.id).value;
      var j := ReplaceInstance(i, s, plan, issued.token, at);
      && InstanceOk(j, issued.fences) && Current(j, issued.fences) && Live(j, issued.fences)
      && Evolves(i, j, at) && j.id == i.id
  {
    var moved := i.(incarnation := SatNext(i.incarnation), dpu := s.replica.dpu, attachment := s.replica.attachment,
                    domain := s.replica.domain, version := s.version, deploymentGeneration := plan.generation,
                    topologyGeneration := plan.topology, capabilityGeneration := plan.capability);
    var reason := if Terminal(i.state) then SupersededEffect else AttemptSuperseded;
    FenceOk(moved, at, reason, f);
    OpenOk(FenceInstance(moved, at, reason), f, Authorized, at, Authorized);
  }

  lemma ReattemptOk(i: Instance, f: Fences, plan: Plan, at: nat)
    requires InstanceOk(i, f) && !HasOpen(i) && Issue(f, i.id).Ok?
    ensures var issued := Issue(f, i.id).value;
      var j := Reattempt(i, plan, issued.token, at);
      && InstanceOk(j, issued.fences) && Current(j, issued.fences) && Live(j, issued.fences)
      && Evolves(i, j, at) && j.id == i.id
  {
    OpenOk(i, f, Authorized, at, Authorized);
  }

  lemma CreateOk(id: Id, s: Slot, plan: Plan, group: Id, f: Fences, at: nat)
    requires Issue(f, id).Ok?
    ensures var issued := Issue(f, id).value;
      var j := CreateInstance(id, s, plan, group, issued.token, at);
      InstanceOk(j, issued.fences) && Current(j, issued.fences) && Live(j, issued.fences) && j.id == id
  {
  }

  lemma FindHits(s: seq<Instance>, id: Id)
    ensures FindInstance(s, id).Some? <==> Hit(Ids(s), id)
    ensures FindInstance(s, id).Some? ==>
      FindInstance(s, id).value < |s| && s[FindInstance(s, id).value].id == id && s[FindInstance(s, id).value] in s
  {
    var k := LowerBound(Ids(s), id);
    if k < |s| { assert Ids(s)[k] == s[k].id && s[k] in s; }
  }

  /** One planned replica keeps every instance in order, and the rows too if it is
      looked up correctly. */
  lemma ReconcileSlotOk(w: Work, s: Slot, plan: Plan, group: Id, at: nat, maxInstances: nat, hash: string -> string)
    requires Entries(w.instances, w.fences)
    requires ReconcileSlot(w, s, plan, group, at, maxInstances, hash).Ok?
    ensures var x := ReconcileSlot(w, s, plan, group, at, maxInstances, hash).value;
      var id := SlotId(hash, group, s);
      && WorkKeeps(w, x, at)
      && ((id in Ids(w.instances) ==> Hit(Ids(w.instances), id)) ==> RowsKept(w, x))
  {
    hide InstanceOk, Current, Live, Evolves, WorkKeeps, RowsKept, SlotId, FindInstance, Issue;
    var id := SlotId(hash, group, s);
    var k := FindInstance(w.instances, id);
    FindHits(w.instances, id);
    if k.None? {
      CreateOk(id, s, plan, group, w.fences, at);
      AppendOk(w, CreateInstance(id, s, plan, group, Issue(w.fences, id).value.token, at), at);
    } else {
      var i := w.instances[k.value];
      assert InstanceOk(i, w.fences);
      if Replaces(i, s) {
        ReplaceOk(i, w.fences, s, plan, at);
        IssueUpdateOk(w, k.value, ReplaceInstance(i, s, plan, Issue(w.fences, id).value.token, at), at);
      } else if !HasOpen(i) {
        ReattemptOk(i, w.fences, plan, at);
        IssueUpdateOk(w, k.value, Reattempt(i, plan, Issue(w.fences, id).value.token, at), at);
      } else {
        KeepOk(w, k.value, plan.generation, at);
      }
    }
  }

  lemma KeepOk(w: Work, k: nat, generation: nat, at: nat)
    requires k < |w.instances| && Entries(w.instances, w.fences)
    ensures var x := w.(instances := w.instances[k := w.instances[k].(deploymentGeneration := generation)]);
      WorkKeeps(w, x, at) && RowsKept(w, x)
  {
    UpdateOk(w.instances, k, w.instances[k].(deploymentGeneration := generation), w.fences, at);
  }

  lemma ReconcileSlotColumn(w: Work, s: Slot, plan: Plan, group: Id, at: nat, maxInstances: nat, hash: string -> string)
    requires ReconcileSlot(w, s, plan, group, at, maxInstances, hash).Ok?
    ensures var id := SlotId(hash, group, s);
      Ids(ReconcileSlot(w, s, plan, group, at, maxInstances, hash).value.instances)
        == if Hit(Ids(w.instances), id) then Ids(w.instances) else Ids(w.instances) + [id]
  {
    hide SlotId;
    hide Issue;
    hide Hit;
    var x := ReconcileSlot(w, s, plan, group, at, maxInstances, hash).value;
    FindHits(w.instances, SlotId(hash, group, s));
    hide FindInstance;
  }

  lemma {:induction false} ReconcileSlotsColumn(w: Work, slots: seq<Slot>, plan: Plan, group: Id, at: nat, maxInstances: nat, hash: string -> string)
    requires ReconcileSlots(w, slots, plan, group, at, maxInstances, hash).Ok?
    ensures Ids(ReconcileSlots(w, slots, plan, group, at, maxInstances, hash).value.instances)
            == ColumnAfter(Ids(w.instances), PlannedIds(hash, group, slots))
    decreases |slots|
  {
    hide ReconcileSlot;
    hide SlotId;
    hide Hit;
    if slots != [] {
      var next := ReconcileSlot(w, slots[0], plan, group, at, maxInstances, hash).value;
      ReconcileSlotColumn(w, slots[0], plan, group, at, maxInstances, hash);
      ReconcileSlotsColumn(next, slots[1..], plan, group, at, maxInstances, hash);
      assert PlannedIds(hash, group, slots)[1..] == PlannedIds(hash, group, slots[1..]);
    }
  }

  lemma {:induction false} ReconcileSlotsOk(w: Work, slots: seq<Slot>, plan: Plan, group: Id, at: nat, maxInstances: nat, hash: string -> string)
    requires Entries(w.instances, w.fences)
    requires ReconcileSlots(w, slots, plan, group, at, maxInstances, hash).Ok?
    ensures var x := ReconcileSlots(w, slots, plan, group, at, maxInstances, hash).value;
      WorkKeeps(w, x, at) && (LookupsRight(Ids(w.instances), PlannedIds(hash, group, slots)) ==> RowsKept(w, x))
    decreases |slots|
  {
    hide ReconcileSlot, SlotId, Hit, TableEvolves, Rows, AllLive, Positive;
    if slots == [] {
      SelfEvolves(w.instances, at);
    } else {
      var next := ReconcileSlot(w, slots[0], plan, group, at, maxInstances, hash).value;
      ReconcileSlotOk(w, slots[0], plan, group, at, maxInstances, hash);
      ReconcileSlotColumn(w, slots[0], plan, group, at, maxInstances, hash);
      assert PlannedIds(hash, group, slots)[1..] == PlannedIds(hash, group, slots[1..]);
      ReconcileSlotsOk(next, slots[1..], plan, group, at, maxInstances, hash);
      WorkKeepsTrans(w, next, ReconcileSlots(w, slots, plan, group, at, maxInstances, hash).value, at);
    }
  }

  lemma RetireInstanceOk(i: Instance, f: Fences, plan: Plan, at: nat)
    requires InstanceOk(i, f) && RetireInstance(i, f, plan, at).Ok?
    ensures var (j, g) := RetireInstance(i, f, plan, at).value;
      && j.id == i.id && InstanceOk(j, g) && (Current(i, f) ==> Current(j, g)) && Live(j, g) && Evolves(i, j, at)
      && (plan.kind == Withdraw ==> Current(j, g))
      && g == if plan.kind == Withdraw then Issue(f, i.id).value.fences else f
  {
    QuiesceOk(i, at, f);
    if plan.kind == Withdraw { OpenOk(Quiesce(i, at), f, Quiescing, at, Quiescing); }
  }

  lemma RetireOneOk(w: Work, k: nat, plan: Plan, at: nat)
    requires k < |w.instances| && Entries(w.instances, w.fences)
    requires RetireInstance(w.instances[k], w.fences, plan, at).Ok?
    ensures var (j, g) := RetireInstance(w.instances[k], w.fences, plan, at).value;
      var x := Work(w.instances[k := j], g);
      WorkKeeps(w, x, at) && RowsKept(w, x) && Ids(x.instances) == Ids(w.instances)
  {
    var i := w.instances[k];
    assert i in w.instances;
    RetireInstanceOk(i, w.fences, plan, at);
    var (j, g) := RetireInstance(i, w.fences, plan, at).value;
    if plan.kind == Withdraw {
      RetireIssues(i, w.fences, plan, at);
      hide RetireInstance;
      IssueUpdateOk(w, k, j, at);
    } else {
      hide RetireInstance;
      UpdateOk(w.instances, k, j, w.fences, at);
    }
  }

  lemma RetireIssues(i: Instance, f: Fences, plan: Plan, at: nat)
    requires RetireInstance(i, f, plan, at).Ok? && plan.kind == Withdraw
    ensures Issue(f, i.id).Ok?
  {
  }

  lemma {:induction false} RetireFromOk(w: Work, from: nat, plan: Plan, group: Id, planned: seq<Id>, at: nat)
    requires from <= |w.instances| && Entries(w.instances, w.fences)
    requires RetireFrom(w, from, plan, group, planned, at).Ok?
    ensures var x := RetireFrom(w, from, plan, group, planned, at).value;
      WorkKeeps(w, x, at) && RowsKept(w, x) && Ids(x.instances) == Ids(w.instances)
    decreases |w.instances| - from
  {
    hide TableEvolves, Retires, RetireInstance, AllLive, Rows, Positive;
    if from == |w.instances| {
      SelfEvolves(w.instances, at);
    } else if !Retires(w.instances[from], plan, group, planned) {
      RetireFromOk(w, from + 1, plan, group, planned, at);
    } else {
      var r := RetireInstance(w.instances[from], w.fences, plan, at).value;
      var x := Work(w.instances[from := r.0], r.1);
      RetireOneOk(w, from, plan, at);
      RetireFromOk(x, from + 1, plan, group, planned, at);
      WorkKeepsTrans(w, x, RetireFrom(w, from, plan, group, planned, at).value, at);
    }
  }

  /** Reconciliation keeps every instance in order and live; under correct lookups it
      keeps identities unique and the issuer in step. */
  lemma ReconcileOk(w: Work, plan: Plan, group: Id, at: nat, maxInstances: nat, hash: string -> string)
    requires Entries(w.instances, w.fences)
    requires Reconcile(w, plan, group, at, maxInstances, hash).Ok?
    ensures var x := Reconcile(w, plan, group, at, maxInstances, hash).value;
      && WorkKeeps(w, x, at)
      && (LookupsRight(Ids(w.instances), PlannedIds(hash, group, Slots(plan.services))) ==> RowsKept(w, x))
  {
    hide ReconcileSlots, RetireFrom, TableEvolves, AllLive, LookupsRight, Rows, Positive;
    var slots := Slots(plan.services);
    ReconcileSlotsOk(w, slots, plan, group, at, maxInstances, hash);
    var first := ReconcileSlots(w, slots, plan, group, at, maxInstances, hash).value;
    RetireFromOk(first, 0, plan, group, PlannedIds(hash, group, slots), at);
    WorkKeepsTrans(w, first, Reconcile(w, plan, group, at, maxInstances, hash).value, at);
  }

  /** The exact condition: reconciliation leaves unique identities if and only if
      every lookup of a present instance was right. */
  lemma ReconcileUniqueExactly(w: Work, plan: Plan, group: Id, at: nat, maxInstances: nat, hash: string -> string)
    requires Distinct(Ids(w.instances))
    requires Reconcile(w, plan, group, at, maxInstances, hash).Ok?
    ensures Distinct(Ids(Reconcile(w, plan, group, at, maxInstances, hash).value.instances))
            <==> LookupsRight(Ids(w.instances), PlannedIds(hash, group, Slots(plan.services)))
  {
    hide ReconcileSlots;
    hide RetireFrom;
    hide LookupsRight;
    hide ColumnAfter;
    var slots := Slots(plan.services);
    var first := ReconcileSlots(w, slots, plan, group, at, maxInstances, hash).value;
    ReconcileSlotsColumn(w, slots, plan, group, at, maxInstances, hash);
    UniqueIffRight(Ids(w.instances), PlannedIds(hash, group, slots));
    RetireKeepsColumn(first, 0, plan, group, PlannedIds(hash, group, slots), at);
  }

  /** Group "g" runs service "b", and its next plan names "a" and then "b". */
  ghost predicate NamesEarlier(w: Work, plan: Plan) {
    && |w.instances| == 1 && w.instances[0].id == "i-g.b.0" && w.instances[0].service == "b"
    && w.fences.epoch > 0 && w.fences.boot > 0 && (forall k :: k in w.fences.serials ==> w.fences.serials[k] < U64_MAX - 1)
    && plan.kind == Deploy && |plan.services| == 2
    && plan.services[0].service == "a" && |plan.services[0].replicas| == 1 && plan.services[0].replicas[0].index == 0
    && plan.services[1].service == "b" && |plan.services[1].replicas| == 1 && plan.services[1].replicas[0].index == 0
  }

  lemma NamesOfPlan(w: Work, plan: Plan, hash: string -> string)
    requires NamesEarlier(w, plan)
    ensures var slots := Slots(plan.services);
      |slots| == 2 && PlannedIds(hash, "g", slots) == ["i-g.a.0", "i-g.b.0"]
    ensures Ids(w.instances) == ["i-g.b.0"] && Less("i-g.a.0", "i-g.b.0")
  {
    hide Less, InstanceName, Decimal;
    TwoNames(hash);
    var a, b := plan.services[0], plan.services[1];
    assert plan.services == [a, b] && [a, b][1..] == [b] && [b][1..] == [];
    assert Slots([b]) == SlotsOf(b) + Slots([]) == SlotsOf(b);
    assert Slots(plan.services) == SlotsOf(a) + SlotsOf(b);
  }

  lemma TwoNames(hash: string -> string)
    ensures InstanceName(hash, "g", "a", 0) == "i-g.a.0" && InstanceName(hash, "g", "b", 0) == "i-g.b.0"
    ensures Less("i-g.a.0", "i-g.b.0")
  {
    assert Decimal(0) == "0";
    assert "i-" + "g" + "." + "a" + "." + "0" == "i-g.a.0" && "i-" + "g" + "." + "b" + "." + "0" == "i-g.b.0";
    assert "i-g." + "a.0" == "i-g.a.0" && "i-g." + "b.0" == "i-g.b.0";
    LessBehind("i-g.", "a.0", "b.0");
    hide Decimal, Less;
  }

  lemma {:induction false} LessBehind(p: Id, a: Id, b: Id)
    requires Less(a, b)
    ensures Less(p + a, p + b)
  {
    if p == [] {
      assert p + a == a && p + b == b;
    } else {
      LessBehind(p[1..], a, b);
      assert (p + a)[1..] == p[1..] + a && (p + b)[1..] == p[1..] + b;
    }
  }

  /** A missed lookup with room for one more row and a serial left. */
  lemma SlotCreates(w: Work, s: Slot, plan: Plan, group: Id, at: nat, maxInstances: nat, hash: string -> string)
    requires !Hit(Ids(w.instances), SlotId(hash, group, s)) && |w.instances| < maxInstances && Issue(w.fences, SlotId(hash, group, s)).Ok?
    ensures var r := ReconcileSlot(w, s, plan, group, at, maxInstances, hash);
      r.Ok? && |r.value.instances| == |w.instances| + 1 && r.value.fences == Issue(w.fences, SlotId(hash, group, s)).value.fences
  {
    hide SlotId, Issue, Hit;
    FindHits(w.instances, SlotId(hash, group, s));
    hide FindInstance;
  }

  lemma {:induction false} RetireGoesThrough(w: Work, from: nat, plan: Plan, group: Id, planned: seq<Id>, at: nat)
    requires from <= |w.instances| && plan.kind != Withdraw
    ensures RetireFrom(w, from, plan, group, planned, at).Ok?
    decreases |w.instances| - from
  {
    hide Retires;
    if from < |w.instances| {
      if Retires(w.instances[from], plan, group, planned) {
        var r := RetireInstance(w.instances[from], w.fences, plan, at).value;
        RetireGoesThrough(Work(w.instances[from := r.0], r.1), from + 1, plan, group, planned, at);
      } else {
        RetireGoesThrough(w, from + 1, plan, group, planned, at);
      }
    }
  }

  /** Neither planned name is found. */
  lemma BothMissed(x: Id, y: Id)
    requires Less(x, y)
    ensures !Hit([y], x) && !Hit([y, x], y)
  {
    LessTotal(x, y);
    LessTotal(y, y);
    assert Answers([y], x) == [false];
    assert Answers([y, x], y) == [false, true];
    assert Halve([false, true], 0, 2) == Halve([false, true], 2, 0) == 2;
  }

  lemma BothIssued(f: Fences, x: Id, y: Id)
    requires f.epoch > 0 && f.boot > 0 && x != "" && y != "" && forall k :: k in f.serials ==> f.serials[k] < U64_MAX - 1
    ensures Issue(f, x).Ok? && Issue(Issue(f, x).value.fences, y).Ok?
  {
  }

  /** Reconciliation then goes through and leaves two rows of the one instance. */
  lemma ReconcileDoubles(w: Work, plan: Plan, at: nat, maxInstances: nat, hash: string -> string)
    requires NamesEarlier(w, plan) && maxInstances >= 3
    ensures var r := Reconcile(w, plan, "g", at, maxInstances, hash);
      r.Ok? && Ids(r.value.instances) == ["i-g.b.0", "i-g.a.0", "i-g.b.0"]
  {
    var x, y := "i-g.a.0", "i-g.b.0";
    NamesOfPlan(w, plan, hash);
    BothIssued(w.fences, x, y);
    var slots := Slots(plan.services);
    assert SlotId(hash, "g", slots[0]) == PlannedIds(hash, "g", slots)[0] && SlotId(hash, "g", slots[1]) == PlannedIds(hash, "g", slots)[1];
    hide Slots, SlotId, PlannedIds, Issue, Less, NamesEarlier, ReconcileSlot, RetireFrom, Hit, ColumnAfter, LookupsRight;
    EarlierHidesLater(x, y);
    BothMissed(x, y);
    SlotCreates(w, slots[0], plan, "g", at, maxInstances, hash);
    ReconcileSlotColumn(w, slots[0], plan, "g", at, maxInstances, hash);
    var w1 := ReconcileSlot(w, slots[0], plan, "g", at, maxInstances, hash).value;
    assert Ids(w1.instances) == [y] + [x] == [y, x];
    SlotCreates(w1, slots[1], plan, "g", at, maxInstances, hash);
    var w2 := ReconcileSlot(w1, slots[1], plan, "g", at, maxInstances, hash).value;
    assert slots[1..] == [slots[1]] && slots[1..][1..] == [];
    assert ReconcileSlots(w2, [], plan, "g", at, maxInstances, hash) == Ok(w2);
    assert ReconcileSlots(w1, slots[1..], plan, "g", at, maxInstances, hash) == Ok(w2);
    assert ReconcileSlots(w, slots, plan, "g", at, maxInstances, hash) == Ok(w2);
    ReconcileSlotsColumn(w, slots, plan, "g", at, maxInstances, hash);
    RetireGoesThrough(w2, 0, plan, "g", PlannedIds(hash, "g", slots), at);
    RetireKeepsColumn(w2, 0, plan, "g", PlannedIds(hash, "g", slots), at);
  }

  lemma {:induction false} RetireKeepsColumn(w: Work, from: nat, plan: Plan, group: Id, planned: seq<Id>, at: nat)
    requires from <= |w.instances| && RetireFrom(w, from, plan, group, planned, at).Ok?
    ensures Ids(RetireFrom(w, from, plan, group, planned, at).value.instances) == Ids(w.instances)
    decreases |w.instances| - from
  {
    hide Retires;
    if from == |w.instances| {
    } else if !Retires(w.instances[from], plan, group, planned) {
      RetireKeepsColumn(w, from + 1, plan, group, planned, at);
    } else {
      var r := RetireInstance(w.instances[from], w.fences, plan, at).value;
      var x := Work(w.instances[from := r.0], r.1);
      assert Ids(x.instances) == Ids(w.instances);
      RetireKeepsColumn(x, from + 1, plan, group, planned, at);
    }
  }

  // ---------------------------------------------------------------------
  // Sorting the table afterwards.
  // ---------------------------------------------------------------------

  lemma SortedColumn(s: seq<Instance>)
    requires Distinct(Ids(s))
    ensures StrictlySorted(Ids(Sort(s, InstanceLess)))
    ensures forall k :: k in Ids(Sort(s, InstanceLess)) <==> k in Ids(s)
  {
    SortColumn(s);
    var ids := Ids(s);
    LessStrictWeak();
    SortAscends(ids, Less);
    SortKeeps(ids, Less);
    PermutationDistinct(Sort(ids, Less), ids);
    AscendingDistinctSorted(Sort(ids, Less));
  }

  lemma SortInstances(s: seq<Instance>, f: Fences, at: nat)
    requires Entries(s, f)
    ensures var t := Sort(s, InstanceLess);
      && Entries(t, f) && TableEvolves(s, t, at) && (AllLive(s, f) ==> AllLive(t, f))
      && (Rows(s, f) ==> Rows(t, f) && StrictlySorted(Ids(t)))
  {
    hide InstanceOk, Current, Live, Evolves, Sort, StrictlySorted;
    var t := Sort(s, InstanceLess);
    SortKeeps(s, InstanceLess);
    if Rows(s, f) {
      SortedColumn(s);
      StrictlySortedDistinct(Ids(t));
    }
    forall i | i in s ensures Succeeds(i, t, at) { SelfKeeps(i, f, at); }
  }

  lemma SortColumn(s: seq<Instance>)
    ensures Ids(Sort(s, InstanceLess)) == Sort(Ids(s), Less)
  {
    forall i | i in s ensures Agrees(i, s, InstanceIdOf, InstanceLess, Less) { }
    SortMaps(s, InstanceIdOf, InstanceLess, Less);
  }
}
