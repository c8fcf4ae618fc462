/** Reconciliation as it works on the trial copy: the replica loop that looks instances
    up by binary search, then the loop that retires what is no longer planned. */
module ReconcileRun {
  import opened Base
  import opened Order
  import opened Model
  import opened Authority
  import opened Planner
  import opened Reducers
  import opened Lifecycle
  import opened Table
  import opened ReducersRun

  /** `std::lower_bound` over the identity column, sorted or not. */
  method SearchColumn(ids: seq<Id>, id: Id) returns (first: nat)
    ensures first == LowerBound(ids, id)
  {
    hide Less;
    ghost var below := Answers(ids, id);
    var len: nat := |ids|;
    first := 0;
    while len > 0
      invariant first + len <= |ids| && Halve(below, first, len) == Halve(below, 0, |ids|)
      decreases len
    {
      var half := len / 2;
      if Less(ids[first + half], id) {
        first, len := first + half + 1, len - half - 1;
      } else {
        len := half;
      }
    }
  }

  /** `find_instance` */
  method FindAt(instances: seq<Instance>, id: Id) returns (k: Option<nat>)
    ensures k == FindInstance(instances, id)
    ensures k.Some? ==> k.value < |instances| && instances[k.value].id == id
  {
    var ids := Ids(instances);
    var m := SearchColumn(ids, id);
    if m < |instances| && instances[m].id == id { return Some(m); }
    return None;
  }

  class Trial {
    var instances: seq<Instance>
    var fences: Fences

    constructor (w: Work)
      ensures View() == w
    {
      instances, fences := w.instances, w.fences;
    }

    function View(): Work
      reads this
    {
      Work(instances, fences)
    }

    /** Issues a token, recording its serial. */
    method IssueFor(id: Id) returns (r: Result<Token>)
      modifies this
      ensures instances == old(instances)
      ensures var issued := Issue(old(fences), id);
        if issued.Ok? then r == Ok(issued.value.token) && fences == issued.value.fences
        else r == Err(issued.code) && fences == old(fences)
    {
      var issued := Issue(fences, id);
      if issued.Err? { return Err(issued.code); }
      fences := issued.value.fences;
      return Ok(issued.value.token);
    }

    /** One planned replica: create, replace, reattempt or keep its instance. On a refusal
        the trial copy is thrown away. */
    method PlaceReplica(s: Slot, plan: Plan, group: Id, at: nat, maxInstances: nat, hash: string -> string) returns (code: Reason)
      modifies this
      ensures var r := ReconcileSlot(old(View()), s, plan, group, at, maxInstances, hash);
        if r.Ok? then code == Nominal && View() == r.value else code == r.code && code != Nominal
    {
      hide Issue, FindInstance;
      var id := SlotId(hash, group, s);
      IssueRefuses(fences, id);
      var k := FindAt(instances, id);
      if k.None? {
        if |instances| >= maxInstances { return BoundExceeded; }
        var token := IssueFor(id);
        if token.Err? { return token.code; }
        instances := instances + [CreateInstance(id, s, plan, group, token.value, at)];
        return Nominal;
      }
      var i := instances[k.value];
      if Replaces(i, s) {
        var moved := i.(incarnation := SatNext(i.incarnation), dpu := s.replica.dpu, attachment := s.replica.attachment,
                        domain := s.replica.domain, version := s.version, deploymentGeneration := plan.generation,
                        topologyGeneration := plan.topology, capabilityGeneration := plan.capability);
        var fenced := Fence(moved, at, if Terminal(i.state) then SupersededEffect else AttemptSuperseded);
        var token := IssueFor(id);
        if token.Err? { return token.code; }
        instances := instances[k.value := fenced.(attempts := OpenAttempt(fenced.attempts, token.value, Authorized, at), state := Authorized)];
        return Nominal;
      }
      if !HasOpen(i) {
        var token := IssueFor(id);
        if token.Err? { return token.code; }
        instances := instances[k.value := Reattempt(i, plan, token.value, at)];
        return Nominal;
      }
      instances := instances[k.value := i.(deploymentGeneration := plan.generation)];
      return Nominal;
    }

    /** The replicas of one planned service. */
    method PlaceService(sp: ServicePlan, plan: Plan, group: Id, at: nat, maxInstances: nat, hash: string -> string) returns (code: Reason)
      modifies this
      ensures var r := ReconcileSlots(old(View()), SlotsOf(sp), plan, group, at, maxInstances, hash);
        if r.Ok? then code == Nominal && View() == r.value else code == r.code && code != Nominal
    {
      hide ReconcileSlot;
      ghost var slots := SlotsOf(sp);
      ghost var whole := ReconcileSlots(View(), slots, plan, group, at, maxInstances, hash);
      var j := 0;
      assert slots[0..] == slots;
      while j < |sp.replicas|
        invariant 0 <= j <= |sp.replicas| == |slots|
        invariant whole == ReconcileSlots(View(), slots[j..], plan, group, at, maxInstances, hash)
      {
        assert slots[j..][0] == slots[j] && slots[j..][1..] == slots[j + 1..];
        code := PlaceReplica(Slot(sp.service, sp.version, sp.replicas[j]), plan, group, at, maxInstances, hash);
        if code != Nominal { return; }
        j := j + 1;
      }
      return Nominal;
    }

    /** All planned services, in plan order. */
    method PlaceAll(plan: Plan, group: Id, at: nat, maxInstances: nat, hash: string -> string) returns (code: Reason)
      modifies this
      ensures var r := ReconcileSlots(old(View()), Slots(plan.services), plan, group, at, maxInstances, hash);
        if r.Ok? then code == Nominal && View() == r.value else code == r.code && code != Nominal
    {
      hide ReconcileSlots, SlotsOf;
      var plans := plan.services;
      ghost var whole := ReconcileSlots(View(), Slots(plans), plan, group, at, maxInstances, hash);
      var i := 0;
      assert plans[0..] == plans;
      while i < |plans|
        invariant 0 <= i <= |plans|
        invariant whole == ReconcileSlots(View(), Slots(plans[i..]), plan, group, at, maxInstances, hash)
      {
        assert plans[i..][0] == plans[i] && plans[i..][1..] == plans[i + 1..];
        SlotsSplit(View(), SlotsOf(plans[i]), Slots(plans[i + 1..]), plan, group, at, maxInstances, hash);
        code := PlaceService(plans[i], plan, group, at, maxInstances, hash);
        if code != Nominal { return; }
        i := i + 1;
      }
      NoSlots(View(), plan, group, at, maxInstances, hash);
      return Nominal;
    }

    /** Quiesces every instance of the group that the plan does not cover. */
    method RetireAll(plan: Plan, group: Id, planned: seq<Id>, at: nat) returns (code: Reason)
      modifies this
      ensures var r := RetireFrom(old(View()), 0, plan, group, planned, at);
        if r.Ok? then code == Nominal && View() == r.value else code == r.code && code != Nominal
    {
      hide Issue, Retires, Quiesce;
      ghost var whole := RetireFrom(View(), 0, plan, group, planned, at);
      var k := 0;
      while k < |instances|
        invariant 0 <= k <= |instances| && whole == RetireFrom(View(), k, plan, group, planned, at)
        decreases |instances| - k
      {
        IssueRefuses(fences, instances[k].id);
        if Retires(instances[k], plan, group, planned) {
          var q := CancelOpen(instances[k].attempts, at, QuiesceAsked);
          QuiesceIs(instances[k], at);
          var i := instances[k].(attempts := q, state := Quiescing, healthFresh := false);
          if plan.kind == Withdraw {
            var token := IssueFor(instances[k].id);
            if token.Err? { return token.code; }
            i := i.(attempts := OpenAttempt(i.attempts, token.value, Quiescing, at));
          }
          instances := instances[k := i];
        }
        k := k + 1;
      }
      return Nominal;
    }

    /** `reconcile` */
    method Reconcile(plan: Plan, group: Id, at: nat, maxInstances: nat, hash: string -> string) returns (code: Reason)
      modifies this
      ensures var r := Reducers.Reconcile(old(View()), plan, group, at, maxInstances, hash);
        if r.Ok? then code == Nominal && View() == r.value else code == r.code && code != Nominal
      ensures code == Nominal && Entries(old(instances), old(fences)) ==>
        && Entries(instances, fences)
        && (LookupsRight(Ids(old(instances)), PlannedIds(hash, group, Slots(plan.services))) ==>
              Rows(old(instances), old(fences)) ==> Rows(instances, fences))
    {
      hide ReconcileSlots, RetireFrom, Slots, PlannedIds, Entries, Rows, LookupsRight;
      code := PlaceAll(plan, group, at, maxInstances, hash);
      if code != Nominal { return; }
      code := RetireAll(plan, group, PlannedIds(hash, group, Slots(plan.services)), at);
      if code == Nominal && Entries(old(instances), old(fences)) {
        ReconcileOk(old(View()), plan, group, at, maxInstances, hash);
      }
    }
  }

  lemma IssueRefuses(f: Fences, id: Id)
    ensures Issue(f, id).Err? ==> Issue(f, id).code != Nominal
  {
  }

  lemma QuiesceIs(i: Instance, at: nat)
    ensures Quiesce(i, at) == i.(attempts := CancelAttempts(i.attempts, at, QuiesceAsked), state := Quiescing, healthFresh := false)
  {
  }

  lemma NoSlots(w: Work, plan: Plan, group: Id, at: nat, maxInstances: nat, hash: string -> string)
    ensures ReconcileSlots(w, [], plan, group, at, maxInstances, hash) == Ok(w)
  {
  }

  lemma {:induction false} SlotsSplit(w: Work, a: seq<Slot>, b: seq<Slot>, plan: Plan, group: Id, at: nat, maxInstances: nat, hash: string -> string)
    ensures ReconcileSlots(w, a + b, plan, group, at, maxInstances, hash) ==
      (var first := ReconcileSlots(w, a, plan, group, at, maxInstances, hash);
      if first.Err? then first else ReconcileSlots(first.value, b, plan, group, at, maxInstances, hash))
    decreases |a|
  {
    hide ReconcileSlot;
    if a == [] {
      assert a + b == b;
    } else {
      assert (a + b)[1..] == a[1..] + b && (a + b)[0] == a[0];
      var next := ReconcileSlot(w, a[0], plan, group, at, maxInstances, hash);
      if next.Ok? { SlotsSplit(next.value, a[1..], b, plan, group, at, maxInstances, hash); }
    }
  }
}
