/** The reducers as they work: loops that update the accepted state in place, each
    proved to leave exactly the state its reducer determines. */
module ReducersRun {
  import opened Base
  import opened Order
  import opened Model
  import opened Authority
  import opened Eligibility
  import opened Planner
  import opened Reducers

  // ---------------------------------------------------------------------
  // Loops over values.
  // ---------------------------------------------------------------------

  method CancelOpen(attempts: seq<Attempt>, at: nat, reason: Reason) returns (r: seq<Attempt>)
    ensures r == CancelAttempts(attempts, at, reason)
    ensures forall k :: 0 <= k < |r| ==> r[k].outcome != Open
  {
    r := attempts;
    var k := 0;
    while k < |r|
      invariant 0 <= k <= |r| == |attempts|
      invariant forall j :: 0 <= j < k ==> r[j] == CancelAttempt(attempts[j], at, reason)
      invariant forall j :: k <= j < |r| ==> r[j] == attempts[j]
    {
      if r[k].outcome == Open {
        r := r[k := r[k].(outcome := ClosedCancelled, closeReason := reason, closedAt := at, phase := Cancelled)];
      }
      k := k + 1;
    }
  }

  /** `fence_instance` */
  method Fence(i: Instance, at: nat, reason: Reason) returns (j: Instance)
    ensures j == FenceInstance(i, at, reason)
    ensures j.state != Verified && j.effectFencedAt == at
  {
    var attempts := CancelOpen(i.attempts, at, reason);
    j := i.(effectFenceSerial := SatNext(i.effectFenceSerial), effectFencedAt := at, fenceReason := reason,
            health := UnknownHealth, healthFresh := false, attempts := attempts);
    if ClaimsLiveness(i.state) { j := j.(state := Unverified); }
  }

  /** `TopologySnapshot::find` */
  method FindDevice(dpus: seq<Dpu>, id: Id) returns (k: nat)
    ensures k == IndexOf(DpuIds(dpus), id) && k <= |dpus|
  {
    k := 0;
    ghost var ids := DpuIds(dpus);
    while k < |dpus|
      invariant 0 <= k <= |dpus| && forall j :: 0 <= j < k ==> ids[j] != id
    {
      if dpus[k].id == id {
        FirstIs(ids, id, k);
        return;
      }
      k := k + 1;
    }
    NoneIs(ids, id);
  }

  lemma {:induction false} FirstIs(ids: seq<Id>, id: Id, k: nat)
    requires k < |ids| && ids[k] == id && forall j :: 0 <= j < k ==> ids[j] != id
    ensures IndexOf(ids, id) == k
  {
    var m := IndexOf(ids, id);
    assert id in ids;
    assert m < |ids| && ids[m] == id;
  }

  lemma NoneIs(ids: seq<Id>, id: Id)
    requires forall j :: 0 <= j < |ids| ==> ids[j] != id
    ensures IndexOf(ids, id) == |ids|
  {
  }

  // ---------------------------------------------------------------------
  // The accepted state, updated in place.
  // ---------------------------------------------------------------------

  class AcceptedState {
    var state: RuntimeState

    constructor (st: RuntimeState)
      ensures state == st
    {
      state := st;
    }

    method PutInstance(k: nat, i: Instance)
      requires k < |state.instances|
      modifies this
      ensures state == old(state).(instances := old(state).instances[k := i])
    {
      state := state.(instances := state.instances[k := i]);
    }

    method PutDpu(k: nat, d: Dpu)
      requires k < |state.topology.dpus|
      modifies this
      ensures state == SetDpu(old(state), k, d)
    {
      state := state.(topology := state.topology.(dpus := state.topology.dpus[k := d]));
    }

    /** `refresh_health`: every device against the clock, then every instance against
        its device. */
    method Refresh()
      modifies this
      ensures state == RefreshHealth(old(state))
    {
      RefreshDevices();
      ghost var mid := state;
      var k := 0;
      while k < |state.instances|
        invariant 0 <= k <= |state.instances| == |mid.instances|
        invariant state == mid.(instances := state.instances)
        invariant forall j :: 0 <= j < k ==> state.instances[j] == RefreshInstance(mid.instances[j], mid.topology.dpus)
        invariant forall j :: k <= j < |mid.instances| ==> state.instances[j] == mid.instances[j]
      {
        RefreshOne(k);
        k := k + 1;
      }
      assert state.instances == RefreshInstances(mid.instances, mid.topology.dpus);
    }

    method RefreshDevices()
      modifies this
      ensures state == old(state).(topology := old(state).topology.(dpus := RefreshDpus(old(state).topology.dpus, old(state).clock)))
    {
      ghost var start := state;
      var k := 0;
      while k < |state.topology.dpus|
        invariant 0 <= k <= |state.topology.dpus| == |start.topology.dpus|
        invariant state == start.(topology := start.topology.(dpus := state.topology.dpus))
        invariant forall j :: 0 <= j < k ==> state.topology.dpus[j] == RefreshDpu(start.topology.dpus[j], start.clock)
        invariant forall j :: k <= j < |start.topology.dpus| ==> state.topology.dpus[j] == start.topology.dpus[j]
      {
        var d := state.topology.dpus[k];
        if d.state == LostState || d.health == UnknownHealth {
          PutDpu(k, d.(healthFresh := false));
        } else {
          PutDpu(k, d.(healthFresh := d.healthEvidence.Present() && d.healthEvidence.FreshAt(state.clock)
                                      && d.healthEvidence.observedAt >= d.healthObservedAt));
        }
        k := k + 1;
      }
      assert state.topology.dpus == RefreshDpus(start.topology.dpus, start.clock);
    }

    method RefreshOne(k: nat)
      requires k < |state.instances|
      modifies this
      ensures state == old(state).(instances := old(state).instances[k := RefreshInstance(old(state).instances[k], old(state).topology.dpus)])
    {
      hide IndexOf;
      var i := state.instances[k];
      var m := FindDevice(state.topology.dpus, i.dpu);
      if m == |state.topology.dpus| || state.topology.dpus[m].state != Attached {
        PutInstance(k, i.(healthFresh := false));
      } else {
        var d := state.topology.dpus[m];
        var current := d.healthFresh && d.health == Healthy;
        var j := i.(health := d.health, healthFresh := current);
        if current { j := j.(healthObservedAt := d.healthObservedAt); }
        PutInstance(k, j);
      }
    }

    /** Fences every instance, as a new coordinator and a restart do. */
    method FenceEvery(at: nat, reason: Reason)
      modifies this
      ensures state == old(state).(instances := FenceAll(old(state).instances, at, reason))
    {
      hide FenceInstance;
      ghost var start := state;
      var k := 0;
      while k < |state.instances|
        invariant 0 <= k <= |state.instances| == |start.instances|
        invariant state == start.(instances := state.instances)
        invariant forall j :: 0 <= j < k ==> state.instances[j] == FenceInstance(start.instances[j], at, reason)
        invariant forall j :: k <= j < |start.instances| ==> state.instances[j] == start.instances[j]
      {
        var j := Fence(state.instances[k], at, reason);
        PutInstance(k, j);
        k := k + 1;
      }
      assert state.instances == FenceAll(start.instances, at, reason);
    }

    /** Fences what ran on a lost device and releases its grants. */
    method Lose(dpu: Id, at: nat)
      modifies this
      ensures state == old(state).(instances := LoseDevice(old(state).instances, dpu, at),
                                   grants := ReleaseDevice(old(state).grants, dpu))
    {
      hide FenceInstance;
      ghost var start := state;
      var k := 0;
      while k < |state.instances|
        invariant 0 <= k <= |state.instances| == |start.instances|
        invariant state == start.(instances := state.instances)
        invariant forall j :: 0 <= j < k ==> state.instances[j] == LoseOn(start.instances[j], dpu, at)
        invariant forall j :: k <= j < |start.instances| ==> state.instances[j] == start.instances[j]
      {
        if state.instances[k].dpu == dpu {
          var j := Fence(state.instances[k], at, DeviceLost);
          PutInstance(k, j.(state := Lost));
        }
        k := k + 1;
      }
      assert state.instances == LoseDevice(start.instances, dpu, at);
      state := state.(grants := ReleaseDevice(state.grants, dpu));
    }

    method Coordinator(at: nat, epoch: nat, coordinator: Id) returns (code: Reason, applied: bool)
      modifies this
      ensures Applied(state, code, applied) == ReduceCoordinator(old(state), at, epoch, coordinator)
    {
      hide FenceAll;
      if epoch < state.epoch { return EpochRegressed, false; }
      state := state.(grants := []);
      if epoch < state.fences.epoch { return EpochRegressed, false; }
      state := state.(fences := Reset(epoch, state.boot), epoch := epoch);
      if coordinator != "" { state := state.(coordinator := coordinator); }
      FenceEvery(at, StaleAuthority);
      return Nominal, true;
    }

    method DeviceLostAt(at: nat, dpu: Id) returns (code: Reason, applied: bool)
      modifies this
      ensures Applied(state, code, applied) == ReduceLost(old(state), at, dpu)
    {
      hide LoseDevice, IndexOf;
      var k := FindDevice(state.topology.dpus, dpu);
      if k == |state.topology.dpus| { return DpuUnavailable, false; }
      if state.topology.dpus[k].state == LostState { return DuplicateSuppressed, false; }
      PutDpu(k, state.topology.dpus[k].(state := LostState, health := UnknownHealth, healthFresh := false, healthObservedAt := at));
      Lose(dpu, at);
      return Nominal, true;
    }

    method QuiesceService(at: nat, service: Id) returns (code: Reason, applied: bool)
      modifies this
      ensures Applied(state, code, applied) == ReduceQuiesce(old(state), at, service)
    {
      hide QuiesceApplies;
      ghost var start := state;
      applied := false;
      var k := 0;
      while k < |state.instances|
        invariant 0 <= k <= |state.instances| == |start.instances|
        invariant state == start.(instances := state.instances)
        invariant applied <==> exists j :: 0 <= j < k && QuiesceApplies(start.instances[j], service)
        invariant forall j :: 0 <= j < k ==>
          state.instances[j] == if QuiesceApplies(start.instances[j], service) then Quiesce(start.instances[j], at) else start.instances[j]
        invariant forall j :: k <= j < |start.instances| ==> state.instances[j] == start.instances[j]
      {
        if QuiesceApplies(state.instances[k], service) {
          var attempts := CancelOpen(state.instances[k].attempts, at, QuiesceAsked);
          PutInstance(k, state.instances[k].(attempts := attempts, state := Quiescing, healthFresh := false));
          applied := true;
        }
        k := k + 1;
      }
      hide Quiesce;
      assert applied <==> exists i :: i in start.instances && QuiesceApplies(i, service);
      if applied {
        assert state == ReduceQuiesce(start, at, service).state;
        return Nominal, true;
      }
      assert state.instances == start.instances;
      return NoPlacementChange, false;
    }

    /** Every removed device in turn. */
    method Remove(removed: seq<Id>, at: nat)
      modifies this
      ensures state == RemoveDevices(old(state), removed, at)
    {
      hide LoseDevice, ReleaseDevice;
      ghost var whole := RemoveDevices(state, removed, at);
      var k := 0;
      assert removed[0..] == removed;
      while k < |removed|
        invariant 0 <= k <= |removed| && RemoveDevices(state, removed[k..], at) == whole
      {
        assert removed[k..][0] == removed[k] && removed[k..][1..] == removed[k + 1..];
        Lose(removed[k], at);
        k := k + 1;
      }
    }
  }
}
