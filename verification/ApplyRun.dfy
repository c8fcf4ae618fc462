/** `apply_event` on the state in place: every event leaves the state, the code and the
    outcome its reducer determines. */
module ApplyRun {
  import opened Base
  import opened Order
  import opened Model
  import opened Authority
  import opened Eligibility
  import opened DependencyGraph
  import opened Planner
  import opened Reducers
  import opened Invariant
  import opened ReducersRun
  import opened ReconcileRun

  /** Sorted devices are checked and admitted one after the other. */
  method AdmitAll(sorted: seq<Dpu>, generation: nat, at: nat, maxCapabilities: nat) returns (r: Result<seq<Dpu>>)
    ensures r == AdmitDpus(sorted, generation, at, maxCapabilities)
  {
    hide Normalize, AdmitDpu;
    var admitted: seq<Dpu> := [];
    var n := 0;
    while n < |sorted|
      invariant 0 <= n <= |sorted| && AdmitDpus(sorted[..n], generation, at, maxCapabilities) == Ok(admitted)
    {
      var d := sorted[n];
      ghost var prefix := sorted[..n + 1];
      assert prefix[..n] == sorted[..n] && prefix[n] == d && (n > 0 ==> prefix[n - 1] == sorted[n - 1]);
      if d.id == "" || d.attachment == "" || d.domain == "" {
        AdmitRefused(sorted, n + 1, generation, at, maxCapabilities);
        return Err(InvalidIdentity);
      }
      if n > 0 && sorted[n - 1].id == d.id {
        AdmitRefused(sorted, n + 1, generation, at, maxCapabilities);
        return Err(DuplicateIdentity);
      }
      var caps := Normalize(d.capabilities, maxCapabilities);
      if caps.Err? {
        AdmitRefused(sorted, n + 1, generation, at, maxCapabilities);
        return Err(caps.code);
      }
      admitted := admitted + [AdmitDpu(d, caps.value, generation, at)];
      n := n + 1;
    }
    assert sorted[..|sorted|] == sorted;
    return Ok(admitted);
  }

  /** Once a device is refused, so is the snapshot. */
  lemma {:induction false} AdmitRefused(sorted: seq<Dpu>, n: nat, generation: nat, at: nat, maxCapabilities: nat)
    requires n <= |sorted| && AdmitDpus(sorted[..n], generation, at, maxCapabilities).Err?
    ensures AdmitDpus(sorted, generation, at, maxCapabilities) == AdmitDpus(sorted[..n], generation, at, maxCapabilities)
    decreases |sorted| - n
  {
    hide Normalize, AdmitDpu;
    if n == |sorted| {
      assert sorted[..n] == sorted;
    } else {
      assert sorted[..n + 1][..n] == sorted[..n];
      AdmitRefused(sorted, n + 1, generation, at, maxCapabilities);
    }
  }

  method ApplyTopology(a: AcceptedState, at: nat, snapshot: Topology, b: Bounds) returns (code: Reason, applied: bool)
    modifies a
    ensures Applied(a.state, code, applied) == ReduceTopology(old(a.state), at, snapshot, b)
  {
    hide AdmitDpus, Sort, Removed, HighestCapability, RemoveDevices, RefreshHealth;
    var st := a.state;
    if snapshot.generation == 0 { return InvalidIdentity, false; }
    if snapshot.generation < st.topologyGeneration { return StaleGeneration, false; }
    if |snapshot.dpus| > b.maxDpus { return BoundExceeded, false; }
    var admitted := AdmitAll(Sort(snapshot.dpus, DpuLess), st.capabilityGeneration, at, b.maxCapabilities);
    if admitted.Err? { return admitted.code, false; }
    a.state := st.(topology := snapshot.(dpus := admitted.value), topologyGeneration := snapshot.generation);
    a.Remove(Removed(st.topology.dpus, admitted.value), at);
    a.state := a.state.(capabilityGeneration := HighestCapability(admitted.value, st.capabilityGeneration));
    a.Refresh();
    return Nominal, true;
  }

  /** An intent works on a trial copy, so a refusal halfway leaves the state alone. */
  method ApplyIntent(a: AcceptedState, at: nat, intent: Intent, cfg: Config) returns (code: Reason, applied: bool)
    modifies a
    ensures Applied(a.state, code, applied) == ReduceIntent(old(a.state), at, intent, cfg)
    ensures !applied ==> a.state == old(a.state)
  {
    var st := a.state;
    code := IntentStatus(st, intent);
    if code != Nominal { return code, false; }
    var group := FindGroup(st.groups, intent.group).value;
    hide IntentStatus, FindGroup, PlanFor, ClaimPlans, Reconcile, Install;
    var plan := PlanFor(st, group, intent, at, cfg);
    if plan.Err? { return plan.code, false; }
    var grants := ClaimPlans(st.grants, plan.value.services, group.id, st, at, cfg.bounds.maxDpus);
    if grants.Err? { return grants.code, false; }
    var trial := new Trial(Work(st.instances, st.fences));
    var done := trial.Reconcile(plan.value, group.id, at, cfg.bounds.maxInstances, cfg.hash);
    if done != Nominal { return done, false; }
    a.state := Install(st, plan.value, trial.View(), grants.value, cfg.bounds);
    return Nominal, true;
  }

  method ApplyEffect(a: AcceptedState, at: nat, r: Report) returns (code: Reason, applied: bool)
    modifies a
    ensures Applied(a.state, code, applied) == ReduceEffect(old(a.state), at, r)
  {
    var st := a.state;
    var bad := ReportStatus(st, at, r);
    if bad != Nominal { return bad, false; }
    ReportAccepted(st, at, r);
    hide ReportStatus, Decided;
    var found := FindAt(st.instances, r.instance);
    var k := found.value;
    hide FindInstance;
    var i := st.instances[k];
    a.PutInstance(k, Decided(i, at, r));
    if r.status == FailedStatus { return EffectFailed, true; }
    if r.kind == WithdrawEffect {
      a.state := a.state.(grants := ReleaseDevice(a.state.grants, i.dpu));
      return WithdrawnEffect, true;
    }
    return Nominal, true;
  }

  /** The dispatch. Reducers without loops are assignments of the value they determine. */
  method ApplyEvent(a: AcceptedState, cfg: Config, e: Event) returns (code: Reason, applied: bool)
    modifies a
    ensures Applied(a.state, code, applied) == Apply(cfg, old(a.state), e)
  {
    hide ReduceTime, ReduceCoordinator, ReduceTopology, ReduceLost, ReduceQuiesce, ReduceAcknowledged, ReduceEffect;
    hide ReduceIntent, ReduceCapability, ReduceHealth, ReduceAttached, ReduceService, ReduceGroup, ReduceDependency, ReducePolicy;
    var out: Applied;
    match e.body {
      case TopologyObserved(snapshot) => code, applied := ApplyTopology(a, e.at, snapshot, cfg.bounds); return;
      case CoordinatorAdvanced(epoch, coordinator) => code, applied := a.Coordinator(e.at, epoch, coordinator); return;
      case DpuLost(dpu) => code, applied := a.DeviceLostAt(e.at, dpu); return;
      case QuiesceRequested(service) => code, applied := a.QuiesceService(e.at, service); return;
      case IntentSubmitted(intent) => code, applied := ApplyIntent(a, e.at, intent, cfg); return;
      case EffectReported(r) => code, applied := ApplyEffect(a, e.at, r); return;
      case LogicalTimeAdvanced(now) => out := ReduceTime(a.state, now);
      case CapabilityObserved(_, _, _, _, _) => out := ReduceCapability(a.state, e.at, e.body, cfg.bounds);
      case HealthObserved(_, _, _) => out := ReduceHealth(a.state, e.at, e.body);
      case DpuAttached(_, _, _, _, _) => out := ReduceAttached(a.state, e.at, e.body);
      case ExecutionAcknowledged(_, _, _) => out := ReduceAcknowledged(a.state, e.body);
      case ServiceDeclared(s) => out := ReduceService(a.state, s, cfg.bounds);
      case GroupDeclared(g) => out := ReduceGroup(a.state, g, cfg.bounds);
      case DependencyDeclared(d) => out := ReduceDependency(a.state, d, cfg.bounds);
      case PolicyAdvanced(p) => out := ReducePolicy(a.state, e.at, p);
    }
    a.state := out.state;
    return out.code, out.applied;
  }
}
