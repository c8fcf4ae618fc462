/** The accepted state and the reducer of every event. Each reducer is the value
    `apply_event` leaves in the state, with the reason code and whether the event
    was applied. */
module Reducers {
  import opened Base
  import opened Order
  import opened Model
  import opened Authority
  import opened Eligibility
  import opened DependencyGraph
  import opened Planner

  datatype RuntimeState = RuntimeState(
    storeId: Id, coordinator: Id, epoch: nat, boot: nat, clock: nat, watermark: nat,
    topologyGeneration: nat, capabilityGeneration: nat, policyGeneration: nat, deploymentGeneration: nat,
    policy: Policy, topology: Topology, services: seq<Service>, groups: seq<Group>,
    dependencies: seq<Dependency>, instances: seq<Instance>, plans: seq<Plan>,
    grants: seq<Grant>, fences: Fences, restartFenced: seq<Id>, journaled: nat)

  datatype EffectKind = DeployEffect | WithdrawEffect | OtherEffect
  datatype EffectStatus = Succeeded | Partial | FailedStatus | Refused

  datatype Report = Report(
    instance: Id, attempt: nat, fence: Token, kind: EffectKind, status: EffectStatus,
    evidence: Evidence, effectDigest: nat, partial: bool)

  datatype Body =
    | TopologyObserved(snapshot: Topology)
    | CapabilityObserved(dpu: Id, capabilities: seq<Capability>, generation: nat, topology: nat, evidence: Evidence)
    | HealthObserved(dpu: Id, health: Health, evidence: Evidence)
    | PolicyAdvanced(policy: Policy)
    | DpuAttached(dpu: Id, attachment: Id, domain: Id, topology: nat, evidence: Evidence)
    | DpuLost(dpu: Id)
    | ServiceDeclared(definition: Service)
    | GroupDeclared(group: Group)
    | DependencyDeclared(dependency: Dependency)
    | IntentSubmitted(intent: Intent)
    | ExecutionAcknowledged(instance: Id, attempt: nat, fence: Token)
    | EffectReported(report: Report)
    | CoordinatorAdvanced(epoch: nat, coordinator: Id)
    | LogicalTimeAdvanced(now: nat)
    | QuiesceRequested(service: Id)

  /** `seal` is the digest the sender put on the body, or empty. */
  datatype Event = Event(id: Id, origin: Id, originEpoch: nat, originSeq: nat, at: nat, body: Body, seal: Id)

  /** What a configuration can read back: the two files as a whole, a saved state, and a
      journal record. Each is bounded by the configuration's limits. */
  datatype Reader = Reader(
    loads: (Option<RuntimeState>, seq<Event>) -> bool, restores: RuntimeState -> bool, decodes: Event -> bool)

  datatype Config = Config(
    bounds: Bounds, weights: Weights, hash: string -> string, digest: Event -> Id, seal: Body -> Id, reader: Reader,
    storeId: Id, coordinator: Id, epoch: nat, boot: nat)

  datatype Applied = Applied(state: RuntimeState, code: Reason, applied: bool)

  /** No event touches these, save that time moves the clock. */
  predicate SameFrame(a: RuntimeState, b: RuntimeState) {
    && b.storeId == a.storeId && b.boot == a.boot && b.clock == a.clock && b.watermark == a.watermark
    && b.journaled == a.journaled && b.restartFenced == a.restartFenced
  }

  function Refuse(st: RuntimeState, code: Reason): Applied { Applied(st, code, false) }
  function Accept(st: RuntimeState, code: Reason): Applied { Applied(st, code, true) }

  // ---------------------------------------------------------------------
  // Health freshness.
  // ---------------------------------------------------------------------

  function RefreshDpu(d: Dpu, clock: nat): Dpu {
    if d.state == LostState || d.health == UnknownHealth then d.(healthFresh := false)
    else
      d.(healthFresh := d.healthEvidence.Present() && d.healthEvidence.FreshAt(clock)
                        && d.healthEvidence.observedAt >= d.healthObservedAt)
  }

  function FindDpu(dpus: seq<Dpu>, id: Id): Option<Dpu> {
    var k := IndexOf(DpuIds(dpus), id);
    if k < |dpus| then Some(dpus[k]) else None
  }

  function RefreshInstance(i: Instance, dpus: seq<Dpu>): Instance {
    var d := FindDpu(dpus, i.dpu);
    if d.None? || d.value.state != Attached then i.(healthFresh := false)
    else
      var fresh_ := d.value.healthFresh && d.value.health == Healthy;
      i.(health := d.value.health, healthFresh := fresh_,
         healthObservedAt := if fresh_ then d.value.healthObservedAt else i.healthObservedAt)
  }

  function RefreshDpus(dpus: seq<Dpu>, clock: nat): seq<Dpu> {
    seq(|dpus|, i requires 0 <= i < |dpus| => RefreshDpu(dpus[i], clock))
  }

  function RefreshInstances(instances: seq<Instance>, dpus: seq<Dpu>): seq<Instance> {
    seq(|instances|, i requires 0 <= i < |instances| => RefreshInstance(instances[i], dpus))
  }

  function RefreshHealth(st: RuntimeState): RuntimeState {
    var dpus := RefreshDpus(st.topology.dpus, st.clock);
    st.(topology := st.topology.(dpus := dpus), instances := RefreshInstances(st.instances, dpus))
  }

  // ---------------------------------------------------------------------
  // Fencing and cancelling.
  // ---------------------------------------------------------------------

  function CancelAttempt(a: Attempt, at: nat, reason: Reason): Attempt {
    if a.outcome == Open
    then a.(outcome := ClosedCancelled, closeReason := reason, closedAt := at, phase := Cancelled)
    else a
  }

  function CancelAttempts(attempts: seq<Attempt>, at: nat, reason: Reason): seq<Attempt> {
    seq(|attempts|, i requires 0 <= i < |attempts| => CancelAttempt(attempts[i], at, reason))
  }

  predicate ClaimsLiveness(s: Lifecycle) {
    s == Verified || s == Acknowledged || s == Deploying || s == Authorized || s == Planned
  }

  function FenceInstance(i: Instance, at: nat, reason: Reason): Instance {
    i.(effectFenceSerial := SatNext(i.effectFenceSerial), effectFencedAt := at, fenceReason := reason,
       health := UnknownHealth, healthFresh := false,
       attempts := CancelAttempts(i.attempts, at, reason),
       state := if ClaimsLiveness(i.state) then Unverified else i.state)
  }

  function Quiesce(i: Instance, at: nat): Instance {
    i.(attempts := CancelAttempts(i.attempts, at, QuiesceAsked), state := Quiescing, healthFresh := false)
  }

  function FenceAll(instances: seq<Instance>, at: nat, reason: Reason): seq<Instance> {
    seq(|instances|, i requires 0 <= i < |instances| => FenceInstance(instances[i], at, reason))
  }

  function LoseOn(i: Instance, dpu: Id, at: nat): Instance {
    if i.dpu == dpu then FenceInstance(i, at, DeviceLost).(state := Lost) else i
  }

  function LoseDevice(instances: seq<Instance>, dpu: Id, at: nat): seq<Instance> {
    seq(|instances|, i requires 0 <= i < |instances| => LoseOn(instances[i], dpu, at))
  }

  // ---------------------------------------------------------------------
  // Time, coordinator, declarations, policy.
  // ---------------------------------------------------------------------

  function ReduceTime(st: RuntimeState, now: nat): (r: Applied)
    ensures (!r.applied ==> r.state == st) && SameFrame(st.(clock := Max(st.clock, now)), r.state)
  {
    if now < st.clock then Refuse(st, StaleGeneration)
    else Accept(RefreshHealth(st.(clock := now)), Nominal)
  }

  /** The grants are dropped before the issuer is asked, so a refusal by the issuer
      would leave them dropped. */
  function ReduceCoordinator(st: RuntimeState, at: nat, epoch: nat, coordinator: Id): (r: Applied)
    ensures SameFrame(st, r.state)
  {
    if epoch < st.epoch then Refuse(st, EpochRegressed)
    else if epoch < st.fences.epoch then Refuse(st.(grants := []), EpochRegressed)
    else
      Accept(st.(grants := [], fences := Reset(epoch, st.boot), epoch := epoch,
                 coordinator := if coordinator != "" then coordinator else st.coordinator,
                 instances := FenceAll(st.instances, at, StaleAuthority)), Nominal)
  }

  function ReplaceService(services: seq<Service>, s: Service): seq<Service> {
    seq(|services|, i requires 0 <= i < |services| => if services[i].id == s.id then s else services[i])
  }

  function ReduceService(st: RuntimeState, s: Service, b: Bounds): (r: Applied)
    ensures (!r.applied ==> r.state == st) && SameFrame(st, r.state)
  {
    if s.id == "" || !s.version.Valid() then Refuse(st, InvalidIdentity)
    else if |s.displayName| > b.maxText then Refuse(st, OversizedInput)
    else if ReplicaPolicyStatus(s.replicas, b.maxReplicas) != Nominal then
      Refuse(st, ReplicaPolicyStatus(s.replicas, b.maxReplicas))
    else if |s.compatibility.capabilities| > b.maxCapabilities then Refuse(st, BoundExceeded)
    else if exists c :: c in s.compatibility.capabilities && c.key == "" then Refuse(st, InvalidIdentity)
    else
      var existing := FindService(st.services, s.id);
      if existing.Some? && VersionLess(s.version, existing.value.version) then Refuse(st, GenerationRegressed)
      else if existing.None? && |st.services| >= b.maxServices then Refuse(st, BoundExceeded)
      else
        var table := if existing.None? then st.services + [s] else ReplaceService(st.services, s);
        Accept(st.(services := Sort(table, ServiceLess)), Nominal)
  }

  function FindGroup(groups: seq<Group>, id: Id): Option<Group> {
    var k := IndexOf(Map(GroupIdOf, groups), id);
    if k < |groups| then Some(groups[k]) else None
  }

  function ReplaceGroup(groups: seq<Group>, g: Group): seq<Group> {
    seq(|groups|, i requires 0 <= i < |groups| => if groups[i].id == g.id then g else groups[i])
  }

  function ReduceGroup(st: RuntimeState, g: Group, b: Bounds): (r: Applied)
    ensures (!r.applied ==> r.state == st) && SameFrame(st, r.state)
  {
    if g.id == "" then Refuse(st, InvalidIdentity)
    else if |g.members| > b.maxServices then Refuse(st, BoundExceeded)
    else if AntiAffinityStatus(g.antiAffinity) != Nominal then Refuse(st, AntiAffinityStatus(g.antiAffinity))
    else if exists m :: m in g.members && FindService(st.services, m).None? then Refuse(st, ServiceNotDeclared)
    else
      var existing := FindGroup(st.groups, g.id);
      if existing.None? && |st.groups| >= b.maxServices then Refuse(st, BoundExceeded)
      else
        var table := if existing.None? then st.groups + [g] else ReplaceGroup(st.groups, g);
        Accept(st.(groups := Sort(table, GroupLess)), Nominal)
  }

  function ReduceDependency(st: RuntimeState, d: Dependency, b: Bounds): (r: Applied)
    ensures (!r.applied ==> r.state == st) && SameFrame(st, r.state)
  {
    var built := BuildGraph(st.dependencies + [d], b.maxDependencies);
    if built.Err? then Refuse(st, built.code)
    else if FindService(st.services, d.from).None? || FindService(st.services, d.to).None? then
      Refuse(st, ServiceNotDeclared)
    else Accept(st.(dependencies := built.value), Nominal)
  }

  function ReducePolicy(st: RuntimeState, at: nat, p: Policy): (r: Applied)
    ensures (!r.applied ==> r.state == st) && SameFrame(st, r.state)
  {
    if p.generation == 0 then Refuse(st, InvalidIdentity)
    else if p.generation < st.policyGeneration then Refuse(st, StaleGeneration)
    else if !p.evidence.Present() then Refuse(st, EvidenceMissing)
    else if !p.evidence.FreshAt(at) then Refuse(st, EvidenceStale)
    else if p.maxStageBatch == 0 || p.maxInstancesPerGroup == 0 || p.maxPerDpuCeiling == 0 || p.validityTicks == 0 then
      Refuse(st, ValueOutOfRange)
    else Accept(st.(policy := p, policyGeneration := p.generation), Nominal)
  }

  // ---------------------------------------------------------------------
  // Devices.
  // ---------------------------------------------------------------------

  function AdmitDpu(d: Dpu, capabilities: seq<Capability>, generation: nat, at: nat): Dpu {
    d.(capabilities := capabilities,
       capabilityGeneration := if d.capabilityGeneration == 0 then generation else d.capabilityGeneration,
       healthFresh := d.healthEvidence.Present() && d.healthEvidence.FreshAt(at)
                      && d.healthEvidence.observedAt >= d.healthObservedAt)
  }

  /** Checks and admits the sorted devices one after the other. */
  function AdmitDpus(sorted: seq<Dpu>, generation: nat, at: nat, maxCapabilities: nat): Result<seq<Dpu>> {
    if sorted == [] then Ok([])
    else
      var n := |sorted| - 1;
      var rest := AdmitDpus(sorted[..n], generation, at, maxCapabilities);
      var d := sorted[n];
      if rest.Err? then rest
      else if d.id == "" || d.attachment == "" || d.domain == "" then Err(InvalidIdentity)
      else if n > 0 && sorted[n - 1].id == d.id then Err(DuplicateIdentity)
      else
        var caps := Normalize(d.capabilities, maxCapabilities);
        if caps.Err? then Err(caps.code) else Ok(rest.value + [AdmitDpu(d, caps.value, generation, at)])
  }

  /** Devices of the old topology that the new one no longer lists, in order. */
  function Removed(old_: seq<Dpu>, dpus: seq<Dpu>): seq<Id> {
    if old_ == [] then []
    else (if old_[0].id in DpuIds(dpus) then [] else [old_[0].id]) + Removed(old_[1..], dpus)
  }

  function RemoveDevices(st: RuntimeState, removed: seq<Id>, at: nat): (r: RuntimeState)
    ensures r == st.(instances := r.instances, grants := r.grants)
    decreases |removed|
  {
    if removed == [] then st
    else
      RemoveDevices(
        st.(instances := LoseDevice(st.instances, removed[0], at), grants := ReleaseDevice(st.grants, removed[0])),
        removed[1..], at)
  }

  function HighestCapability(dpus: seq<Dpu>, floor: nat): nat {
    if dpus == [] then floor else Max(HighestCapability(dpus[..|dpus| - 1], floor), dpus[|dpus| - 1].capabilityGeneration)
  }

  function ReduceTopology(st: RuntimeState, at: nat, snapshot: Topology, b: Bounds): (r: Applied)
    ensures (!r.applied ==> r.state == st) && SameFrame(st, r.state)
  {
    if snapshot.generation == 0 then Refuse(st, InvalidIdentity)
    else if snapshot.generation < st.topologyGeneration then Refuse(st, StaleGeneration)
    else if |snapshot.dpus| > b.maxDpus then Refuse(st, BoundExceeded)
    else
      var admitted := AdmitDpus(Sort(snapshot.dpus, DpuLess), st.capabilityGeneration, at, b.maxCapabilities);
      if admitted.Err? then Refuse(st, admitted.code)
      else
        var removed := Removed(st.topology.dpus, admitted.value);
        var installed := st.(topology := snapshot.(dpus := admitted.value), topologyGeneration := snapshot.generation);
        var cleared := RemoveDevices(installed, removed, at);
        Accept(RefreshHealth(cleared.(capabilityGeneration :=
                 HighestCapability(admitted.value, st.capabilityGeneration))), Nominal)
  }

  function SetDpu(st: RuntimeState, k: nat, d: Dpu): RuntimeState
    requires k < |st.topology.dpus|
  {
    st.(topology := st.topology.(dpus := st.topology.dpus[k := d]))
  }

  function ObserveCapabilities(d: Dpu, caps: seq<Capability>, e: Body): Dpu
    requires e.CapabilityObserved?
  {
    d.(capabilities := caps, capabilityGeneration := e.generation, deviceEvidence := e.evidence,
       topologyGeneration :=
         if e.topology != 0 && e.topology > d.topologyGeneration then e.topology else d.topologyGeneration)
  }

  function ReduceCapability(st: RuntimeState, at: nat, e: Body, b: Bounds): (r: Applied)
    requires e.CapabilityObserved?
    ensures (!r.applied ==> r.state == st) && SameFrame(st, r.state)
  {
    var k := IndexOf(DpuIds(st.topology.dpus), e.dpu);
    if k == |st.topology.dpus| then Refuse(st, DpuUnavailable)
    else
      var d := st.topology.dpus[k];
      if e.generation < d.capabilityGeneration then Refuse(st, StaleGeneration)
      else
        var caps := Normalize(e.capabilities, b.maxCapabilities);
        if caps.Err? then Refuse(st, caps.code)
        else if !e.evidence.FreshAt(at) then Refuse(st, EvidenceStale)
        else if e.evidence.observedAt < d.healthObservedAt && d.state == LostState then Refuse(st, EvidenceStale)
        else
          Accept(SetDpu(st, k, ObserveCapabilities(d, caps.value, e))
                   .(capabilityGeneration := Max(st.capabilityGeneration, e.generation)), Nominal)
  }

  function ObserveHealth(d: Dpu, health: Health, evidence: Evidence, at: nat, clock: nat): Dpu {
    d.(health := health, healthEvidence := evidence, healthObservedAt := evidence.observedAt,
       healthFresh := (evidence.FreshAt(clock) || at >= clock) && d.state != LostState)
  }

  function ReduceHealth(st: RuntimeState, at: nat, e: Body): (r: Applied)
    requires e.HealthObserved?
    ensures (!r.applied ==> r.state == st) && SameFrame(st, r.state)
  {
    var k := IndexOf(DpuIds(st.topology.dpus), e.dpu);
    if k == |st.topology.dpus| then Refuse(st, DpuUnavailable)
    else
      var d := st.topology.dpus[k];
      if !e.evidence.Present() then Refuse(st, EvidenceMissing)
      else if e.evidence.observedAt < d.healthObservedAt then Refuse(st, EvidenceStale)
      else if !e.evidence.FreshAt(at) then Refuse(st, EvidenceStale)
      else Accept(RefreshHealth(SetDpu(st, k, ObserveHealth(d, e.health, e.evidence, at, st.clock))), Nominal)
  }

  function Attach(d: Dpu, e: Body): Dpu
    requires e.DpuAttached?
  {
    d.(state := Attached, attachment := if e.attachment != "" then e.attachment else d.attachment,
       domain := if e.domain != "" then e.domain else d.domain, deviceEvidence := e.evidence,
       health := UnknownHealth, healthFresh := false, healthObservedAt := e.evidence.observedAt)
  }

  function ReduceAttached(st: RuntimeState, at: nat, e: Body): (r: Applied)
    requires e.DpuAttached?
    ensures (!r.applied ==> r.state == st) && SameFrame(st, r.state)
  {
    var k := IndexOf(DpuIds(st.topology.dpus), e.dpu);
    if k == |st.topology.dpus| then Refuse(st, DpuUnavailable)
    else
      var d := st.topology.dpus[k];
      if !e.evidence.Present() then Refuse(st, EvidenceMissing)
      else if !e.evidence.FreshAt(at) then Refuse(st, EvidenceStale)
      else if e.evidence.observedAt < d.healthObservedAt then Refuse(st, EvidenceStale)
      else if e.topology != 0 && e.topology < st.topologyGeneration then Refuse(st, StaleGeneration)
      else
        Accept(SetDpu(st, k, Attach(d, e)), Nominal)
  }

  function ReduceLost(st: RuntimeState, at: nat, dpu: Id): (r: Applied)
    ensures (!r.applied ==> r.state == st) && SameFrame(st, r.state)
  {
    var k := IndexOf(DpuIds(st.topology.dpus), dpu);
    if k == |st.topology.dpus| then Refuse(st, DpuUnavailable)
    else if st.topology.dpus[k].state == LostState then Refuse(st, DuplicateSuppressed)
    else
      var d := st.topology.dpus[k].(state := LostState, health := UnknownHealth, healthFresh := false, healthObservedAt := at);
      Accept(SetDpu(st, k, d).(instances := LoseDevice(st.instances, dpu, at),
                               grants := ReleaseDevice(st.grants, dpu)), Nominal)
  }

  // ---------------------------------------------------------------------
  // Executor reports.
  // ---------------------------------------------------------------------

  predicate QuiesceApplies(i: Instance, service: Id) { i.service == service && i.state != Withdrawn }

  function ReduceQuiesce(st: RuntimeState, at: nat, service: Id): (r: Applied)
    ensures (!r.applied ==> r.state == st) && SameFrame(st, r.state)
  {
    if exists i :: i in st.instances && QuiesceApplies(i, service) then
      Accept(st.(instances := seq(|st.instances|, k requires 0 <= k < |st.instances| =>
               if QuiesceApplies(st.instances[k], service) then Quiesce(st.instances[k], at) else st.instances[k])), Nominal)
    else Refuse(st, NoPlacementChange)
  }

  /** `find_instance`: a binary search over the instance table. */
  function FindInstance(instances: seq<Instance>, id: Id): Option<nat> {
    var k := LowerBound(Ids(instances), id);
    if k < |instances| && instances[k].id == id then Some(k) else None
  }

  function SetInstance(st: RuntimeState, k: nat, i: Instance): RuntimeState
    requires k < |st.instances|
  {
    st.(instances := st.instances[k := i])
  }

  function SetLast(attempts: seq<Attempt>, a: Attempt): seq<Attempt>
    requires attempts != []
  {
    attempts[|attempts| - 1 := a]
  }

  function LastAttempt(i: Instance): Attempt
    requires i.attempts != []
  {
    i.attempts[|i.attempts| - 1]
  }

  function ReduceAcknowledged(st: RuntimeState, e: Body): (r: Applied)
    requires e.ExecutionAcknowledged?
    ensures (!r.applied ==> r.state == st) && SameFrame(st, r.state)
  {
    var k := FindInstance(st.instances, e.instance);
    if k.None? then Refuse(st, InstanceNotFound)
    else if !Validates(st.fences, e.instance, e.fence) then Refuse(st, FenceMismatch)
    else
      var i := st.instances[k.value];
      if i.attempts == [] || LastAttempt(i).number != e.attempt || LastAttempt(i).outcome != Open then
        Refuse(st, AttemptSuperseded)
      else
        Accept(SetInstance(st, k.value,
                 i.(attempts := SetLast(i.attempts, LastAttempt(i).(phase := Acknowledged)), state := Acknowledged)),
               AcknowledgementOnly)
  }

  function CloseLast(i: Instance, outcome: Outcome, reason: Reason, at: nat, phase: Lifecycle): Instance
    requires i.attempts != []
  {
    i.(attempts := SetLast(i.attempts,
         LastAttempt(i).(outcome := outcome, closeReason := reason, closedAt := at, phase := phase)))
  }

  /** Why a report on this instance is refused, or `Nominal` when it decides something. */
  function StatusOn(i: Instance, f: Fences, at: nat, r: Report): Reason {
    if i.attempts == [] || LastAttempt(i).number != r.attempt then AttemptSuperseded
    else if !Validates(f, r.instance, r.fence) then FenceMismatch
    else if LastAttempt(i).outcome != Open then AttemptNotOpen
    else if !r.evidence.Present() then EvidenceMissing
    else if r.evidence.observedAt < i.effectFencedAt then EvidenceStale
    else if !r.evidence.FreshAt(at) then EvidenceStale
    else if r.partial || r.status == Partial then EffectPartial
    else if r.status == Refused then EffectReportUnmatched
    else Nominal
  }

  function ReportStatus(st: RuntimeState, at: nat, r: Report): Reason {
    var k := FindInstance(st.instances, r.instance);
    if k.None? then InstanceNotFound else StatusOn(st.instances[k.value], st.fences, at, r)
  }

  /** The instance a deciding report leaves behind. */
  function Decided(i: Instance, at: nat, r: Report): Instance
    requires i.attempts != []
  {
    if r.status == FailedStatus then
      CloseLast(i, ClosedFailed, EffectFailed, at, Failed).(state := Failed, health := UnknownHealth, healthFresh := false)
    else if r.kind == WithdrawEffect then
      CloseLast(i, ClosedVerified, Nominal, at, Verified)
        .(state := Withdrawn, health := UnknownHealth, healthFresh := false,
          effectFenceSerial := SatNext(i.effectFenceSerial), effectFencedAt := at, fenceReason := WithdrawnEffect)
    else
      CloseLast(i, ClosedVerified, Nominal, at, Verified)
        .(state := Verified, verifiedDigest := r.effectDigest, verifiedAt := at, verifiedEvidence := r.evidence)
  }

  function ReduceEffect(st: RuntimeState, at: nat, r: Report): (out: Applied)
    ensures (!out.applied ==> out.state == st) && SameFrame(st, out.state)
  {
    var bad := ReportStatus(st, at, r);
    if bad != Nominal then Refuse(st, bad)
    else
      var k := FindInstance(st.instances, r.instance).value;
      var i := st.instances[k];
      var decided := SetInstance(st, k, Decided(i, at, r));
      if r.status == FailedStatus then Accept(decided, EffectFailed)
      else if r.kind == WithdrawEffect then
        Accept(decided.(grants := ReleaseDevice(st.grants, i.dpu)), WithdrawnEffect)
      else Accept(decided, Nominal)
  }

  // ---------------------------------------------------------------------
  // Reconciliation: bringing instances in line with a plan.
  // ---------------------------------------------------------------------

  /** The part of the trial copy that reconciliation changes. */
  datatype Work = Work(instances: seq<Instance>, fences: Fences)

  /** One planned replica together with its service. */
  datatype Slot = Slot(service: Id, version: Version, replica: Replica)

  function SlotsOf(sp: ServicePlan): seq<Slot> {
    seq(|sp.replicas|, i requires 0 <= i < |sp.replicas| => Slot(sp.service, sp.version, sp.replicas[i]))
  }

  function Slots(plans: seq<ServicePlan>): seq<Slot> {
    if plans == [] then [] else SlotsOf(plans[0]) + Slots(plans[1..])
  }

  function SlotId(hash: string -> string, group: Id, s: Slot): Id {
    InstanceName(hash, group, s.service, s.replica.index)
  }

  function NextNumber(attempts: seq<Attempt>): nat {
    if attempts == [] then 1 else SatNext(attempts[|attempts| - 1].number)
  }

  function OpenAttempt(attempts: seq<Attempt>, token: Token, phase: Lifecycle, at: nat): seq<Attempt> {
    attempts + [Attempt(NextNumber(attempts), token, phase, Open, at, 0, Nominal)]
  }

  const NO_EVIDENCE := Evidence("", 0, 0, UnknownClass)

  function CreateInstance(id: Id, s: Slot, plan: Plan, group: Id, token: Token, at: nat): Instance {
    Instance(id, s.service, group, s.version, s.replica.index, 1, s.replica.dpu, s.replica.attachment,
             s.replica.domain, plan.generation, Authorized, UnknownHealth, false, 0, plan.topology, plan.capability,
             OpenAttempt([], token, Authorized, at), 0, 0, NO_EVIDENCE, 0, at, Nominal)
  }

  predicate Terminal(s: Lifecycle) { s == Withdrawn || s == Failed || s == Lost }

  predicate Replaces(i: Instance, s: Slot) {
    i.dpu != s.replica.dpu || i.version != s.version || Terminal(i.state)
  }

  predicate HasOpen(i: Instance) { i.attempts != [] && LastAttempt(i).outcome == Open }

  function ReplaceInstance(i: Instance, s: Slot, plan: Plan, token: Token, at: nat): Instance {
    var moved := i.(incarnation := SatNext(i.incarnation), dpu := s.replica.dpu, attachment := s.replica.attachment,
                    domain := s.replica.domain, version := s.version, deploymentGeneration := plan.generation,
                    topologyGeneration := plan.topology, capabilityGeneration := plan.capability);
    var fenced := FenceInstance(moved, at, if Terminal(i.state) then SupersededEffect else AttemptSuperseded);
    fenced.(attempts := OpenAttempt(fenced.attempts, token, Authorized, at), state := Authorized)
  }

  function Reattempt(i: Instance, plan: Plan, token: Token, at: nat): Instance {
    i.(attempts := OpenAttempt(i.attempts, token, Authorized, at), state := Authorized,
       deploymentGeneration := plan.generation)
  }

  /** One planned replica: create, replace, reattempt or keep its instance. */
  function ReconcileSlot(w: Work, s: Slot, plan: Plan, group: Id, at: nat, maxInstances: nat, hash: string -> string): Result<Work> {
    var id := SlotId(hash, group, s);
    var k := FindInstance(w.instances, id);
    var issued := Issue(w.fences, id);
    if k.None? then
      if |w.instances| >= maxInstances then Err(BoundExceeded)
      else if issued.Err? then Err(issued.code)
      else Ok(Work(w.instances + [CreateInstance(id, s, plan, group, issued.value.token, at)], issued.value.fences))
    else
      var i := w.instances[k.value];
      if Replaces(i, s) || !HasOpen(i) then
        if issued.Err? then Err(issued.code)
        else
          var i' := if Replaces(i, s) then ReplaceInstance(i, s, plan, issued.value.token, at)
                    else Reattempt(i, plan, issued.value.token, at);
          Ok(Work(w.instances[k.value := i'], issued.value.fences))
      else Ok(w.(instances := w.instances[k.value := i.(deploymentGeneration := plan.generation)]))
  }

  function ReconcileSlots(w: Work, slots: seq<Slot>, plan: Plan, group: Id, at: nat, maxInstances: nat, hash: string -> string): Result<Work>
    decreases |slots|
  {
    if slots == [] then Ok(w)
    else
      var next := ReconcileSlot(w, slots[0], plan, group, at, maxInstances, hash);
      if next.Err? then next else ReconcileSlots(next.value, slots[1..], plan, group, at, maxInstances, hash)
  }

  /** Whether the second pass quiesces the instance. */
  predicate Retires(i: Instance, plan: Plan, group: Id, planned: seq<Id>) {
    && i.group == group
    && (plan.kind == Withdraw || !(exists sp :: sp in plan.services && sp.service == i.service) || i.id !in planned)
    && i.state != Withdrawn
  }

  function RetireInstance(i: Instance, f: Fences, plan: Plan, at: nat): Result<(Instance, Fences)> {
    var q := Quiesce(i, at);
    if plan.kind != Withdraw then Ok((q, f))
    else
      var issued := Issue(f, i.id);
      if issued.Err? then Err(issued.code)
      else Ok((q.(attempts := OpenAttempt(q.attempts, issued.value.token, Quiescing, at)), issued.value.fences))
  }

  /** The second pass, from instance `from` on. */
  function RetireFrom(w: Work, from: nat, plan: Plan, group: Id, planned: seq<Id>, at: nat): Result<Work>
    requires from <= |w.instances|
    decreases |w.instances| - from
  {
    if from == |w.instances| then Ok(w)
    else if !Retires(w.instances[from], plan, group, planned) then RetireFrom(w, from + 1, plan, group, planned, at)
    else
      var r := RetireInstance(w.instances[from], w.fences, plan, at);
      if r.Err? then Err(r.code)
      else RetireFrom(Work(w.instances[from := r.value.0], r.value.1), from + 1, plan, group, planned, at)
  }

  function PlannedIds(hash: string -> string, group: Id, slots: seq<Slot>): seq<Id> {
    seq(|slots|, i requires 0 <= i < |slots| => SlotId(hash, group, slots[i]))
  }

  function Reconcile(w: Work, plan: Plan, group: Id, at: nat, maxInstances: nat, hash: string -> string): Result<Work> {
    var slots := Slots(plan.services);
    var first := ReconcileSlots(w, slots, plan, group, at, maxInstances, hash);
    if first.Err? then first
    else RetireFrom(first.value, 0, plan, group, PlannedIds(hash, group, slots), at)
  }

  // ---------------------------------------------------------------------
  // Intents.
  // ---------------------------------------------------------------------

  function WithdrawPlans(services: seq<Service>, entries: seq<ReplicaIntent>): Option<seq<ServicePlan>> {
    if entries == [] then Some([])
    else
      var n := |entries| - 1;
      var rest := WithdrawPlans(services, entries[..n]);
      var s := FindService(services, entries[n].service);
      if rest.None? || s.None? then None
      else Some(rest.value + [ServicePlan(s.value.id, s.value.version, 0, 0, [])])
  }

  /** The last retained plan of the target generation. */
  function RollbackSource(plans: seq<Plan>, target: nat): Option<Plan> {
    if plans == [] then None
    else if plans[|plans| - 1].generation == target then Some(plans[|plans| - 1])
    else RollbackSource(plans[..|plans| - 1], target)
  }

  function RequestOf(st: RuntimeState, edges: seq<Dependency>, group: Group, intent: Intent, at: nat, cfg: Config): Request {
    Request(st.topology.dpus, st.topology.generation, st.policy, st.services, edges, group, intent, st.grants,
            at, st.epoch, st.boot, cfg.bounds, cfg.weights, cfg.hash)
  }

  /** The plan an intent asks for. */
  function PlanFor(st: RuntimeState, group: Group, intent: Intent, at: nat, cfg: Config): Result<Plan> {
    match intent.kind
    case Withdraw =>
      var plans := WithdrawPlans(st.services, intent.services);
      if plans.None? then Err(ServiceNotDeclared)
      else
        Ok(Plan(intent.generation, group.id, Withdraw, plans.value, [], st.topologyGeneration, 0,
                st.policyGeneration, st.epoch, st.boot, at))
    case Rollback(target) =>
      var source := RollbackSource(st.plans, target);
      if source.None? then Err(RollbackUnavailable)
      else if !st.policy.rollbackAcrossPolicy && source.value.policy != st.policyGeneration then Err(RollbackUnavailable)
      else
        Ok(source.value.(generation := intent.generation, kind := intent.kind, createdAt := at, epoch := st.epoch,
                         boot := st.boot, topology := st.topologyGeneration, policy := st.policyGeneration))
    case _ =>
      var built := BuildGraph(st.dependencies, cfg.bounds.maxDependencies);
      if built.Err? then Err(built.code)
      else
        var outcome := BuildPlan(RequestOf(st, built.value, group, intent, at, cfg));
        if outcome.Infeasible? then Err(outcome.code) else Ok(outcome.plan)
  }

  /** Claims every planned device of a scoped service, in plan order. */
  function ClaimReplicas(grants: seq<Grant>, scope: Id, replicas: seq<Replica>, group: Id, st: RuntimeState, at: nat, maxGrants: nat): Result<seq<Grant>>
    decreases |replicas|
  {
    if replicas == [] then Ok(grants)
    else
      var r := Claim(grants, scope, group, replicas[0].dpu, st.epoch, st.boot, at, maxGrants);
      if r.Err? then r else ClaimReplicas(r.value, scope, replicas[1..], group, st, at, maxGrants)
  }

  function ClaimPlans(grants: seq<Grant>, plans: seq<ServicePlan>, group: Id, st: RuntimeState, at: nat, maxGrants: nat): Result<seq<Grant>>
    decreases |plans|
  {
    if plans == [] then Ok(grants)
    else
      var s := FindService(st.services, plans[0].service);
      if s.None? || s.value.scope.None? then ClaimPlans(grants, plans[1..], group, st, at, maxGrants)
      else
        var r := ClaimReplicas(grants, s.value.scope.value, plans[0].replicas, group, st, at, maxGrants);
        if r.Err? then r else ClaimPlans(r.value, plans[1..], group, st, at, maxGrants)
  }

  function Retain(plans: seq<Plan>, maxPlans: nat): seq<Plan> {
    if |plans| > maxPlans then plans[|plans| - maxPlans..] else plans
  }

  /** Why an intent is refused before any plan is made, or `Nominal`. */
  function IntentStatus(st: RuntimeState, intent: Intent): Reason {
    if FindGroup(st.groups, intent.group).None? then GroupNotDeclared
    else if intent.generation == 0 then InvalidIdentity
    else if st.topologyGeneration == 0 then EvidenceMissing
    else if st.policy.generation == 0 then EvidenceMissing
    else if intent.generation < st.deploymentGeneration then PlanGenerationRegressed
    else if intent.generation == st.deploymentGeneration && intent.kind != Withdraw then NoPlacementChange
    else Nominal
  }

  function Install(st: RuntimeState, plan: Plan, w: Work, grants: seq<Grant>, b: Bounds): RuntimeState {
    st.(grants := grants, fences := w.fences, instances := Sort(w.instances, InstanceLess),
        plans := if plan.kind == Withdraw then st.plans else Retain(st.plans + [plan], b.maxPlans),
        deploymentGeneration := plan.generation)
  }

  function ReduceIntent(st: RuntimeState, at: nat, intent: Intent, cfg: Config): (r: Applied)
    ensures (!r.applied ==> r.state == st) && SameFrame(st, r.state)
  {
    var bad := IntentStatus(st, intent);
    if bad != Nominal then Refuse(st, bad)
    else
      var group := FindGroup(st.groups, intent.group).value;
      var plan := PlanFor(st, group, intent, at, cfg);
      if plan.Err? then Refuse(st, plan.code)
      else
        var grants := ClaimPlans(st.grants, plan.value.services, group.id, st, at, cfg.bounds.maxDpus);
        if grants.Err? then Refuse(st, grants.code)
        else
          var w := Reconcile(Work(st.instances, st.fences), plan.value, group.id, at, cfg.bounds.maxInstances, cfg.hash);
          if w.Err? then Refuse(st, w.code)
          else Accept(Install(st, plan.value, w.value, grants.value, cfg.bounds), Nominal)
  }

  // ---------------------------------------------------------------------
  // Dispatch.
  // ---------------------------------------------------------------------

  function Apply(cfg: Config, st: RuntimeState, e: Event): (r: Applied)
    ensures SameFrame(if e.body.LogicalTimeAdvanced? then st.(clock := Max(st.clock, e.body.now)) else st, r.state)
  {
    match e.body
    case LogicalTimeAdvanced(now) => ReduceTime(st, now)
    case CoordinatorAdvanced(epoch, coordinator) => ReduceCoordinator(st, e.at, epoch, coordinator)
    case ServiceDeclared(s) => ReduceService(st, s, cfg.bounds)
    case GroupDeclared(g) => ReduceGroup(st, g, cfg.bounds)
    case DependencyDeclared(d) => ReduceDependency(st, d, cfg.bounds)
    case PolicyAdvanced(p) => ReducePolicy(st, e.at, p)
    case TopologyObserved(snapshot) => ReduceTopology(st, e.at, snapshot, cfg.bounds)
    case CapabilityObserved(_, _, _, _, _) => ReduceCapability(st, e.at, e.body, cfg.bounds)
    case HealthObserved(_, _, _) => ReduceHealth(st, e.at, e.body)
    case DpuAttached(_, _, _, _, _) => ReduceAttached(st, e.at, e.body)
    case DpuLost(dpu) => ReduceLost(st, e.at, dpu)
    case QuiesceRequested(service) => ReduceQuiesce(st, e.at, service)
    case ExecutionAcknowledged(_, _, _) => ReduceAcknowledged(st, e.body)
    case EffectReported(r) => ReduceEffect(st, e.at, r)
    case IntentSubmitted(intent) => ReduceIntent(st, e.at, intent, cfg)
  }
}
