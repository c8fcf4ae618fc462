/** Records of the fabric: evidence, devices, services, intents, plans and
    instances. Descriptive text (notes, labels, explanations) is not carried. */
module Model {
  import opened Base
  import opened Order

  // ------------------------------------------------------------ evidence

  datatype EvidenceClass = UnknownClass | Real | Synthetic | Unsupported

  datatype Evidence = Evidence(id: Id, observedAt: nat, validUntil: nat, provenance: EvidenceClass) {
    predicate Present() { id != "" }
    predicate FreshAt(now: nat) { now <= validUntil && observedAt <= now }
  }

  // ------------------------------------------------------------ versions

  datatype Version = Version(major: nat, minor: nat, patch: nat, prerelease: string) {
    predicate Valid() { major != 0 || minor != 0 || patch != 0 }
  }

  /** Releases order after pre-releases of the same triple. */
  predicate VersionLess(a: Version, b: Version) {
    if a.major != b.major then a.major < b.major
    else if a.minor != b.minor then a.minor < b.minor
    else if a.patch != b.patch then a.patch < b.patch
    else if a.prerelease == b.prerelease then false
    else if a.prerelease == "" then false
    else if b.prerelease == "" then true
    else Less(a.prerelease, b.prerelease)
  }

  datatype Firmware = Firmware(major: nat, minor: nat)

  predicate FirmwareLess(a: Firmware, b: Firmware) {
    a.major < b.major || (a.major == b.major && a.minor < b.minor)
  }

  // ------------------------------------------------------------ capabilities

  datatype CapabilityKind = NoValue | FlagValue | IntegerValue | TextValue | VersionValue

  datatype CapabilityValue =
    CapabilityValue(kind: CapabilityKind, flag: bool, integer: int, text: string, version: Version)

  datatype Capability = Capability(key: Id, value: CapabilityValue, generation: nat)

  datatype CapabilityOp = IsPresent | IsAbsent | Equals | AtLeast | AtMost | OneOf

  datatype CapabilityRequirement =
    CapabilityRequirement(key: Id, op: CapabilityOp, value: CapabilityValue, alternatives: seq<CapabilityValue>)

  // ------------------------------------------------------------ resources

  datatype Resources = Resources(cpu: nat, memory: nat, network: nat, crypto: nat, storage: nat)

  // ------------------------------------------------------------ devices

  datatype Architecture = UnknownArchitecture | Aarch64 | X86 | RiscV
  datatype Datapath = Unspecified | NoDatapath | PacketProcessor | CryptoOffload | StorageOffload | MemoryFabric
  datatype Isolation = NoIsolation | Process | Virtualization | ConfidentialDomain | DedicatedDevice
  datatype DpuState = UnknownState | Attached | Detached | LostState | Quarantined | Retired
  datatype Health = UnknownHealth | Healthy | Degraded | Unhealthy

  datatype Profile =
    Profile(architecture: Architecture, firmware: Firmware, isolation: seq<Isolation>, datapath: Datapath)

  datatype Dpu = Dpu(
    id: Id, attachment: Id, domain: Id, profile: Profile, capabilities: seq<Capability>,
    capacity: Resources, used: Resources, state: DpuState,
    topologyGeneration: nat, capabilityGeneration: nat,
    deviceEvidence: Evidence, healthEvidence: Evidence,
    health: Health, healthObservedAt: nat, healthFresh: bool)

  function DpuId(d: Dpu): Id { d.id }
  predicate DpuLess(a: Dpu, b: Dpu) { Less(a.id, b.id) }

  datatype Topology = Topology(generation: nat, observedAt: nat, dpus: seq<Dpu>)

  // ------------------------------------------------------------ services

  datatype Requirement = Requirement(
    architecture: Option<Architecture>, minFirmware: Option<Firmware>,
    isolation: seq<Isolation>, datapath: Option<Datapath>,
    capabilities: seq<CapabilityRequirement>)

  datatype ReplicaPolicy = ReplicaPolicy(min: nat, preferred: nat, max: nat)

  datatype Service = Service(
    id: Id, version: Version, displayName: string, compatibility: Requirement,
    resources: Resources, isolation: Isolation, scope: Option<Id>, replicas: ReplicaPolicy)

  predicate ServiceLess(a: Service, b: Service) { Less(a.id, b.id) }
  function ServiceIdOf(s: Service): Id { s.id }

  datatype AntiAffinity =
    AntiAffinity(maxPerDpu: nat, maxPerDomain: Option<nat>, distinctDomains: bool)

  datatype Group = Group(id: Id, members: seq<Id>, antiAffinity: AntiAffinity)

  predicate GroupLess(a: Group, b: Group) { Less(a.id, b.id) }
  function GroupIdOf(g: Group): Id { g.id }

  datatype DependencyKind = Requires | OrderingAfter | RequiresCapability

  datatype Dependency = Dependency(id: Id, from: Id, to: Id, kind: DependencyKind)

  datatype Policy = Policy(
    generation: nat, maxPerDpuCeiling: nat, maxInstancesPerGroup: nat, maxStageBatch: nat,
    allowSynthetic: bool, scopeForDedicated: bool, rollbackAcrossPolicy: bool,
    validityTicks: nat, evidence: Evidence)

  // ------------------------------------------------------------ intents and plans

  /** A rollback always names the generation it returns to. */
  datatype IntentKind = Deploy | Rollout | Scale | Replace | Withdraw | Rollback(target: nat)

  datatype ReplicaIntent = ReplicaIntent(service: Id, desired: nat)

  datatype Staging = Staging(batchSize: nat, maxUnavailable: nat)

  datatype Intent =
    Intent(id: Id, group: Id, kind: IntentKind, generation: nat, services: seq<ReplicaIntent>, staging: Staging)

  datatype Replica = Replica(index: nat, dpu: Id, attachment: Id, domain: Id, score: nat)

  datatype ServicePlan =
    ServicePlan(service: Id, version: Version, desired: nat, placed: nat, replicas: seq<Replica>)

  datatype Stage = Stage(index: nat, instances: seq<Id>, maxUnavailable: nat)

  datatype Plan = Plan(
    generation: nat, group: Id, kind: IntentKind, services: seq<ServicePlan>, stages: seq<Stage>,
    topology: nat, capability: nat, policy: nat, epoch: nat, boot: nat, createdAt: nat)

  // ------------------------------------------------------------ authority

  datatype Grant = Grant(dpu: Id, scope: Id, group: Id, epoch: nat, boot: nat, grantedAt: nat)

  function GrantDpu(g: Grant): Id { g.dpu }

  /** A token is bound to the epoch and boot it was issued under. */
  datatype Token = Token(epoch: nat, boot: nat, serial: nat)

  /** The fence issuer's value: current authority and one serial per instance. */
  datatype Fences = Fences(epoch: nat, boot: nat, serials: map<Id, nat>)

  // ------------------------------------------------------------ instances

  datatype Lifecycle =
    | Absent | Planned | Authorized | Deploying | Acknowledged | Unverified
    | Verified | Quiescing | Withdrawn | Failed | Lost | Superseded | Cancelled

  datatype Outcome = Open | ClosedVerified | ClosedFailed | ClosedCancelled

  datatype Attempt = Attempt(
    number: nat, fence: Token, phase: Lifecycle, outcome: Outcome,
    openedAt: nat, closedAt: nat, closeReason: Reason)

  datatype Instance = Instance(
    id: Id, service: Id, group: Id, version: Version, index: nat, incarnation: nat,
    dpu: Id, attachment: Id, domain: Id, deploymentGeneration: nat,
    state: Lifecycle, health: Health, healthFresh: bool, healthObservedAt: nat,
    topologyGeneration: nat, capabilityGeneration: nat,
    attempts: seq<Attempt>, verifiedDigest: nat, verifiedAt: nat, verifiedEvidence: Evidence,
    effectFenceSerial: nat, effectFencedAt: nat, fenceReason: Reason)
  {
    /** Serving needs a verified effect and fresh healthy evidence. */
    predicate Serving() { state == Verified && health == Healthy && healthFresh }
  }

  function InstanceIdOf(i: Instance): Id { i.id }
  predicate InstanceLess(a: Instance, b: Instance) { Less(a.id, b.id) }

  function Ids(instances: seq<Instance>): seq<Id> { Map(InstanceIdOf, instances) }
  function DpuIds(dpus: seq<Dpu>): seq<Id> { Map(DpuId, dpus) }

  // ------------------------------------------------------------ configuration

  datatype Weights = Weights(capacity: nat, isolationMatch: nat, domainSpread: nat, dpuPressure: nat)

  datatype Bounds = Bounds(
    maxDpus: nat, maxServices: nat, maxInstances: nat, maxBatchEvents: nat, maxDependencies: nat,
    maxCapabilities: nat, maxReplicas: nat, maxPlans: nat, maxStages: nat,
    maxWindow: nat, maxText: nat)
  {
    /** Every bound is positive once a configuration has been accepted. */
    predicate Valid() {
      && 0 < maxDpus && 0 < maxServices && 0 < maxInstances && 0 < maxBatchEvents
      && 0 < maxDependencies && 0 < maxCapabilities && 0 < maxReplicas && 0 < maxPlans
      && 0 < maxStages && 0 < maxWindow && 0 < maxText
    }
  }

  /** `make_instance_id` below the 64-character limit. Longer names are hashed by
      the code; here `hash` stands for that fallback. */
  function Decimal(n: nat): string {
    if n < 10 then [('0' as int + n) as char] else Decimal(n / 10) + [('0' as int + n % 10) as char]
  }

  function InstanceName(hash: string -> string, group: Id, service: Id, index: nat): Id {
    var readable := "i-" + group + "." + service + "." + Decimal(index);
    if |readable| <= 64 then readable
    else "i-" + hash(group + "." + service) + "." + Decimal(index)
  }
}
