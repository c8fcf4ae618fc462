/** Shared vocabulary: optional values, refusals and 64-bit counters. */
module Base {

  datatype Option<+T> = None | Some(value: T)

  /** A value or a refusal. */
  datatype Result<+T> = Ok(value: T) | Err(code: Reason)

  /** The reason codes the modelled decisions can produce. */
  datatype Reason =
    | Nominal
    | MalformedInput | InvalidIdentity | ValueOutOfRange | OversizedInput | DuplicateIdentity
    | ConflictingDuplicate | ArithmeticOverflow | UnsupportedValue | InvalidDigest
    | StaleGeneration | StaleAuthority | FenceMismatch | AttemptSuperseded | AttemptNotOpen
    | AuthorityNotGranted | ExclusiveScopeConflict | EpochRegressed | LateEventRejected
    | DuplicateSuppressed | GenerationRegressed
    | CapabilityUnknown | CapabilityMissing | CapabilityMismatch | DpuUnavailable | CapacityUnknown
    | FirmwareLevelUnsupported | IsolationUnsupported | EvidenceStale | EvidenceMissing
    | ArchitectureMismatch | DatapathUnsupported | AllocationExhausted
    | DependencyCycle | DependencyUnsatisfied | ServiceNotDeclared | GroupNotDeclared
    | SelfDependency | DependencyDuplicate
    | NoEligibleDpu | InsufficientEligibleDpus | ReplicaBoundExceeded | PlanGenerationRegressed
    | RollbackUnavailable | IntentNotAccepted | NoPlacementChange | ExclusiveScopeRequired
    | StagingInfeasible
    | InstanceNotFound | AcknowledgementOnly | EffectReportUnmatched | EffectPartial | EffectFailed
    | RestartFenced | DeviceLost | QuiesceAsked | WithdrawnEffect | SupersededEffect
    | StoreRecordOversized | StoreClosed | BoundExceeded | QueueFull | BatchTooLarge
    | InvalidTag | TruncatedInput | InvalidEnumeration | InvalidEncoding | DepthLimitExceeded
    | StoreTruncated | StoreCorrupt | StoreVersionIncompatible | StoreSemanticsIncompatible | StoreIntegrityFailure

  const U64_MAX: nat := 0xFFFF_FFFF_FFFF_FFFF

  /** `saturating_add(n, 1)` on a 64-bit counter. */
  function SatNext(n: nat): nat {
    if n < U64_MAX then n + 1 else U64_MAX
  }

  function Min(a: nat, b: nat): nat {
    if a <= b then a else b
  }

  function Max(a: nat, b: nat): nat {
    if a <= b then b else a
  }
}
