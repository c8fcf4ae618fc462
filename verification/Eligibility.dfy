/** Resource arithmetic and the eligibility verdict of a device for a service. */
module Eligibility {
  import opened Base
  import opened Order
  import opened Model

  // ---------------------------------------------------------------------
  // Resources: five 64-bit components.
  // ---------------------------------------------------------------------

  const NO_RESOURCES := Resources(0, 0, 0, 0, 0)

  predicate Covers(have: Resources, need: Resources) {
    && have.cpu >= need.cpu && have.memory >= need.memory && have.network >= need.network
    && have.crypto >= need.crypto && have.storage >= need.storage
  }

  function Subtract(a: Resources, b: Resources): Result<Resources> {
    if Covers(a, b) then
      Ok(Resources(a.cpu - b.cpu, a.memory - b.memory, a.network - b.network,
                   a.crypto - b.crypto, a.storage - b.storage))
    else Err(ValueOutOfRange)
  }

  function Headroom(capacity: Resources, used: Resources): Result<Resources> {
    if Covers(capacity, used) then Subtract(capacity, used) else Err(AllocationExhausted)
  }

  function Components(r: Resources): seq<nat> {
    [r.cpu, r.memory, r.network, r.crypto, r.storage]
  }

  /** One component's share as the code computes it: the product wraps at 64 bits. */
  function WrappedRatio(have: nat, need: nat): nat
    requires need <= have && 0 < have
  {
    ((have - need) * 1000 % (U64_MAX + 1)) / have
  }

  function TrueRatio(have: nat, need: nat): nat
    requires need <= have && 0 < have
  {
    (have - need) * 1000 / have
  }

  /** The permille is exact exactly when the product does not wrap. */
  lemma RatioExact(have: nat, need: nat)
    requires need <= have <= U64_MAX && 0 < have
    ensures WrappedRatio(have, need) == TrueRatio(have, need) <==> (have - need) * 1000 <= U64_MAX
    ensures WrappedRatio(have, need) <= TrueRatio(have, need) <= 1000
  {
    var p := (have - need) * 1000;
    var m := U64_MAX + 1;
    var w := p % m;
    assert p <= have * 1000;
    DivMono(p, have * 1000, have);
    if p > U64_MAX {
      assert p == p / m * m + w && p / m >= 1;
      assert w <= p - m && p - m < p - have;
      DivMono(w, p - have, have);
      DivStep(p, have);
    }
  }

  /** The widest capacity with one unit asked for: all but one part is free, and the
      permille computed is zero. */
  lemma RatioWraps()
    ensures WrappedRatio(U64_MAX, 1) == 0 && TrueRatio(U64_MAX, 1) == 999
  {
    var m := U64_MAX + 1;
    assert (U64_MAX - 1) * 1000 == 999 * m + (m - 2000);
    assert (U64_MAX - 1) * 1000 % m == m - 2000;
    assert (U64_MAX - 1) * 1000 == 999 * U64_MAX + (U64_MAX - 1000);
  }

  lemma DivMono(a: nat, b: nat, d: nat)
    requires a <= b && 0 < d
    ensures a / d <= b / d
    ensures b == d * 1000 ==> b / d == 1000
  {
    var qa, qb := a / d, b / d;
    assert a == qa * d + a % d && b == qb * d + b % d;
    assert qa > qb ==> qa * d >= (qb + 1) * d;
    assert b / d < 1000 ==> (b / d + 1) * d <= 1000 * d;
    assert b / d > 1000 ==> (b / d) * d >= 1001 * d;
  }

  lemma DivStep(p: nat, d: nat)
    requires d <= p && 0 < d
    ensures (p - d) / d == p / d - 1
  {
    var q := p / d;
    assert p == q * d + p % d;
    assert p - d == (q - 1) * d + p % d;
    QuotientIs(p - d, d, q - 1, p % d);
  }

  lemma QuotientIs(n: nat, d: nat, q: int, r: nat)
    requires n == q * d + r && r < d
    ensures n / d == q
  {
    var k := n / d;
    var rest := n % d;
    assert n == k * d + rest && rest < d;
    if k < q { Scales(k + 1, q, d); }
    if k > q { Scales(q + 1, k, d); }
  }

  lemma Scales(a: int, b: int, d: nat)
    requires a <= b
    ensures a * d <= b * d
  {
  }

  function WorstRatio(have: seq<nat>, need: seq<nat>): nat
    requires |have| == |need|
    requires forall i :: 0 <= i < |have| ==> need[i] <= have[i]
  {
    if have == [] then 1000
    else
      var n := |have| - 1;
      var rest := WorstRatio(have[..n], need[..n]);
      if need[n] == 0 then rest else Min(rest, WrappedRatio(have[n], need[n]))
  }

  function HeadroomPermille(have: Resources, need: Resources): Result<nat> {
    if need == NO_RESOURCES then Err(ValueOutOfRange)
    else if !Covers(have, need) then Err(AllocationExhausted)
    else Ok(WorstRatio(Components(have), Components(need)))
  }

  method ComputePermille(have: Resources, need: Resources) returns (r: Result<nat>)
    ensures r == HeadroomPermille(have, need)
    ensures r.Ok? ==> r.value <= 1000
  {
    if need == NO_RESOURCES { return Err(ValueOutOfRange); }
    if !Covers(have, need) { return Err(AllocationExhausted); }
    var lhs, rhs := Components(have), Components(need);
    var worst, i := 1000, 0;
    while i < 5
      invariant 0 <= i <= 5
      invariant worst == WorstRatio(lhs[..i], rhs[..i]) && worst <= 1000
    {
      assert lhs[..i + 1][..i] == lhs[..i] && rhs[..i + 1][..i] == rhs[..i];
      if rhs[i] != 0 {
        worst := Min(worst, WrappedRatio(lhs[i], rhs[i]));
      }
      i := i + 1;
    }
    assert lhs[..5] == lhs && rhs[..5] == rhs;
    return Ok(worst);
  }

  // ---------------------------------------------------------------------
  // Capability requirements.
  // ---------------------------------------------------------------------

  datatype Verdict3 = Satisfied | Violated | Unknown

  datatype Finding = Finding(outcome: Verdict3, code: Reason)

  function CapabilityKey(c: Capability): Id { c.key }
  predicate CapabilityLess(a: Capability, b: Capability) { Less(a.key, b.key) }

  function FindCapability(entries: seq<Capability>, key: Id): Option<Capability> {
    var ids := Map(CapabilityKey, entries);
    var k := LowerBound(ids, key);
    if k < |entries| && entries[k].key == key then Some(entries[k]) else None
  }

  /** `CapabilitySet::normalize`: canonical order, valid, valued, unique. */
  function Normalize(entries: seq<Capability>, maxEntries: nat): Result<seq<Capability>> {
    if |entries| > maxEntries then Err(BoundExceeded)
    else
      var sorted := Sort(entries, CapabilityLess);
      var bad := FirstBadCapability(sorted, 0);
      if bad == Nominal then Ok(sorted) else Err(bad)
  }

  function FirstBadCapability(sorted: seq<Capability>, i: nat): Reason
    requires i <= |sorted|
    decreases |sorted| - i
  {
    if i == |sorted| then Nominal
    else if sorted[i].key == "" then InvalidIdentity
    else if sorted[i].value.kind == NoValue then CapabilityUnknown
    else if |sorted[i].value.text| > 256 then OversizedInput
    else if i > 0 && sorted[i - 1].key == sorted[i].key then DuplicateIdentity
    else FirstBadCapability(sorted, i + 1)
  }

  /** Sign of the comparison, when the two kinds can be ordered. */
  function OrderedCompare(a: CapabilityValue, b: CapabilityValue): Option<int> {
    if a.kind != b.kind then None
    else match a.kind
      case IntegerValue => Some(if a.integer < b.integer then -1 else if a.integer > b.integer then 1 else 0)
      case VersionValue =>
        Some(if VersionLess(a.version, b.version) then -1 else if VersionLess(b.version, a.version) then 1 else 0)
      case FlagValue => Some(if a.flag == b.flag then 0 else if a.flag then 1 else -1)
      case TextValue => Some(if Less(a.text, b.text) then -1 else if Less(b.text, a.text) then 1 else 0)
      case NoValue => None
  }

  function CheckValue(value: CapabilityValue, need: CapabilityRequirement): Finding {
    match need.op
    case IsPresent => Judge(true, value.kind != FlagValue || value.flag, CapabilityMismatch)
    case Equals => Judge(true, value == need.value, CapabilityMismatch)
    case OneOf => Judge(true, value in need.alternatives, CapabilityMismatch)
    case AtLeast =>
      var cmp := OrderedCompare(value, need.value);
      if cmp.None? then Finding(Violated, UnsupportedValue) else Judge(true, cmp.value >= 0, CapabilityMismatch)
    case AtMost =>
      var cmp := OrderedCompare(value, need.value);
      if cmp.None? then Finding(Violated, UnsupportedValue) else Judge(true, cmp.value <= 0, CapabilityMismatch)
    case IsAbsent => Finding(Violated, UnsupportedValue)
  }

  function CheckCapability(entries: seq<Capability>, known: bool, need: CapabilityRequirement): Finding {
    var observed := FindCapability(entries, need.key);
    if !known then Finding(Unknown, CapabilityUnknown)
    else if need.op == IsAbsent then Judge(true, observed.None?, CapabilityMismatch)
    else if observed.None? then Finding(Violated, CapabilityMissing)
    else CheckValue(observed.value.value, need)
  }

  /** Unknown without evidence, otherwise satisfied or violated with `code`. */
  function Judge(known: bool, ok: bool, code: Reason): Finding {
    if !known then Finding(Unknown, CapabilityUnknown)
    else if ok then Finding(Satisfied, Nominal)
    else Finding(Violated, code)
  }

  // ---------------------------------------------------------------------
  // The verdict: one finding per requirement, then a fold.
  // ---------------------------------------------------------------------

  /** Whether the device's evidence lets anything be said about it, and if not why. */
  function EvidenceFinding(d: Dpu, policy: Policy, now: nat): Option<Finding> {
    if !d.deviceEvidence.Present() then Some(Finding(Unknown, EvidenceMissing))
    else if !d.deviceEvidence.FreshAt(now) then Some(Finding(Unknown, EvidenceStale))
    else if d.deviceEvidence.provenance == Unsupported then Some(Finding(Unknown, CapabilityUnknown))
    else if d.deviceEvidence.provenance == Synthetic && !policy.allowSynthetic then
      Some(Finding(Violated, CapabilityUnknown))
    else if d.capabilityGeneration == 0 then Some(Finding(Unknown, CapabilityUnknown))
    else None
  }

  function ArchitectureFindings(d: Dpu, need: Option<Architecture>): seq<Finding> {
    if need.None? then []
    else if d.profile.architecture == UnknownArchitecture then [Finding(Unknown, CapabilityUnknown)]
    else [Judge(true, d.profile.architecture == need.value, ArchitectureMismatch)]
  }

  function IsolationFindings(d: Dpu, known: bool, kinds: seq<Isolation>): seq<Finding> {
    seq(|kinds|, i requires 0 <= i < |kinds| =>
      Judge(known, kinds[i] in d.profile.isolation, IsolationUnsupported))
  }

  function CapacityFinding(d: Dpu, known: bool, s: Service): Finding {
    if !known || d.capacity == NO_RESOURCES then Finding(Unknown, CapacityUnknown)
    else
      var free := Headroom(d.capacity, d.used);
      Judge(true, free.Ok? && Covers(free.value, s.resources), AllocationExhausted)
  }

  function CapabilityFindings(d: Dpu, known: bool, needs: seq<CapabilityRequirement>): seq<Finding> {
    seq(|needs|, i requires 0 <= i < |needs| => CheckCapability(d.capabilities, known, needs[i]))
  }

  function DeviceFindings(d: Dpu, policy: Policy, now: nat): seq<Finding> {
    var evidence := EvidenceFinding(d, policy, now);
    (if d.id == "" then [Finding(Violated, InvalidIdentity)] else [])
    + (if d.state != Attached then [Finding(Violated, DpuUnavailable)] else [])
    + (if evidence.Some? then [evidence.value] else [])
  }

  function ProfileFindings(d: Dpu, known: bool, need: Requirement): seq<Finding> {
    ArchitectureFindings(d, need.architecture)
    + (if need.minFirmware.None? then []
       else [Judge(known, !FirmwareLess(d.profile.firmware, need.minFirmware.value), FirmwareLevelUnsupported)])
    + (if need.datapath.None? || need.datapath.value == Unspecified then []
       else [Judge(known, d.profile.datapath == need.datapath.value, DatapathUnsupported)])
  }

  function ScopeFindings(d: Dpu, known: bool, s: Service, policy: Policy): seq<Finding> {
    (if s.isolation == DedicatedDevice && policy.scopeForDedicated && s.scope.None?
     then [Finding(Violated, ExclusiveScopeRequired)] else [])
    + (if s.isolation == NoIsolation && s.scope.None? then []
       else [Judge(known, s.isolation == NoIsolation || s.isolation in d.profile.isolation, IsolationUnsupported)])
  }

  function Findings(d: Dpu, s: Service, policy: Policy, now: nat): seq<Finding> {
    var known := EvidenceFinding(d, policy, now).None?;
    DeviceFindings(d, policy, now)
    + ProfileFindings(d, known, s.compatibility)
    + IsolationFindings(d, known, s.compatibility.isolation)
    + ScopeFindings(d, known, s, policy)
    + [CapacityFinding(d, known, s)]
    + CapabilityFindings(d, known, s.compatibility.capabilities)
  }

  predicate Some3(fs: seq<Finding>, outcome: Verdict3) {
    exists f :: f in fs && f.outcome == outcome
  }

  datatype Verdict = Verdict(eligible: bool, unknown: bool, primary: Reason)

  /** First violation wins the code; before any violation the first unknown does. */
  function Primary(fs: seq<Finding>): Reason {
    if fs == [] then Nominal
    else
      var n := |fs| - 1;
      var before := Primary(fs[..n]);
      match fs[n].outcome
      case Violated => if Some3(fs[..n], Violated) then before else fs[n].code
      case Unknown =>
        if before == Nominal && !(Some3(fs[..n], Violated)) then fs[n].code else before
      case Satisfied => before
  }

  function Evaluate(d: Dpu, s: Service, policy: Policy, now: nat): Verdict {
    var fs := Findings(d, s, policy, now);
    var violated := Some3(fs, Violated);
    var unknown := Some3(fs, Unknown);
    Verdict(!violated && !unknown, unknown, Primary(fs))
  }

  method Aggregate(fs: seq<Finding>) returns (v: Verdict)
    ensures v.eligible <==> AllSatisfied(fs)
    ensures v.unknown <==> Some3(fs, Unknown)
    ensures v.primary == Primary(fs)
  {
    var violated, unknown, primary, i := false, false, Nominal, 0;
    while i < |fs|
      invariant 0 <= i <= |fs|
      invariant violated <==> Some3(fs[..i], Violated)
      invariant unknown <==> Some3(fs[..i], Unknown)
      invariant primary == Primary(fs[..i])
    {
      assert fs[..i + 1] == fs[..i] + [fs[i]];
      if fs[i].outcome == Violated {
        if !violated { primary := fs[i].code; }
        violated := true;
      } else if fs[i].outcome == Unknown {
        unknown := true;
        if !violated && primary == Nominal { primary := fs[i].code; }
      }
      i := i + 1;
    }
    assert fs[..|fs|] == fs;
    v := Verdict(!violated && !unknown, unknown, primary);
  }

  /** Eligibility stated without the fold: everything the service asks for is
      affirmatively shown by fresh evidence. */
  ghost predicate Admissible(d: Dpu, s: Service, policy: Policy, now: nat) {
    && Trusted(d, policy, now)
    && Suits(d, s.compatibility)
    && (forall k :: k in s.compatibility.isolation ==> k in d.profile.isolation)
    && (s.isolation == DedicatedDevice && policy.scopeForDedicated ==> s.scope.Some?)
    && (s.isolation == NoIsolation || s.isolation in d.profile.isolation)
    && d.capacity != NO_RESOURCES
    && Fits(d, s)
    && (forall c :: c in s.compatibility.capabilities ==> CheckCapability(d.capabilities, true, c).outcome == Satisfied)
  }

  /** An attached, identified device with usable evidence fresh at `now`. */
  ghost predicate Trusted(d: Dpu, policy: Policy, now: nat) {
    && d.id != "" && d.state == Attached
    && d.deviceEvidence.Present() && d.deviceEvidence.FreshAt(now)
    && d.deviceEvidence.provenance != Unsupported
    && (d.deviceEvidence.provenance == Synthetic ==> policy.allowSynthetic)
    && d.capabilityGeneration != 0
  }

  ghost predicate Suits(d: Dpu, need: Requirement) {
    && (need.architecture.Some? ==>
          d.profile.architecture != UnknownArchitecture && d.profile.architecture == need.architecture.value)
    && (need.minFirmware.Some? ==> !FirmwareLess(d.profile.firmware, need.minFirmware.value))
    && (need.datapath.Some? && need.datapath.value != Unspecified ==> d.profile.datapath == need.datapath.value)
  }

  /** The device's free capacity covers the service in all five components. */
  predicate Fits(d: Dpu, s: Service) {
    Headroom(d.capacity, d.used).Ok? && Covers(Headroom(d.capacity, d.used).value, s.resources)
  }

  ghost predicate AllSatisfied(fs: seq<Finding>) {
    forall f :: f in fs ==> f.outcome == Satisfied
  }

  lemma AllSatisfiedSum(a: seq<Finding>, b: seq<Finding>)
    ensures AllSatisfied(a + b) <==> AllSatisfied(a) && AllSatisfied(b)
  {
    assert forall f :: f in a ==> f in a + b;
    assert forall f :: f in b ==> f in a + b;
  }

  lemma EligibleIffSatisfied(d: Dpu, s: Service, policy: Policy, now: nat)
    ensures Evaluate(d, s, policy, now).eligible <==> AllSatisfied(Findings(d, s, policy, now))
  {
    var fs := Findings(d, s, policy, now);
    if !AllSatisfied(fs) {
      var f :| f in fs && f.outcome != Satisfied;
      assert f.outcome == Violated || f.outcome == Unknown;
    }
  }

  lemma DeviceExact(d: Dpu, policy: Policy, now: nat)
    ensures AllSatisfied(DeviceFindings(d, policy, now)) <==> Trusted(d, policy, now)
    ensures Trusted(d, policy, now) ==> EvidenceFinding(d, policy, now).None?
  {
    var fs := DeviceFindings(d, policy, now);
    if !Trusted(d, policy, now) { assert fs != [] && fs[0] in fs; }
  }

  lemma ProfileExact(d: Dpu, need: Requirement)
    ensures AllSatisfied(ProfileFindings(d, true, need)) <==> Suits(d, need)
  {
    var a := ArchitectureFindings(d, need.architecture);
    var f := if need.minFirmware.None? then []
             else [Judge(true, !FirmwareLess(d.profile.firmware, need.minFirmware.value), FirmwareLevelUnsupported)];
    var p := if need.datapath.None? || need.datapath.value == Unspecified then []
             else [Judge(true, d.profile.datapath == need.datapath.value, DatapathUnsupported)];
    AllSatisfiedSum(a, f);
    AllSatisfiedSum(a + f, p);
    assert a != [] ==> a[0] in a;
    assert f != [] ==> f[0] in f;
    assert p != [] ==> p[0] in p;
  }

  lemma ListsExact(d: Dpu, kinds: seq<Isolation>, needs: seq<CapabilityRequirement>)
    ensures AllSatisfied(IsolationFindings(d, true, kinds)) <==> forall k :: k in kinds ==> k in d.profile.isolation
    ensures AllSatisfied(CapabilityFindings(d, true, needs)) <==>
            forall c :: c in needs ==> CheckCapability(d.capabilities, true, c).outcome == Satisfied
  {
    var fs, cs := IsolationFindings(d, true, kinds), CapabilityFindings(d, true, needs);
    forall k | k in kinds && AllSatisfied(fs) ensures k in d.profile.isolation {
      var i :| 0 <= i < |kinds| && kinds[i] == k;
      assert fs[i] in fs;
    }
    forall c | c in needs && AllSatisfied(cs) ensures CheckCapability(d.capabilities, true, c).outcome == Satisfied {
      var i :| 0 <= i < |needs| && needs[i] == c;
      assert cs[i] in cs;
    }
  }

  lemma ScopeExact(d: Dpu, s: Service, policy: Policy)
    ensures AllSatisfied(ScopeFindings(d, true, s, policy)) <==>
            && (s.isolation == DedicatedDevice && policy.scopeForDedicated ==> s.scope.Some?)
            && (s.isolation == NoIsolation || s.isolation in d.profile.isolation)
  {
    var fs := ScopeFindings(d, true, s, policy);
    forall i | 0 <= i < |fs| ensures fs[i] in fs { }
  }

  /** The evaluator says eligible exactly for admissible devices. */
  lemma EligibleExact(d: Dpu, s: Service, policy: Policy, now: nat)
    ensures Evaluate(d, s, policy, now).eligible <==> Admissible(d, s, policy, now)
    ensures Evaluate(d, s, policy, now).eligible ==> !Evaluate(d, s, policy, now).unknown
  {
    EligibleIffSatisfied(d, s, policy, now);
    var known := EvidenceFinding(d, policy, now).None?;
    var p1 := DeviceFindings(d, policy, now);
    var p2 := p1 + ProfileFindings(d, known, s.compatibility);
    var p3 := p2 + IsolationFindings(d, known, s.compatibility.isolation);
    var p4 := p3 + ScopeFindings(d, known, s, policy);
    var p5 := p4 + [CapacityFinding(d, known, s)];
    AllSatisfiedSum(p1, ProfileFindings(d, known, s.compatibility));
    AllSatisfiedSum(p2, IsolationFindings(d, known, s.compatibility.isolation));
    AllSatisfiedSum(p3, ScopeFindings(d, known, s, policy));
    AllSatisfiedSum(p4, [CapacityFinding(d, known, s)]);
    AllSatisfiedSum(p5, CapabilityFindings(d, known, s.compatibility.capabilities));
    DeviceExact(d, policy, now);
    ProfileExact(d, s.compatibility);
    ListsExact(d, s.compatibility.isolation, s.compatibility.capabilities);
    ScopeExact(d, s, policy);
    assert CapacityFinding(d, known, s) in [CapacityFinding(d, known, s)];
  }
}
