/** Invariants of the instance table: attempts, fences and justified verification,
    and how an instance may evolve from one accepted event to the next. */
module Lifecycle {
  import opened Base
  import opened Order
  import opened Model
  import opened Authority
  import opened Reducers

  // ---------------------------------------------------------------------
  // One instance.
  // ---------------------------------------------------------------------

  /** The number of the attempt at position `k`: counting from one, saturating. */
  function NumberAt(k: nat): nat { if k < U64_MAX then k + 1 else U64_MAX }

  /** Attempts are numbered consecutively and only the last may be open. */
  ghost predicate AttemptsOk(attempts: seq<Attempt>) {
    && attempts != []
    && (forall k :: 0 <= k < |attempts| ==> attempts[k].number == NumberAt(k))
    && (forall k :: 0 <= k < |attempts| - 1 ==> attempts[k].outcome != Open)
  }

  /** No attempt carries a token from an authority later than the current one. */
  ghost predicate TokensOld(attempts: seq<Attempt>, f: Fences) {
    forall k :: 0 <= k < |attempts| ==>
      attempts[k].fence.boot < f.boot || (attempts[k].fence.boot == f.boot && attempts[k].fence.epoch <= f.epoch)
  }

  /** The issuer's entry is the token of the last attempt. */
  ghost predicate Current(i: Instance, f: Fences) {
    i.id in f.serials ==>
      i.attempts != [] && LastAttempt(i).fence == Token(f.epoch, f.boot, f.serials[i.id])
  }

  /** A verified instance is justified by its last attempt and by evidence that was
      fresh then and not older than the last fencing. */
  ghost predicate Justified(i: Instance)
    requires i.attempts != []
  {
    i.state == Verified ==>
      && LastAttempt(i).outcome == ClosedVerified
      && LastAttempt(i).closedAt == i.verifiedAt
      && i.verifiedEvidence.Present()
      && i.verifiedEvidence.FreshAt(i.verifiedAt)
      && i.verifiedEvidence.observedAt >= i.effectFencedAt
  }

  /** What holds of an instance by itself, wherever it stands in the table. */
  ghost predicate InstanceOk(i: Instance, f: Fences) {
    i.id != "" && AttemptsOk(i.attempts) && TokensOld(i.attempts, f) && Justified(i)
  }

  /** An open attempt always holds the token that validates. */
  ghost predicate Live(i: Instance, f: Fences) {
    HasOpen(i) ==> i.id in f.serials
  }

  /** Neither verified nor waiting for a report. */
  predicate Settled(i: Instance) { i.state != Verified && !HasOpen(i) }

  /** How one accepted event at `at` may change an instance: attempts are only
      appended, closed ones never change, open ones keep number and token, fencing
      happens at the event's instant, and nothing settled is verified without a new
      attempt. */
  ghost predicate Evolves(i: Instance, j: Instance, at: nat) {
    && j.id == i.id
    && |i.attempts| <= |j.attempts|
    && (forall k :: 0 <= k < |i.attempts| ==> KeepsAttempt(i.attempts[k], j.attempts[k]))
    && (j.effectFencedAt == i.effectFencedAt || j.effectFencedAt == at)
    && (Settled(i) && |j.attempts| == |i.attempts| ==> Settled(j))
  }

  ghost predicate KeepsAttempt(a: Attempt, b: Attempt) {
    b.number == a.number && b.fence == a.fence && (a.outcome != Open ==> b == a)
  }

  lemma CancelKeeps(attempts: seq<Attempt>, at: nat, reason: Reason)
    ensures var r := CancelAttempts(attempts, at, reason);
      && |r| == |attempts|
      && (forall k :: 0 <= k < |r| ==> KeepsAttempt(attempts[k], r[k]) && r[k].outcome != Open)
      && (AttemptsOk(attempts) ==> AttemptsOk(r))
  {
  }

  lemma RefreshOk(i: Instance, dpus: seq<Dpu>, f: Fences, at: nat)
    ensures var j := RefreshInstance(i, dpus);
      && (InstanceOk(i, f) ==> InstanceOk(j, f)) && (Current(i, f) ==> Current(j, f)) && (Live(i, f) ==> Live(j, f))
      && Evolves(i, j, at)
  {
  }

  lemma FenceOk(i: Instance, at: nat, reason: Reason, f: Fences)
    requires InstanceOk(i, f)
    ensures var j := FenceInstance(i, at, reason);
      && InstanceOk(j, f) && (Current(i, f) ==> Current(j, f)) && Settled(j) && Evolves(i, j, at) && j.effectFencedAt == at
  {
    CancelKeeps(i.attempts, at, reason);
  }

  lemma LoseOk(i: Instance, dpu: Id, at: nat, f: Fences)
    requires InstanceOk(i, f)
    ensures var j := LoseOn(i, dpu, at);
      && InstanceOk(j, f) && (Current(i, f) ==> Current(j, f)) && (Live(i, f) ==> Live(j, f)) && Evolves(i, j, at)
      && (i.dpu == dpu ==> Settled(j) && j.state == Lost && j.effectFencedAt == at)
  {
    FenceOk(i, at, DeviceLost, f);
  }

  lemma QuiesceOk(i: Instance, at: nat, f: Fences)
    requires InstanceOk(i, f)
    ensures var j := Quiesce(i, at);
      && InstanceOk(j, f) && (Current(i, f) ==> Current(j, f)) && Settled(j) && Evolves(i, j, at)
  {
    CancelKeeps(i.attempts, at, QuiesceAsked);
  }

  lemma AcknowledgeOk(i: Instance, f: Fences, at: nat)
    requires InstanceOk(i, f) && HasOpen(i)
    ensures var j := i.(attempts := SetLast(i.attempts, LastAttempt(i).(phase := Acknowledged)), state := Acknowledged);
      && InstanceOk(j, f) && (Current(i, f) ==> Current(j, f)) && (Live(i, f) ==> Live(j, f)) && Evolves(i, j, at)
  {
  }

  lemma CloseOk(i: Instance, f: Fences, outcome: Outcome, reason: Reason, at: nat, phase: Lifecycle)
    requires InstanceOk(i, f) && HasOpen(i) && outcome != Open
    ensures var j := CloseLast(i, outcome, reason, at, phase);
      && j.id == i.id && AttemptsOk(j.attempts) && TokensOld(j.attempts, f) && (Current(i, f) ==> Current(j, f))
      && |j.attempts| == |i.attempts| && !HasOpen(j) && LastAttempt(j).outcome == outcome && LastAttempt(j).closedAt == at
      && (forall k :: 0 <= k < |i.attempts| ==> KeepsAttempt(i.attempts[k], j.attempts[k]))
      && j.effectFencedAt == i.effectFencedAt
  {
  }

  /** Opening an attempt with a freshly issued token. */
  lemma OpenOk(i: Instance, f: Fences, phase: Lifecycle, at: nat, state: Lifecycle)
    requires InstanceOk(i, f) && !HasOpen(i) && Issue(f, i.id).Ok? && state != Verified
    ensures var issued := Issue(f, i.id).value;
      var j := i.(attempts := OpenAttempt(i.attempts, issued.token, phase, at), state := state);
      && InstanceOk(j, issued.fences) && Current(j, issued.fences) && Live(j, issued.fences) && HasOpen(j)
      && |j.attempts| == |i.attempts| + 1
      && (forall k :: 0 <= k < |i.attempts| ==> j.attempts[k] == i.attempts[k])
  {
    var issued := Issue(f, i.id).value;
    var j := i.(attempts := OpenAttempt(i.attempts, issued.token, phase, at), state := state);
    forall k | 0 <= k < |j.attempts| ensures j.attempts[k].number == NumberAt(k) {
      if k < |i.attempts| { assert j.attempts[k] == i.attempts[k]; }
    }
    forall k | 0 <= k < |j.attempts| - 1 ensures j.attempts[k].outcome != Open {
      assert j.attempts[k] == i.attempts[k];
    }
  }

  /** Issuing leaves every instance in order, and other tokens as they were. */
  lemma IssueKeepsOthers(i: Instance, f: Fences, other: Id)
    requires Issue(f, other).Ok?
    ensures var g := Issue(f, other).value.fences;
      (InstanceOk(i, f) ==> InstanceOk(i, g)) && (Live(i, f) ==> Live(i, g)) && (i.id != other && Current(i, f) ==> Current(i, g))
  {
  }
}
