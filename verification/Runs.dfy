/** Runs of accepted events: reports, attempts, fencing and serving over whole runs. */
module Runs {
  import opened Base
  import opened Order
  import opened Model
  import opened Authority
  import opened Reducers
  import opened Lifecycle
  import opened Table
  import opened Invariant

  /** What releasing one event does to the state: reduce it, move the watermark, and
      move the clock and re-evaluate freshness when the event is ahead of the clock. */
  function Commit(cfg: Config, st: RuntimeState, e: Event): RuntimeState {
    var a := Apply(cfg, st, e).state;
    var b := a.(watermark := Max(a.watermark, e.at));
    if e.at > b.clock then RefreshHealth(b.(clock := e.at)) else b
  }

  function CommitAll(cfg: Config, st: RuntimeState, es: seq<Event>): RuntimeState {
    if es == [] then st else Commit(cfg, CommitAll(cfg, st, es[..|es| - 1]), es[|es| - 1])
  }

  /** Every intent of the run finds the instances it names. */
  predicate OrderlyRun(cfg: Config, st: RuntimeState, es: seq<Event>) {
    if es == [] then true
    else
      && OrderlyRun(cfg, st, es[..|es| - 1])
      && Orderly(cfg, CommitAll(cfg, st, es[..|es| - 1]), es[|es| - 1])
  }

  // ---------------------------------------------------------------------
  // One committed event.
  // ---------------------------------------------------------------------

  /** Like `Holds`, for any watermark. */
  ghost predicate Steps(st: RuntimeState, st': RuntimeState, at: nat) {
    Holds(st, st'.(watermark := st.watermark), at)
  }

  lemma CommitSteps(cfg: Config, st: RuntimeState, e: Event)
    requires CoreOk(st)
    ensures Steps(st, Commit(cfg, st, e), e.at) && CoreOk(Commit(cfg, st, e))
    ensures Orderly(cfg, st, e) && RowsOk(st) ==> RowsOk(Commit(cfg, st, e))
  {
    hide Apply, Orderly, CoreOk, RowsOk, Holds;
    ApplyKeeps(cfg, st, e);
    CommittedSteps(cfg, st, e, Apply(cfg, st, e).state);
  }

  lemma CommittedSteps(cfg: Config, st: RuntimeState, e: Event, a: RuntimeState)
    requires a == Apply(cfg, st, e).state && Holds(st, a, e.at)
    ensures Steps(st, Commit(cfg, st, e), e.at) && CoreOk(Commit(cfg, st, e))
    ensures RowsOk(a) ==> RowsOk(Commit(cfg, st, e))
  {
    hide Apply, CoreOk, RowsOk;
    if e.at > a.clock {
      var later := a.(clock := e.at, watermark := Max(a.watermark, e.at));
      Relabelled(a, later);
      RefreshKeeps(later, e.at);
      assert Commit(cfg, st, e) == RefreshHealth(later);
      hide RefreshHealth, Commit;
      TableEvolvesTrans(st.instances, a.instances, RefreshHealth(later).instances, e.at);
      Relabelled(RefreshHealth(later), RefreshHealth(later).(watermark := st.watermark));
    } else {
      var b := a.(watermark := Max(a.watermark, e.at));
      assert Commit(cfg, st, e) == b;
      Relabelled(a, b);
      Relabelled(a, a.(watermark := st.watermark));
    }
  }

  /** Clock, watermark and journal count are not part of the invariant. */
  lemma Relabelled(a: RuntimeState, b: RuntimeState)
    requires b == a.(clock := b.clock, watermark := b.watermark, journaled := b.journaled)
    ensures (CoreOk(a) <==> CoreOk(b)) && (RowsOk(a) <==> RowsOk(b)) && (StateLive(a) <==> StateLive(b))
  {
    hide Entries, Rows, AllLive, GrantsSorted, Positive;
  }

  // ---------------------------------------------------------------------
  // Descent over a run.
  // ---------------------------------------------------------------------

  /** How an instance may change over events at or after `lo`. */
  ghost predicate Descends(i: Instance, j: Instance, lo: nat) {
    && j.id == i.id
    && |i.attempts| <= |j.attempts|
    && (forall k :: 0 <= k < |i.attempts| ==> KeepsAttempt(i.attempts[k], j.attempts[k]))
    && (j.effectFencedAt == i.effectFencedAt || j.effectFencedAt >= lo)
    && (Settled(i) && |j.attempts| == |i.attempts| ==> Settled(j))
  }

  lemma DescendsStep(i: Instance, j: Instance, k: Instance, lo: nat, at: nat)
    requires Descends(i, j, lo) && Evolves(j, k, at) && at >= lo
    ensures Descends(i, k, lo)
  {
    forall m | 0 <= m < |i.attempts| ensures KeepsAttempt(i.attempts[m], k.attempts[m]) {
      assert KeepsAttempt(i.attempts[m], j.attempts[m]) && KeepsAttempt(j.attempts[m], k.attempts[m]);
    }
  }

  /** In every run every instance stays in order and the authority grows; in an orderly
      run the rows stay in order too. */
  lemma {:induction false} RunSteps(cfg: Config, st: RuntimeState, es: seq<Event>)
    requires CoreOk(st)
    ensures CoreOk(CommitAll(cfg, st, es))
    ensures StateLive(st) ==> StateLive(CommitAll(cfg, st, es))
    ensures CommitAll(cfg, st, es).boot == st.boot && CommitAll(cfg, st, es).epoch >= st.epoch
    ensures OrderlyRun(cfg, st, es) && RowsOk(st) ==> RowsOk(CommitAll(cfg, st, es))
  {
    hide Orderly, CoreOk, RowsOk, Commit;
    if es != [] {
      var mid := CommitAll(cfg, st, es[..|es| - 1]);
      RunSteps(cfg, st, es[..|es| - 1]);
      CommitSteps(cfg, mid, es[|es| - 1]);
      StepParts(mid, Commit(cfg, mid, es[|es| - 1]), es[|es| - 1].at);
    }
  }

  lemma StepParts(st: RuntimeState, st': RuntimeState, at: nat)
    requires Steps(st, st', at)
    ensures StateLive(st) ==> StateLive(st')
    ensures st'.boot == st.boot && st'.epoch >= st.epoch && TableEvolves(st.instances, st'.instances, at)
  {
  }

  lemma {:induction false} RunDescends(cfg: Config, st: RuntimeState, es: seq<Event>, i: Instance, lo: nat) returns (j: Instance)
    requires CoreOk(st) && i in st.instances
    requires forall e :: e in es ==> e.at >= lo
    ensures j in CommitAll(cfg, st, es).instances && Descends(i, j, lo)
    decreases |es|
  {
    if es == [] {
      j := i;
    } else {
      var mid := CommitAll(cfg, st, es[..|es| - 1]);
      RunSteps(cfg, st, es[..|es| - 1]);
      var m := RunDescends(cfg, st, es[..|es| - 1], i, lo);
      var e := es[|es| - 1];
      CommitSteps(cfg, mid, e);
      hide Orderly, CoreOk, Commit, Descends, Evolves;
      StepParts(mid, Commit(cfg, mid, e), e.at);
      assert Succeeds(m, Commit(cfg, mid, e).instances, e.at);
      j :| j in Commit(cfg, mid, e).instances && Evolves(m, j, e.at);
      DescendsStep(i, m, j, lo, e.at);
    }
  }

  /** An instance is named by its identity. */
  lemma SameInstance(st: RuntimeState, i: Instance, j: Instance)
    requires StateOk(st) && i in st.instances && j in st.instances && i.id == j.id
    ensures i == j
  {
    var s := st.instances;
    var a :| 0 <= a < |s| && s[a] == i;
    var b :| 0 <= b < |s| && s[b] == j;
    assert Ids(s)[a] == Ids(s)[b];
    hide InstanceOk, Current;
  }

  // ---------------------------------------------------------------------
  // Which executor messages decide something.
  // ---------------------------------------------------------------------

  /** The report's own content is complete. */
  predicate Conclusive(r: Report, at: nat, i: Instance) {
    && r.evidence.Present() && r.evidence.FreshAt(at) && r.evidence.observedAt >= i.effectFencedAt
    && !r.partial && (r.status == Succeeded || r.status == FailedStatus)
  }

  /** The open attempt the message names, with its own token. */
  predicate Addresses(i: Instance, instance: Id, attempt: nat, fence: Token) {
    i.id == instance && HasOpen(i) && LastAttempt(i).number == attempt && LastAttempt(i).fence == fence
  }

  /** A token validates for an instance exactly when it is its last attempt's token
      and the issuer still holds a serial for it. */
  lemma ValidatesLast(st: RuntimeState, i: Instance, token: Token)
    requires StateOk(st) && i in st.instances
    ensures i.attempts != []
    ensures Validates(st.fences, i.id, token) <==> i.id in st.fences.serials && token == LastAttempt(i).fence
  {
    assert InstanceOk(i, st.fences) && Current(i, st.fences);
  }

  lemma FindsIt(st: RuntimeState, id: Id)
    requires StateOk(st)
    ensures var k := FindInstance(st.instances, id);
      if k.Some? then k.value < |st.instances| && st.instances[k.value].id == id && st.instances[k.value] in st.instances
      else forall i :: i in st.instances ==> i.id != id
  {
    FindHits(st.instances, id);
    LowerBoundExact(Ids(st.instances), id);
    if FindInstance(st.instances, id).None? {
      forall i | i in st.instances ensures i.id != id {
        var k :| 0 <= k < |st.instances| && st.instances[k] == i;
        assert Ids(st.instances)[k] == i.id;
      }
    }
  }

  lemma OpenHasSerial(st: RuntimeState, i: Instance)
    requires StateLive(st) && i in st.instances && HasOpen(i)
    ensures i.id in st.fences.serials
  {
  }

  /** A report decides something exactly when it addresses the open attempt of its
      instance with that attempt's token, on conclusive evidence. */
  lemma ReportAcceptedExactly(st: RuntimeState, at: nat, r: Report)
    requires StateOk(st) && StateLive(st)
    ensures ReduceEffect(st, at, r).applied <==>
      exists i :: i in st.instances && Addresses(i, r.instance, r.attempt, r.fence) && Conclusive(r, at, i)
  {
    assert ReduceEffect(st, at, r).applied <==> ReportStatus(st, at, r) == Nominal;
    FindsIt(st, r.instance);
    var k := FindInstance(st.instances, r.instance);
    if k.Some? {
      var i := st.instances[k.value];
      ReportOn(st, at, r, i, k.value);
      forall j | j in st.instances && j.id == r.instance ensures j == i { SameInstance(st, i, j); }
      hide ReportStatus, ReduceEffect, Conclusive, StateOk, StateLive;
      assert ReportStatus(st, at, r) == Nominal ==> i in st.instances;
    }
  }

  lemma ReportOn(st: RuntimeState, at: nat, r: Report, i: Instance, k: nat)
    requires StateOk(st) && StateLive(st) && i in st.instances && i.id == r.instance
    requires FindInstance(st.instances, r.instance) == Some(k) && k < |st.instances| && st.instances[k] == i
    ensures ReportStatus(st, at, r) == Nominal <==> Addresses(i, r.instance, r.attempt, r.fence) && Conclusive(r, at, i)
  {
    hide Validates, Evidence.FreshAt, Evidence.Present;
    ValidatesLast(st, i, r.fence);
    if HasOpen(i) { OpenHasSerial(st, i); }
    hide StateOk, StateLive, FindInstance;
  }

  lemma AcknowledgedExactly(st: RuntimeState, e: Body)
    requires StateOk(st) && StateLive(st) && e.ExecutionAcknowledged?
    ensures ReduceAcknowledged(st, e).applied <==>
      exists i :: i in st.instances && Addresses(i, e.instance, e.attempt, e.fence)
  {
    FindsIt(st, e.instance);
    var k := FindInstance(st.instances, e.instance);
    if k.Some? {
      var i := st.instances[k.value];
      ValidatesLast(st, i, e.fence);
      if HasOpen(i) { OpenHasSerial(st, i); }
      forall j | j in st.instances && j.id == e.instance ensures j == i { SameInstance(st, i, j); }
      hide StateOk, StateLive, Validates, FindInstance;
      assert i in st.instances;
    }
  }

  // ---------------------------------------------------------------------
  // Closed and superseded attempts.
  // ---------------------------------------------------------------------

  /** Attempt numbers are all different exactly while the counter has not saturated. */
  lemma NumbersDistinctExactly(i: Instance)
    requires AttemptsOk(i.attempts)
    ensures (forall a, b :: 0 <= a < b < |i.attempts| ==> i.attempts[a].number != i.attempts[b].number)
       <==> |i.attempts| <= U64_MAX
  {
    if |i.attempts| > U64_MAX {
      assert i.attempts[U64_MAX - 1].number == i.attempts[U64_MAX].number;
    }
  }

  /** The attempt at position `k` is behind the instance for good. */
  predicate Past(i: Instance, k: nat)
    requires k < |i.attempts|
  {
    k < |i.attempts| - 1 || i.attempts[k].outcome != Open
  }

  lemma PastRefused(st: RuntimeState, j: Instance, k: nat, number: nat, instance: Id, fence: Token)
    requires StateOk(st) && j in st.instances && k < |j.attempts| && |j.attempts| <= U64_MAX
    requires Past(j, k) && j.attempts[k].number == number && j.id == instance
    ensures forall i :: i in st.instances ==> !Addresses(i, instance, number, fence)
  {
    assert InstanceOk(j, st.fences);
    forall i | i in st.instances && i.id == instance ensures i == j { SameInstance(st, i, j); }
    hide StateOk, TokensOld, Justified;
  }

  /** Once an attempt is closed or superseded, no acknowledgement or report naming it
      is accepted at the end of any later run. */
  lemma PastAttemptsStayRefused(cfg: Config, st: RuntimeState, es: seq<Event>, i: Instance, k: nat, at: nat, r: Report, ack: Body)
    requires StateOk(st) && StateLive(st) && OrderlyRun(cfg, st, es) && i in st.instances
    requires k < |i.attempts| && Past(i, k)
    requires r.instance == i.id && r.attempt == i.attempts[k].number
    requires ack.ExecutionAcknowledged? && ack.instance == i.id && ack.attempt == i.attempts[k].number
    requires forall j :: j in CommitAll(cfg, st, es).instances ==> |j.attempts| <= U64_MAX
    ensures !ReduceEffect(CommitAll(cfg, st, es), at, r).applied
    ensures !ReduceAcknowledged(CommitAll(cfg, st, es), ack).applied
  {
    var end := CommitAll(cfg, st, es);
    RunSteps(cfg, st, es);
    var j := RunDescends(cfg, st, es, i, 0);
    assert KeepsAttempt(i.attempts[k], j.attempts[k]);
    ReportAcceptedExactly(end, at, r);
    AcknowledgedExactly(end, ack);
    hide StateOk, StateLive, OrderlyRun, CommitAll, ReduceEffect, ReduceAcknowledged, Addresses, Conclusive;
    PastRefused(end, j, k, r.attempt, i.id, r.fence);
    PastRefused(end, j, k, r.attempt, i.id, ack.fence);
  }

  // ---------------------------------------------------------------------
  // Verification after fencing.
  // ---------------------------------------------------------------------

  /** A settled instance is verified again only by a later attempt, on evidence not
      older than its last fencing, as long as no event of the run lies before it. */
  lemma ReverifiedAfresh(cfg: Config, st: RuntimeState, es: seq<Event>, i: Instance, j: Instance)
    requires StateOk(st) && OrderlyRun(cfg, st, es) && i in st.instances && Settled(i)
    requires forall e :: e in es ==> e.at >= i.effectFencedAt
    requires j in CommitAll(cfg, st, es).instances && j.id == i.id && j.state == Verified
    ensures |j.attempts| > |i.attempts| && LastAttempt(j).outcome == ClosedVerified
    ensures j.verifiedEvidence.Present() && j.verifiedEvidence.observedAt >= j.effectFencedAt >= i.effectFencedAt
  {
    RunSteps(cfg, st, es);
    var d := RunDescends(cfg, st, es, i, i.effectFencedAt);
    var end := CommitAll(cfg, st, es);
    SameInstance(end, d, j);
    assert InstanceOk(j, end.fences);
    hide StateOk, OrderlyRun, CommitAll, AttemptsOk, TokensOld;
  }

  // ---------------------------------------------------------------------
  // Serving.
  // ---------------------------------------------------------------------

  /** The device an instance sits on reported healthy, and that report is current. */
  ghost predicate HealthyNow(d: Dpu, clock: nat) {
    && d.state == Attached && d.health == Healthy && d.healthFresh
    && d.healthEvidence.Present() && d.healthEvidence.FreshAt(clock)
    && d.healthEvidence.observedAt >= d.healthObservedAt
  }

  /** After a refresh the flag says what the evidence says. */
  lemma FreshMeans(dpus: seq<Dpu>, clock: nat)
    ensures forall d :: d in RefreshDpus(dpus, clock) && d.healthFresh && d.state == Attached && d.health == Healthy ==> HealthyNow(d, clock)
  {
  }

  lemma ServingOn(was: Instance, dpus: seq<Dpu>, clock: nat)
    requires Distinct(DpuIds(dpus))
    requires forall d :: d in dpus && d.healthFresh && d.state == Attached && d.health == Healthy ==> HealthyNow(d, clock)
    ensures var i := RefreshInstance(was, dpus);
      i.Serving() <==> i.state == Verified && exists d :: d in dpus && d.id == i.dpu && HealthyNow(d, clock)
  {
    var m := IndexOf(DpuIds(dpus), was.dpu);
    forall d | d in dpus && d.id == was.dpu ensures m < |dpus| && d == dpus[m] {
      var n :| 0 <= n < |dpus| && dpus[n] == d;
      assert DpuIds(dpus)[n] == was.dpu;
    }
    assert m < |dpus| ==> dpus[m] in dpus && DpuIds(dpus)[m] == dpus[m].id;
    hide IndexOf, DpuIds, Evidence.FreshAt, Evidence.Present;
  }

  /** After a refresh an instance serves exactly when it is verified and its device
      is healthy on current evidence. */
  lemma ServingExactly(st: RuntimeState, k: nat)
    requires CoreOk(st) && k < |st.instances|
    ensures var i := RefreshHealth(st).instances[k];
      i.Serving() <==> i.state == Verified && exists d :: d in RefreshHealth(st).topology.dpus && d.id == i.dpu && HealthyNow(d, st.clock)
  {
    var dpus := RefreshDpus(st.topology.dpus, st.clock);
    var was := st.instances[k];
    assert RefreshHealth(st).instances[k] == RefreshInstance(was, dpus) && RefreshHealth(st).topology.dpus == dpus;
    assert DpuIds(dpus) == DpuIds(st.topology.dpus);
    StrictlySortedDistinct(DpuIds(dpus));
    FreshMeans(st.topology.dpus, st.clock);
    hide CoreOk, StrictlySorted, RefreshHealth, RefreshInstance, RefreshDpus, HealthyNow;
    ServingOn(was, dpus, st.clock);
  }

  /** A serving instance is justified twice over: by a verified attempt whose evidence
      was fresh and not older than the last fencing, and by a healthy device. */
  lemma ServingJustified(st: RuntimeState, k: nat)
    requires CoreOk(st) && k < |st.instances| && RefreshHealth(st).instances[k].Serving()
    ensures var i := RefreshHealth(st).instances[k];
      && i.attempts != [] && Justified(i) && LastAttempt(i).outcome == ClosedVerified
      && exists d :: d in RefreshHealth(st).topology.dpus && d.id == i.dpu && HealthyNow(d, st.clock)
  {
    ServingExactly(st, k);
    RefreshKeeps(st, 0);
    var i := RefreshHealth(st).instances[k];
    assert i in RefreshHealth(st).instances;
    assert InstanceOk(i, st.fences);
    hide RefreshHealth, TokensOld, AttemptsOk;
  }

  /** A second refresh at the same clock changes nothing. */
  lemma RefreshTwice(st: RuntimeState)
    ensures RefreshHealth(RefreshHealth(st)) == RefreshHealth(st)
  {
    var once := RefreshHealth(st);
    var dpus := RefreshDpus(st.topology.dpus, st.clock);
    assert RefreshDpus(dpus, st.clock) == dpus;
    forall k | 0 <= k < |st.instances| ensures RefreshInstance(once.instances[k], dpus) == once.instances[k] { }
    assert RefreshInstances(once.instances, dpus) == once.instances;
  }
}
