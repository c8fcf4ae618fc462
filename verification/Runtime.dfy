/** The runtime as its callers use it: staging, releasing, checkpointing and reopening,
    as methods on one object. Every call is a stretch of a run of the protocol, so
    everything proved of runs holds of the object. */
module Runtime {
  import opened Base
  import opened Order
  import opened Model
  import opened Authority
  import opened Reducers
  import opened Runs
  import opened Replay
  import opened Delivery
  import opened Protocol
  import opened ExactlyOnce
  import opened SafeRotation
  import opened Restarts
  import opened ReducersRun
  import opened ApplyRun

  /** How the store answers one append. A full journal is rotated first: the rotation
      can be refused before the snapshot is replaced, stop before the journal is
      emptied, or go through, after which the append is tried once more. */
  datatype Reply =
    | Accepted
    | Failed(code: Reason)
    | FullUnsaved(code: Reason)
    | FullStuck(code: Reason)
    | FullRotated(again: bool, code: Reason)

  /** Whether a code merely informs, or refuses. */
  predicate Informational(code: Reason) {
    code == Nominal || code == DuplicateSuppressed || code == StoreClosed || code == QuiesceAsked
    || code == WithdrawnEffect || code == SupersededEffect || code == DeviceLost || code == AcknowledgementOnly
  }

  datatype Tally = Tally(applied: nat, suppressed: nat, refused: nat)

  function Total(t: Tally): nat { t.applied + t.suppressed + t.refused }

  function Counted(t: Tally, code: Reason, applied: bool): Tally {
    if !Informational(code) then t.(refused := t.refused + 1)
    else if applied then t.(applied := t.applied + 1)
    else t.(suppressed := t.suppressed + 1)
  }

  /** What is reported of one released event. */
  datatype Answer = Answer(code: Reason, applied: bool)

  function Tallied(answers: seq<Answer>): Tally {
    if answers == [] then Tally(0, 0, 0)
    else var n := |answers| - 1; Counted(Tallied(answers[..n]), answers[n].code, answers[n].applied)
  }

  /** Every answer is counted once. */
  lemma {:induction false} TalliedTotal(answers: seq<Answer>)
    ensures Total(Tallied(answers)) == |answers|
    decreases |answers|
  {
    if answers != [] { TalliedTotal(answers[..|answers| - 1]); }
  }

  predicate Refuses(v: Reply) { v.Failed? || v.FullUnsaved? || v.FullStuck? || (v.FullRotated? && !v.again) }

  /** The durable steps a released event goes through. */
  function PathOf(seen: bool, v: Reply): seq<Action> {
    if seen then [Skip]
    else if v.FullUnsaved? || v.Failed? then [Refuse]
    else (if v.Accepted? then [] else if v.FullStuck? then [Rename] else [Rename, Truncate])
         + (if Refuses(v) then [Refuse] else [Action.Append, Take])
  }

  /** A known position is suppressed or in conflict, a store that refuses answers with its
      own code, and anything else is answered by the reducer. */
  function AnswerTo(cfg: Config, st: RuntimeState, window: seq<Receipt>, e: Event, v: Reply): Answer {
    var hit := Match(window, e);
    if hit.Some? then Answer(if hit.value.digest == cfg.digest(e) then DuplicateSuppressed else ConflictingDuplicate, false)
    else if Refuses(v) then Answer(v.code, false)
    else
      var r := Apply(cfg, st.(journaled := if v.FullRotated? then 1 else st.journaled + 1), e);
      Answer(r.code, r.applied)
  }

  /** The run after releasing the first `k` events of a queue, and the answers. */
  datatype Releases = Releases(acts: seq<Action>, answers: seq<Answer>)

  ghost function Releasing(acts: seq<Action>, queue: seq<Event>, store: nat -> Reply, k: nat): Releases
    requires k <= |queue|
    decreases k
  {
    if k == 0 then Releases(acts, [])
    else
      var done := Releasing(acts, queue, store, k - 1);
      var p := Exec(done.acts).process;
      if p.Down? then done
      else Releases(done.acts + PathOf(Seen(p.window, queue[k - 1]), store(k - 1)),
                    done.answers + [AnswerTo(p.cfg, p.st, p.window, queue[k - 1], store(k - 1))])
  }

  /** A whole release: begun, carried out in order, finished. */
  ghost function Flushed(acts: seq<Action>, pending: seq<Event>, upto: nat, store: nat -> Reply): Releases {
    var queue := Sort(Released(pending, upto), EventLess);
    var done := Releasing(acts + [Begin(upto)], queue, store, |queue|);
    done.(acts := done.acts + [Finish])
  }

  /** The events of a batch that are admitted, given those admitted before them. */
  function Admitted(p: Process, events: seq<Event>): seq<Event>
    requires p.Up?
  {
    if events == [] then []
    else
      var n := |events| - 1;
      var before := Admitted(p, events[..n]);
      before + (if Stageable(p.(pending := p.pending + before), events[n]) then [events[n]] else [])
  }

  /** A complete event that repeats a remembered one. */
  predicate Redelivers(p: Process, e: Event)
    requires p.Up?
  {
    Complete(e) && Sealed(p.cfg, e) && Match(p.window, e).Some? && Match(p.window, e).value.digest == p.cfg.digest(e)
  }

  function RepeatCount(p: Process, events: seq<Event>): nat
    requires p.Up?
  {
    if events == [] then 0
    else var n := |events| - 1; RepeatCount(p, events[..n]) + (if Redelivers(p, events[n]) then 1 else 0)
  }

  function Stagings(events: seq<Event>): seq<Action> { seq(|events|, i requires 0 <= i < |events| => Action.Stage(events[i])) }

  lemma Extends(acts: seq<Action>, a: Action, s: System)
    requires s == Exec(acts) && Enabled(s, a)
    ensures Exec(acts + [a]) == Effect(s, a)
  {
    hide Exec, Effect;
    ExecSnoc(acts, a);
  }

  // ---------------------------------------------------------------------
  // Replay.
  // ---------------------------------------------------------------------

  lemma {:induction false} WindowSnoc(cfg: Config, w: seq<Receipt>, es: seq<Event>, e: Event)
    ensures WindowAfter(cfg, w, es + [e]) == Pushed(WindowAfter(cfg, w, es), cfg.bounds.maxWindow, ReceiptOf(cfg, e))
    decreases |es|
  {
    hide Pushed, ReceiptOf;
    if es == [] {
      assert [] + [e] == [e] && [e][1..] == [];
    } else {
      assert (es + [e])[0] == es[0] && (es + [e])[1..] == es[1..] + [e];
      WindowSnoc(cfg, Pushed(w, cfg.bounds.maxWindow, ReceiptOf(cfg, es[0])), es[1..], e);
    }
  }

  lemma DueStep(journal: seq<Event>, k: nat, floor: nat)
    requires k < |journal|
    ensures Due(journal[k..], floor) == (if journal[k].at <= floor then [] else [journal[k]]) + Due(journal[k + 1..], floor)
  {
    assert journal[k..][0] == journal[k] && journal[k..][1..] == journal[k + 1..];
  }

  lemma HeldStep(cfg: Config, w: seq<Receipt>, e: Event, rest: seq<Event>)
    ensures Held(cfg, w, [e] + rest) ==
      if Seen(w, e) then Held(cfg, w, rest)
      else [e] + Held(cfg, Pushed(w, cfg.bounds.maxWindow, ReceiptOf(cfg, e)), rest)
  {
    hide Seen, Pushed, ReceiptOf;
    assert ([e] + rest)[0] == e && ([e] + rest)[1..] == rest;
  }

  /** The replay loop of `open`: records at or below the snapshot's watermark are skipped,
      duplicates are dropped, everything else is reduced again. */
  method ReplayJournal(a: AcceptedState, cfg: Config, journal: seq<Event>) returns (window: seq<Receipt>, ghost es: seq<Event>)
    modifies a
    ensures es == Held(cfg, [], Due(journal, old(a.state).watermark))
    ensures a.state == ReplayAll(cfg, old(a.state), es) && window == WindowAfter(cfg, [], es)
  {
    hide Due, Held, ReplayAll, WindowAfter, Apply, Seen, Pushed, ReceiptOf;
    var floor := a.state.watermark;
    ghost var start := a.state;
    ghost var whole := Held(cfg, [], Due(journal, floor));
    window, es := [], [];
    ReplayNothing(cfg, start);
    var k := 0;
    assert journal[0..] == journal && [] + whole == whole;
    while k < |journal|
      invariant 0 <= k <= |journal|
      invariant a.state == ReplayAll(cfg, start, es) && window == WindowAfter(cfg, [], es)
      invariant whole == es + Held(cfg, window, Due(journal[k..], floor))
    {
      var e := journal[k];
      DueStep(journal, k, floor);
      ghost var rest := Due(journal[k + 1..], floor);
      if e.at <= floor {
        assert [] + rest == rest;
      } else {
        HeldStep(cfg, window, e, rest);
        var hit := Lookup(window, e);
        if hit.None? {
          WindowSnoc(cfg, [], es, e);
          ReplaySnoc(cfg, start, es, e);
          var evicted;
          window, evicted := PushBounded(window, cfg.bounds.maxWindow, ReceiptOf(cfg, e));
          var code, applied := ApplyEvent(a, cfg, e);
          if e.at > a.state.watermark { a.state := a.state.(watermark := e.at); }
          assert es + ([e] + Held(cfg, window, rest)) == es + [e] + Held(cfg, window, rest);
          es := es + [e];
        }
      }
      k := k + 1;
    }
    NothingDue(cfg, window, floor);
    assert journal[k..] == [] && es + [] == es;
  }

  lemma ReplayNothing(cfg: Config, st: RuntimeState)
    ensures ReplayAll(cfg, st, []) == st && WindowAfter(cfg, [], []) == []
  {
    hide Apply;
  }

  lemma NothingDue(cfg: Config, window: seq<Receipt>, floor: nat)
    ensures Held(cfg, window, Due([], floor)) == []
  {
  }

  /** `fence_after_recovery` and the new authority around it. */
  method RestartState(a: AcceptedState, cfg: Config)
    modifies a
    ensures a.state == Restart(cfg, old(a.state))
  {
    hide FenceAll, FencedIds;
    var known := Max(a.state.boot, cfg.boot);
    var boot := Max(known, SatNext(known));
    var epoch := Max(a.state.epoch, cfg.epoch);
    var fenced := Claimants(a.state.instances);
    a.state := a.state.(boot := boot, epoch := epoch, fences := Reset(epoch, boot));
    a.FenceEvery(a.state.clock, RestartFenced);
    a.state := a.state.(restartFenced := fenced);
  }

  method Claimants(instances: seq<Instance>) returns (ids: seq<Id>)
    ensures ids == FencedIds(instances)
  {
    ids := [];
    var k := 0;
    while k < |instances|
      invariant 0 <= k <= |instances| && ids == FencedIds(instances[..k])
    {
      assert instances[..k + 1][..k] == instances[..k];
      if LostProof(instances[k].state) { ids := ids + [instances[k].id]; }
      k := k + 1;
    }
    assert instances[..|instances|] == instances;
  }

  /** What the two files hold of a store. */
  ghost predicate Holding(d: Disk, file: Option<RuntimeState>, records: seq<Event>) {
    records == d.journal && file == if d.snapshot.Some? then Some(d.snapshot.value.st) else None
  }

  /** The decoding part of the replay loop: stops at the first record it cannot read. */
  method CountReadable(cfg: Config, records: seq<Event>) returns (k: nat)
    ensures k == Readable(cfg, records)
  {
    k := 0;
    assert records[0..] == records;
    while k < |records|
      invariant k <= |records| && Readable(cfg, records) == k + Readable(cfg, records[k..])
    {
      assert records[k..][0] == records[k] && records[k..][1..] == records[k + 1..];
      if !cfg.reader.decodes(records[k]) { return; }
      k := k + 1;
    }
  }

  /** The runtime of a refused opening is destroyed: `close` still checkpoints whatever
      state it holds, and the rotation may be refused or stop halfway. */
  method Demolish(st: RuntimeState, file: Option<RuntimeState>, records: seq<Event>, saves: bool, empties: bool)
    returns (file': Option<RuntimeState>, records': seq<Event>)
    ensures file' == (if saves then Some(st) else file) && records' == if saves && empties then [] else records
  {
    file', records' := file, records;
    if saves {
      file' := Some(st);
      if empties { records' := []; }
    }
  }

  /** An opening that is refused after the store was attached. */
  method RefuseOpen(cfg: Config, file: Option<RuntimeState>, records: seq<Event>, saves: bool, empties: bool, ghost before: seq<Action>)
    returns (file': Option<RuntimeState>, records': seq<Event>)
    requires Exec(before).process.Down? && Holding(Exec(before).disk, file, records) && Rejects(cfg, Exec(before).disk)
    ensures Holding(Exec(before + [Action.Reject(cfg, saves, empties)]).disk, file', records')
  {
    hide Exec, ReplayAll, Held, Due, Init, Apply;
    ghost var d := Exec(before).disk;
    RejectEffect(before, cfg, saves, empties);
    var barred := !cfg.reader.loads(file, records)
      || (file.Some? && (!cfg.reader.restores(file.value) || (file.value.storeId != "" && file.value.storeId != cfg.storeId)));
    assert barred == Barred(cfg, d);
    var a := new AcceptedState(Init(cfg));
    if !barred {
      if file.Some? { a.state := Restored(file.value); }
      assert a.state == BaseState(cfg, d) && a.state.watermark == Floor(d) by { InitWatermark(cfg); }
      var k := CountReadable(cfg, records);
      hide Readable;
      var window, es := ReplayJournal(a, cfg, records[..k]);
      assert es == Salvaged(cfg, d);
    }
    file', records' := Demolish(a.state, file, records, saves, empties);
    hide Barred, Salvaged;
  }

  lemma InitWatermark(cfg: Config)
    ensures Init(cfg).watermark == 0
  {
  }

  lemma StaysDown(before: seq<Action>, cfg: Config, saves: bool, empties: bool)
    requires Exec(before).process.Down? && Rejects(cfg, Exec(before).disk)
    ensures Exec(before + [Action.Reject(cfg, saves, empties)]).process.Down?
  {
    hide Exec, Wrecked, Recovered, Commit, RefreshHealth, Rejects, Opens;
    Extends(before, Action.Reject(cfg, saves, empties), Exec(before));
  }

  lemma RejectEffect(before: seq<Action>, cfg: Config, saves: bool, empties: bool)
    requires Exec(before).process.Down? && Rejects(cfg, Exec(before).disk)
    ensures Exec(before + [Action.Reject(cfg, saves, empties)]).disk == Wrecked(cfg, Exec(before).disk, saves, empties)
  {
    hide Exec, Wrecked, Recovered, Commit, RefreshHealth, Rejects, Opens;
    Extends(before, Action.Reject(cfg, saves, empties), Exec(before));
  }

  // ---------------------------------------------------------------------
  // The object.
  // ---------------------------------------------------------------------

  /** The reduction of a released event, with the watermark, and the clock when it is ahead. */
  method Reduce(accepted: AcceptedState, cfg: Config, e: Event) returns (code: Reason, applied: bool)
    modifies accepted
    ensures accepted.state == Commit(cfg, old(accepted.state), e)
    ensures code == Apply(cfg, old(accepted.state), e).code && applied == Apply(cfg, old(accepted.state), e).applied
  {
    hide Apply, RefreshHealth;
    code, applied := ApplyEvent(accepted, cfg, e);
    if e.at > accepted.state.watermark { accepted.state := accepted.state.(watermark := e.at); }
    if e.at > accepted.state.clock {
      accepted.state := accepted.state.(clock := e.at);
      accepted.Refresh();
    }
  }

  class FabricRuntime {
    const cfg: Config
    const accepted: AcceptedState
    var pending: seq<Event>
    var deliveries: seq<Receipt>
    var snapshot: Option<RuntimeState>
    var journal: seq<Event>

    ghost var saved: seq<Event>
    ghost var base: nat
    ghost var phase: Phase
    ghost var log: seq<Event>
    ghost var life: seq<Event>
    ghost var spent: set<Token>
    ghost var top: nat
    ghost var acts: seq<Action>

    ghost function Store(): Disk
      reads this
    {
      Disk(if snapshot.Some? then Some(Snapshot(snapshot.value, saved)) else None, journal, base)
    }

    ghost function Sys(): System
      reads this, accepted
    {
      System(Store(), Up(cfg, accepted.state, pending, deliveries, phase, log, life), spent, top)
    }

    /** The object is at a point of a run of the protocol. */
    ghost predicate OnRun()
      reads this, accepted
    {
      Sys() == Exec(acts)
    }

    /** Between calls. */
    ghost predicate Valid()
      reads this, accepted
    {
      OnRun() && phase == Idle
    }

    /** `open` that goes through, on the files a run has left behind: restore, replay, fence, checkpoint. */
    constructor Open(config: Config, file: Option<RuntimeState>, records: seq<Event>, ghost before: seq<Action>)
      requires Exec(before).process.Down? && Enabled(Exec(before), Action.Open(config))
      requires records == Exec(before).disk.journal && file.Some? == Exec(before).disk.snapshot.Some?
      requires file.Some? ==> file.value == Exec(before).disk.snapshot.value.st
      ensures Valid() && fresh(accepted) && cfg == config
      ensures acts == before + [Action.Open(config)] + (if file.None? && records == [] then [] else [Swap] + [SwapDone])
    {
      hide Exec, Act, Effect, Held, Due, ReplayAll, WindowAfter, Restart, Apply, Barred, Readable, Acceptable, Wrecked;
      ghost var down := Exec(before);
      cfg := config;
      accepted := new AcceptedState(if file.Some? then Restored(file.value) else Init(config));
      pending, deliveries, snapshot, journal := [], [], file, records;
      saved, base := SavedLog(down.disk), down.disk.base;
      phase, log, life := Idle, [], [];
      spent, top := down.spent, Max(down.top, config.boot);
      acts := before + [Action.Open(config)];
      new;
      OpenEffect(before, config);
      if file.Some? || records != [] {
        ghost var es;
        deliveries, es := ReplayJournal(accepted, config, records);
        RestartState(accepted, config);
        phase, log, life := Opening, saved + es, es;
        Checkpoint();
        assert acts == before + [Action.Open(config)] + ([Swap] + [SwapDone]);
      } else {
        assert acts == before + [Action.Open(config)] + [];
      }
    }

    /** `open` with all its answers: an unacceptable configuration touches nothing, one the
        store refuses is destroyed and leaves its checkpoint behind, and any other opens. */
    static method TryOpen(config: Config, file: Option<RuntimeState>, records: seq<Event>, saves: bool, empties: bool,
                          ghost before: seq<Action>)
      returns (r: FabricRuntime?, file': Option<RuntimeState>, records': seq<Event>, ghost run: seq<Action>)
      requires Exec(before).process.Down? && Holding(Exec(before).disk, file, records)
      ensures r != null <==> Opens(config, Exec(before).disk)
      ensures r != null ==> r.Valid() && fresh(r) && fresh(r.accepted) && r.cfg == config && r.acts == run
      ensures r == null ==> Exec(run).process.Down? && Holding(Exec(run).disk, file', records')
      ensures run == before + (if Opens(config, Exec(before).disk)
                               then [Action.Open(config)] + (if file.None? && records == [] then [] else [Swap] + [SwapDone])
                               else if Acceptable(config) then [Action.Reject(config, saves, empties)]
                               else [])
    {
      hide Exec, Held, Due, ReplayAll, Apply;
      ghost var d := Exec(before).disk;
      file', records' := file, records;
      if !Acceptable(config) {
        assert before + [] == before;
        return null, file, records, before;
      }
      var k := CountReadable(config, records);
      if !config.reader.loads(file, records)
         || (file.Some? && (!config.reader.restores(file.value) || (file.value.storeId != "" && file.value.storeId != config.storeId)))
         || k < |records| {
        assert Rejects(config, d);
        file', records' := RefuseOpen(config, file, records, saves, empties, before);
        run := before + [Action.Reject(config, saves, empties)];
        StaysDown(before, config, saves, empties);
        return null, file', records', run;
      }
      assert Opens(config, d);
      r := new FabricRuntime.Open(config, file, records, before);
      run := r.acts;
      assert before + [Action.Open(config)] + [] == before + ([Action.Open(config)] + []);
      assert before + [Action.Open(config)] + ([Swap] + [SwapDone]) == before + ([Action.Open(config)] + ([Swap] + [SwapDone]));
    }

    // -------------------------------------------------------------------
    // Steps of the protocol.
    // -------------------------------------------------------------------

    /** The snapshot file is replaced by the current state. */
    method Save(ghost a: Action)
      requires OnRun() && Enabled(Sys(), a) && (a.Rename? || a.Swap?)
      modifies this
      ensures OnRun() && acts == old(acts) + [a] && pending == old(pending) && deliveries == old(deliveries)
      ensures phase == if a.Rename? then Renamed(old(phase).queue) else Swapped(old(phase).Opening?)
      ensures log == old(log) && journal == old(journal)
    {
      hide Exec;
      SaveEffect(acts, Sys(), a);
      snapshot := Some(accepted.state);
      saved, base, acts := log, |journal|, acts + [a];
      phase := if a.Rename? then Renamed(phase.queue) else Swapped(phase.Opening?);
    }

    /** The journal file is emptied. */
    method Empty(ghost a: Action)
      requires OnRun() && Enabled(Sys(), a) && (a.Truncate? || a.SwapDone?)
      modifies this, accepted
      ensures OnRun() && acts == old(acts) + [a] && pending == old(pending) && deliveries == old(deliveries)
      ensures phase == if a.Truncate? then Rotated(old(phase).queue) else Idle
      ensures accepted.state == old(accepted.state).(journaled := 0) && log == old(log) && journal == []
    {
      hide Exec;
      EmptyEffect(acts, Sys(), a);
      journal := [];
      accepted.state := accepted.state.(journaled := 0);
      base, acts := 0, acts + [a];
      phase := if a.Truncate? then Rotated(phase.queue) else Idle;
    }

    /** The head of the queue is appended to the journal. */
    method Append(e: Event)
      requires OnRun() && (phase.Ready? || phase.Rotated?) && phase.queue != [] && phase.queue[0] == e && !Seen(deliveries, e)
      modifies this, accepted
      ensures OnRun() && acts == old(acts) + [Action.Append] && pending == old(pending) && deliveries == old(deliveries)
      ensures phase == Logged(old(phase).queue)
      ensures accepted.state == old(accepted.state).(journaled := old(accepted.state).journaled + 1)
    {
      hide Exec, Seen;
      AppendEffect(acts, Sys());
      journal := journal + [e];
      accepted.state := accepted.state.(journaled := accepted.state.journaled + 1);
      log, acts := log + [e], acts + [Action.Append];
      phase := Logged(phase.queue);
    }

    /** The journaled event is remembered and reduced. */
    method Take(e: Event) returns (code: Reason, applied: bool)
      requires OnRun() && phase.Logged? && phase.queue != [] && phase.queue[0] == e
      modifies this, accepted
      ensures OnRun() && acts == old(acts) + [Action.Take] && pending == old(pending)
      ensures phase == Ready(old(phase).queue[1..])
      ensures code == Reducers.Apply(cfg, old(accepted.state), e).code && applied == Reducers.Apply(cfg, old(accepted.state), e).applied
    {
      hide Exec, Act, Effect, Apply, Commit, RefreshHealth, Pushed, ReceiptOf, Recovered, Wrecked, Opens, Rejects, Seen;
      TakeEffect(acts, Sys());
      var evicted;
      deliveries, evicted := PushBounded(deliveries, cfg.bounds.maxWindow, ReceiptOf(cfg, e));
      code, applied := Reduce(accepted, cfg, e);
      life, acts := life + [e], acts + [Action.Take];
      phase := Ready(phase.queue[1..]);
    }

    /** The head of the queue is passed over: a duplicate, or refused by the store. */
    ghost method Pass(a: Action)
      requires OnRun() && Enabled(Sys(), a) && (a.Skip? || a.Refuse?)
      modifies this
      ensures OnRun() && acts == old(acts) + [a] && phase == Ready(old(phase).queue[1..])
      ensures pending == old(pending) && deliveries == old(deliveries) && snapshot == old(snapshot) && journal == old(journal)
    {
      hide Exec;
      PassEffect(acts, Sys(), a);
      phase, acts := Ready(phase.queue[1..]), acts + [a];
    }

    /** `checkpoint_locked` when the rotation goes through. */
    method Checkpoint()
      requires OnRun() && (phase.Idle? || phase.Opening?)
      modifies this, accepted
      ensures Valid() && pending == old(pending) && acts == old(acts) + [Swap] + [SwapDone]
    {
      hide Exec;
      Save(Swap);
      Empty(SwapDone);
    }

    // -------------------------------------------------------------------
    // Calls.
    // -------------------------------------------------------------------

    /** `checkpoint`: the store may refuse the snapshot, or fail to empty the journal
        once the snapshot is in place. Neither changes what the state stands for. */
    method CheckpointNow(saves: bool, empties: bool) returns (ok: bool)
      requires Valid()
      modifies this, accepted
      ensures Valid() && pending == old(pending) && log == old(log) && deliveries == old(deliveries)
      ensures ok <==> saves && empties
      ensures acts == old(acts) + if !saves then [] else if empties then [Swap] + [SwapDone] else [Swap] + [SwapFailed]
      ensures if ok then journal == [] && accepted.state == old(accepted.state).(journaled := 0)
              else journal == old(journal) && accepted.state == old(accepted.state)
    {
      hide Exec;
      if !saves { return false; }
      Save(Swap);
      if empties {
        Empty(SwapDone);
        return true;
      }
      StuckEffect(acts, Sys());
      phase, acts := Idle, acts + [SwapFailed];
      return false;
    }

    /** `stage`: the refusals in the order they are tried. */
    method Stage(e: Event) returns (code: Reason)
      requires Valid()
      modifies this
      ensures Valid() && deliveries == old(deliveries)
      ensures code == Nominal <==> Stageable(old(Sys()).process, e)
      ensures code == DuplicateSuppressed <==> Redelivers(old(Sys()).process, e)
      ensures code == InvalidIdentity <==> !Complete(e)
      ensures code == InvalidDigest <==> Complete(e) && !Sealed(cfg, e)
      ensures code == ConflictingDuplicate <==>
        Complete(e) && Sealed(cfg, e) && Seen(deliveries, e) && !Redelivers(old(Sys()).process, e)
      ensures code == LateEventRejected <==>
        Complete(e) && Sealed(cfg, e) && !Seen(deliveries, e) && e.at <= accepted.state.watermark
      ensures code == QueueFull <==>
        && Complete(e) && Sealed(cfg, e) && !Seen(deliveries, e) && e.at > accepted.state.watermark
        && |old(pending)| >= cfg.bounds.maxBatchEvents
      ensures Sys() == old(Sys()).(process := old(Sys()).process.(pending := pending))
      ensures if code == Nominal then pending == old(pending) + [e] && acts == old(acts) + [Action.Stage(e)]
              else pending == old(pending) && acts == old(acts)
    {
      hide Exec, Seen;
      if !Complete(e) { return InvalidIdentity; }
      if !Sealed(cfg, e) { return InvalidDigest; }
      var hit := Lookup(deliveries, e);
      if hit.Some? {
        if hit.value.digest == cfg.digest(e) { return DuplicateSuppressed; }
        return ConflictingDuplicate;
      }
      if e.at <= accepted.state.watermark { return LateEventRejected; }
      if |pending| >= cfg.bounds.maxBatchEvents { return QueueFull; }
      StageEffect(acts, Sys(), e);
      pending, acts := pending + [e], acts + [Action.Stage(e)];
      return Nominal;
    }

    /** One released event: a duplicate is skipped; otherwise it is journaled, rotating
        a full journal once, and then reduced. */
    method Release(e: Event, verdict: Reply) returns (answer: Answer)
      requires OnRun() && phase.Ready? && phase.queue != [] && phase.queue[0] == e
      modifies this, accepted
      ensures OnRun() && phase == Ready(old(phase).queue[1..]) && pending == old(pending)
      ensures acts == old(acts) + PathOf(Seen(old(deliveries), e), verdict)
      ensures answer == AnswerTo(cfg, old(accepted.state), old(deliveries), e, verdict)
    {
      hide Exec, Act, Effect, Seen, Apply, OnRun, Opens, Rejects;
      var hit := Lookup(deliveries, e);
      if hit.Some? {
        Pass(Skip);
        return Answer(if hit.value.digest == cfg.digest(e) then DuplicateSuppressed else ConflictingDuplicate, false);
      }
      if verdict.Failed? || verdict.FullUnsaved? {
        Pass(Action.Refuse);
        return Answer(verdict.code, false);
      }
      if !verdict.Accepted? {
        Save(Rename);
        if verdict.FullRotated? { Empty(Truncate); }
        if verdict.FullStuck? || !verdict.again {
          Pass(Action.Refuse);
          return Answer(verdict.code, false);
        }
      }
      answer := Journal(e);
    }

    /** The event is journaled and then reduced. */
    method Journal(e: Event) returns (answer: Answer)
      requires OnRun() && (phase.Ready? || phase.Rotated?) && phase.queue != [] && phase.queue[0] == e && !Seen(deliveries, e)
      modifies this, accepted
      ensures OnRun() && phase == Ready(old(phase).queue[1..]) && pending == old(pending)
      ensures acts == old(acts) + [Action.Append] + [Action.Take]
      ensures var r := Reducers.Apply(cfg, old(accepted.state).(journaled := old(accepted.state).journaled + 1), e);
        answer == Answer(r.code, r.applied)
    {
      hide Exec, Seen, Apply, OnRun;
      Append(e);
      var code, applied := Take(e);
      return Answer(code, applied);
    }

    /** The first half of `flush`: splits the buffer and orders what is released. */
    method StartRelease(upto: nat) returns (queue: seq<Event>)
      requires Valid()
      modifies this
      ensures OnRun() && phase == Ready(queue) && queue == Sort(Released(old(pending), upto), EventLess)
      ensures pending == Retained(old(pending), upto) && acts == old(acts) + [Begin(upto)]
    {
      hide Exec, Sort, RefreshHealth;
      BeginEffect(acts, Sys(), upto);
      var released, retained := Split(pending, upto);
      queue := Sort(released, EventLess);
      pending := retained;
      phase, acts := Ready(queue), acts + [Begin(upto)];
    }

    /** The release loop. */
    method ReleaseAll(queue: seq<Event>, store: nat -> Reply) returns (t: Tally, answers: seq<Answer>)
      requires OnRun() && phase == Ready(queue)
      modifies this, accepted
      ensures OnRun() && phase == Ready([]) && pending == old(pending)
      ensures Releases(acts, answers) == Releasing(old(acts), queue, store, |queue|)
      ensures t == Tallied(answers) && |answers| == |queue|
    {
      hide Exec, Releasing, AnswerTo, PathOf, Seen;
      ReleasingNone(acts, queue, store);
      t, answers := Tally(0, 0, 0), [];
      var k := 0;
      assert queue[0..] == queue;
      while k < |queue|
        invariant 0 <= k <= |queue| && OnRun() && phase == Ready(queue[k..]) && pending == old(pending)
        invariant t == Tallied(answers) && |answers| == k && Releases(acts, answers) == Releasing(old(acts), queue, store, k)
      {
        assert queue[k..][0] == queue[k] && queue[k..][1..] == queue[k + 1..];
        ReleasingStep(old(acts), queue, store, k + 1, Sys().process);
        var answer := Release(queue[k], store(k));
        t := Counted(t, answer.code, answer.applied);
        assert (answers + [answer])[..k] == answers;
        answers := answers + [answer];
        k := k + 1;
      }
      assert queue[k..] == [];
    }

    /** `flush`: each released event is answered and counted exactly once. */
    method Flush(upto: nat, store: nat -> Reply) returns (t: Tally, answers: seq<Answer>)
      requires Valid()
      modifies this, accepted
      ensures Valid() && pending == Retained(old(pending), upto)
      ensures Releases(acts, answers) == Flushed(old(acts), old(pending), upto, store)
      ensures t == Tallied(answers) && Total(t) == |Released(old(pending), upto)|
    {
      hide Exec, Sort, RefreshHealth, Releasing, Tallied, Released, Retained;
      var queue := StartRelease(upto);
      SortKeeps(Released(old(pending), upto), EventLess);
      SameSize(queue, Released(old(pending), upto));
      t, answers := ReleaseAll(queue, store);
      TalliedTotal(answers);
      FinishEffect(acts, Sys());
      accepted.Refresh();
      phase, acts := Idle, acts + [Finish];
    }

    /** One event of a batch, after those admitted before it. */
    method StageNext(e: Event, ghost p: Process, ghost staged: seq<Event>) returns (code: Reason, ghost staged': seq<Event>)
      requires Valid() && p.Up? && Sys().process == p.(pending := p.pending + staged)
      modifies this
      ensures Valid() && Sys().process == p.(pending := p.pending + staged')
      ensures code == Nominal <==> Stageable(p.(pending := p.pending + staged), e)
      ensures code == DuplicateSuppressed <==> Redelivers(p, e)
      ensures staged' == staged + (if code == Nominal then [e] else [])
      ensures acts == old(acts) + Stagings(if code == Nominal then [e] else [])
    {
      hide Exec, Seen, OnRun, Stageable, Redelivers;
      RepeatsAnyway(p, staged, e);
      ghost var before := Sys().process;
      assert before.pending == pending;
      code := Stage(e);
      assert Sys().process == before.(pending := pending);
      hide Sys;
      staged' := staged + (if code == Nominal then [e] else []);
      assert code == Nominal ==> p.pending + staged + [e] == p.pending + (staged + [e]);
      assert code != Nominal ==> staged + [] == staged;
    }

    /** The staging loop of `submit`. */
    method StageAll(events: seq<Event>, ghost p: Process) returns (upto: nat, suppressed: nat, refused: nat, ghost staged: seq<Event>)
      requires Valid() && p.Up? && Sys().process == p
      modifies this
      ensures Valid() && upto == Latest(events, 0) && staged == Admitted(p, events)
      ensures Sys().process == p.(pending := p.pending + staged) && acts == old(acts) + Stagings(staged)
      ensures suppressed == RepeatCount(p, events) && suppressed + refused + |staged| == |events|
      ensures NotAfter(staged, upto)
    {
      hide Exec, Latest, Valid, Sys, Stageable, Redelivers, Admitted, RepeatCount, Stagings, NotAfter;
      assert p.pending + [] == p.pending;
      upto, suppressed, refused, staged := 0, 0, 0, [];
      LatestSnoc(events, 0);
      AdmittedStep(p, events, 0);
      StagingsSplit(acts, [], []);
      NoneAfter([], [], 0, 0);
      var k: nat := 0;
      while k < |events|
        invariant k <= |events| && Valid() && upto == Latest(events[..k], 0)
        invariant Sys().process == p.(pending := p.pending + staged) && acts == old(acts) + Stagings(staged)
        invariant staged == Admitted(p, events[..k])
        invariant suppressed == RepeatCount(p, events[..k]) && suppressed + refused + |staged| == k
        invariant NotAfter(staged, upto)
      {
        LatestSnoc(events, k + 1);
        AdmittedStep(p, events, k + 1);
        RepeatsAnyway(p, staged, events[k]);
        var code, staged' := StageNext(events[k], p, staged);
        StagingsSplit(old(acts), staged, if code == Nominal then [events[k]] else []);
        NoneAfter(staged, if code == Nominal then [events[k]] else [], upto, events[k].at);
        staged := staged';
        if events[k].at > upto { upto := events[k].at; }
        if code == DuplicateSuppressed {
          suppressed := suppressed + 1;
        } else if code != Nominal {
          refused := refused + 1;
        }
        k := k + 1;
      }
      assert events[..|events|] == events;
    }

    /** `submit`: stages a batch and releases up to its latest instant. Every event of the
        batch, and every event released with it, is counted exactly once. */
    method Submit(events: seq<Event>, store: nat -> Reply) returns (r: Result<Tally>)
      requires Valid()
      modifies this, accepted
      ensures Valid()
      ensures |events| > cfg.bounds.maxBatchEvents <==> r == Err(BatchTooLarge)
      ensures r.Err? ==> acts == old(acts)
      ensures r.Ok? ==>
        var staged := Admitted(old(Sys()).process, events);
        var repeats := RepeatCount(old(Sys()).process, events);
        var done := Flushed(old(acts) + Stagings(staged), old(pending) + staged, Latest(events, 0), store);
        var t := Tallied(done.answers);
        && acts == done.acts && r.value.applied == t.applied && r.value.suppressed == t.suppressed + repeats
        && r.value.refused + repeats + |staged| == t.refused + |events|
      ensures r.Ok? ==> Total(r.value) == |events| + |Released(old(pending), Latest(events, 0))|
    {
      hide Exec, Released, Latest, OnRun, Admitted, RepeatCount, Flushed, Tallied;
      if |events| > cfg.bounds.maxBatchEvents { return Err(BatchTooLarge); }
      var upto, suppressed, refused, staged := StageAll(events, Sys().process);
      ReleasedAppend(old(pending), staged, upto);
      var t, answers := Flush(upto, store);
      return Ok(Tally(t.applied, t.suppressed + suppressed, t.refused + refused));
    }

    /** What every point of the object's life promises: the log it stands for holds each
        event once and in release order, and it is what the store will bring back. */
    lemma ExactlyOnceHere()
      requires Valid()
      ensures Increasing(log) && base <= |journal| && log == Durable(Store())
    {
      RunInv(acts);
      hide Exec;
    }
  }

  /** The loop that parts the buffer. */
  method Split(pending: seq<Event>, upto: nat) returns (released: seq<Event>, retained: seq<Event>)
    ensures released == Released(pending, upto) && retained == Retained(pending, upto)
  {
    released, retained := [], [];
    var k := 0;
    while k < |pending|
      invariant 0 <= k <= |pending|
      invariant released == Released(pending[..k], upto) && retained == Retained(pending[..k], upto)
    {
      assert pending[..k + 1][..k] == pending[..k];
      if pending[k].at <= upto { released := released + [pending[k]]; } else { retained := retained + [pending[k]]; }
      k := k + 1;
    }
    assert pending[..|pending|] == pending;
  }

  lemma ReleasingNone(acts: seq<Action>, queue: seq<Event>, store: nat -> Reply)
    ensures Releasing(acts, queue, store, 0) == Releases(acts, [])
  {
    hide Exec, Apply;
  }

  lemma ReleasingStep(acts: seq<Action>, queue: seq<Event>, store: nat -> Reply, k: nat, p: Process)
    requires 0 < k <= |queue| && p.Up? && p == Exec(Releasing(acts, queue, store, k - 1).acts).process
    ensures var done := Releasing(acts, queue, store, k - 1);
      Releasing(acts, queue, store, k) == Releases(
        done.acts + PathOf(Seen(p.window, queue[k - 1]), store(k - 1)),
        done.answers + [AnswerTo(p.cfg, p.st, p.window, queue[k - 1], store(k - 1))])
  {
    hide Exec, Apply, PathOf, AnswerTo, Seen;
  }

  lemma StagingsSplit(acts: seq<Action>, a: seq<Event>, b: seq<Event>)
    ensures acts + Stagings(a) + Stagings(b) == acts + Stagings(a + b)
    ensures acts + Stagings([]) == acts
  {
  }

  lemma NoneAfter(a: seq<Event>, b: seq<Event>, upto: nat, at: nat)
    requires NotAfter(a, upto) && forall e :: e in b ==> e.at == at
    ensures NotAfter(a + b, Max(upto, at)) && NotAfter(a, Max(upto, at))
  {
  }

  lemma AdmittedStep(p: Process, events: seq<Event>, k: nat)
    requires p.Up? && k <= |events|
    ensures Admitted(p, events[..0]) == [] && RepeatCount(p, events[..0]) == 0
    ensures k > 0 ==> var before := Admitted(p, events[..k - 1]);
      && Admitted(p, events[..k])
           == before + (if Stageable(p.(pending := p.pending + before), events[k - 1]) then [events[k - 1]] else [])
      && RepeatCount(p, events[..k]) == RepeatCount(p, events[..k - 1]) + (if Redelivers(p, events[k - 1]) then 1 else 0)
  {
    hide Stageable, Redelivers;
    if k > 0 { assert events[..k][..k - 1] == events[..k - 1]; }
  }

  lemma RepeatsAnyway(p: Process, staged: seq<Event>, e: Event)
    requires p.Up?
    ensures Redelivers(p.(pending := p.pending + staged), e) == Redelivers(p, e)
    ensures Redelivers(p, e) ==> !Stageable(p.(pending := p.pending + staged), e)
  {
  }

  lemma LatestSnoc(events: seq<Event>, k: nat)
    requires k <= |events|
    ensures Latest(events[..k], 0) == if k == 0 then 0 else Max(Latest(events[..k - 1], 0), events[k - 1].at)
  {
    if k > 0 { assert events[..k][..k - 1] == events[..k - 1]; }
  }

  lemma SameSize(a: seq<Event>, b: seq<Event>)
    requires multiset(a) == multiset(b)
    ensures |a| == |b|
  {
    assert |multiset(a)| == |a| && |multiset(b)| == |b|;
  }

  lemma {:induction false} ReleasedAppend(p: seq<Event>, staged: seq<Event>, upto: nat)
    requires forall e :: e in staged ==> e.at <= upto
    ensures |Released(p + staged, upto)| == |Released(p, upto)| + |staged|
    decreases |staged|
  {
    if staged == [] {
      assert p + staged == p;
    } else {
      var n := |staged| - 1;
      assert (p + staged)[..|p + staged| - 1] == p + staged[..n] && (p + staged)[|p + staged| - 1] == staged[n];
      ReleasedAppend(p, staged[..n], upto);
    }
  }

  // What each action does, one level deep.

  lemma SaveEffect(acts: seq<Action>, s: System, a: Action)
    requires s == Exec(acts) && Enabled(s, a) && (a.Rename? || a.Swap?)
    ensures Exec(acts + [a]) == SavedAs(s, if a.Rename? then Renamed(s.process.phase.queue) else Swapped(s.process.phase.Opening?))
  {
    hide Exec, SavedAs, Recovered, Commit, RefreshHealth;
    Extends(acts, a, s);
  }

  lemma EmptyEffect(acts: seq<Action>, s: System, a: Action)
    requires s == Exec(acts) && Enabled(s, a) && (a.Truncate? || a.SwapDone?)
    ensures Exec(acts + [a]) == EmptiedAs(s, if a.Truncate? then Rotated(s.process.phase.queue) else Idle)
  {
    hide Exec, EmptiedAs, Recovered, Commit, RefreshHealth;
    Extends(acts, a, s);
  }

  lemma StuckEffect(acts: seq<Action>, s: System)
    requires s == Exec(acts) && Enabled(s, SwapFailed)
    ensures Exec(acts + [SwapFailed]) == s.(process := s.process.(phase := Idle))
  {
    hide Exec, Recovered, Commit, RefreshHealth;
    Extends(acts, SwapFailed, s);
  }

  lemma AppendEffect(acts: seq<Action>, s: System)
    requires s == Exec(acts) && Enabled(s, Action.Append)
    ensures HasQueue(s.process) && Exec(acts + [Action.Append]) == Appended(s)
  {
    hide Exec, Appended, Recovered, Commit, RefreshHealth;
    Extends(acts, Action.Append, s);
  }

  lemma TakeEffect(acts: seq<Action>, s: System)
    requires s == Exec(acts) && Enabled(s, Action.Take)
    ensures HasQueue(s.process)
    ensures Exec(acts + [Action.Take]) == Taken(s, Commit(s.process.cfg, s.process.st, s.process.phase.queue[0]))
  {
    hide Exec, Taken, Recovered, Commit, RefreshHealth;
    Extends(acts, Action.Take, s);
  }

  lemma PassEffect(acts: seq<Action>, s: System, a: Action)
    requires s == Exec(acts) && Enabled(s, a) && (a.Skip? || a.Refuse?)
    ensures HasQueue(s.process) && Exec(acts + [a]) == Passed(s)
  {
    hide Exec, Passed, Recovered, Commit, RefreshHealth;
    Extends(acts, a, s);
  }

  lemma StageEffect(acts: seq<Action>, s: System, e: Event)
    requires s == Exec(acts) && Enabled(s, Action.Stage(e))
    ensures Exec(acts + [Action.Stage(e)]) == s.(process := s.process.(pending := s.process.pending + [e]))
  {
    hide Exec, Recovered, Commit, RefreshHealth;
    Extends(acts, Action.Stage(e), s);
  }

  lemma BeginEffect(acts: seq<Action>, s: System, upto: nat)
    requires s == Exec(acts) && Enabled(s, Begin(upto))
    ensures Exec(acts + [Begin(upto)]) == Started(s, upto)
  {
    hide Exec, Started, Recovered, Commit, RefreshHealth;
    Extends(acts, Begin(upto), s);
  }

  lemma FinishEffect(acts: seq<Action>, s: System)
    requires s == Exec(acts) && Enabled(s, Finish)
    ensures Exec(acts + [Finish]) == s.(process := s.process.(st := RefreshHealth(s.process.st), phase := Idle))
  {
    hide Exec, Recovered, Commit, RefreshHealth;
    Extends(acts, Finish, s);
  }

  lemma OpenEffect(before: seq<Action>, config: Config)
    requires Enabled(Exec(before), Action.Open(config))
    ensures var down := Exec(before);
      Exec(before + [Action.Open(config)])
        == down.(process := if Fresh(down.disk) then Begun(config)
                            else Resumed(config, down.disk, Restart(config, ReplayAll(config, BaseState(config, down.disk), Replayable(config, down.disk)))),
                 top := Max(down.top, config.boot))
  {
    hide Exec, Begun, Resumed, Restart, ReplayAll, Replayable, Commit, RefreshHealth, BaseState;
    Extends(before, Action.Open(config), Exec(before));
  }
}
