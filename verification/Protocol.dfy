/** The runtime and its store as a state machine: staging, releasing, journaling,
    rotation, crashes and recovery, one durable step at a time. */
module Protocol {
  import opened Base
  import opened Order
  import opened Model
  import opened Authority
  import opened Reducers
  import opened Runs
  import opened Replay
  import opened Delivery

  // ---------------------------------------------------------------------
  // State.
  // ---------------------------------------------------------------------

  /** A durable base: the saved state, and the events it stands for. */
  datatype Snapshot = Snapshot(st: RuntimeState, log: seq<Event>)

  /** The store. The first `base` journal records were written before the snapshot. */
  datatype Disk = Disk(snapshot: Option<Snapshot>, journal: seq<Event>, base: nat)

  /** Where the process is: between calls, releasing a queue, inside a rotation forced
      by a full journal, between journaling and applying an event, inside a
      checkpoint, or recovering. */
  datatype Phase =
    | Idle
    | Ready(queue: seq<Event>)
    | Renamed(queue: seq<Event>)
    | Rotated(queue: seq<Event>)
    | Logged(queue: seq<Event>)
    | Swapped(opening: bool)
    | Opening

  /** `log` lists the events the state stands for, `life` those this process applied. */
  datatype Process =
    | Down
    | Up(cfg: Config, st: RuntimeState, pending: seq<Event>, window: seq<Receipt>, phase: Phase,
         log: seq<Event>, life: seq<Event>)

  /** `spent` collects the tokens that were out when a process ended, `top` is the
      highest boot incarnation configured so far. */
  datatype System = System(disk: Disk, process: Process, spent: set<Token>, top: nat)

  const START := System(Disk(None, [], 0), Down, {}, 0)

  function SavedLog(disk: Disk): seq<Event> { if disk.snapshot.Some? then disk.snapshot.value.log else [] }

  /** The watermark recovery starts from. */
  function Floor(disk: Disk): nat { if disk.snapshot.Some? then disk.snapshot.value.st.watermark else 0 }

  /** Every event committed so far: those the snapshot stands for and those journaled since. */
  function Durable(disk: Disk): seq<Event>
    requires disk.base <= |disk.journal|
  {
    SavedLog(disk) + disk.journal[disk.base..]
  }

  // ---------------------------------------------------------------------
  // Recovery.
  // ---------------------------------------------------------------------

  const FRESH_POLICY := Policy(0, 4, 64, 16, true, true, false, 64, NO_EVIDENCE)

  function Init(cfg: Config): RuntimeState {
    RuntimeState(cfg.storeId, cfg.coordinator, cfg.epoch, cfg.boot, 0, 0, 0, 0, 0, 0, FRESH_POLICY, Topology(0, 0, []),
                 [], [], [], [], [], [], Reset(cfg.epoch, cfg.boot), [], 0)
  }

  predicate Acceptable(cfg: Config) {
    cfg.bounds.Valid() && cfg.storeId != "" && cfg.coordinator != "" && cfg.epoch > 0 && cfg.boot > 0
  }

  /** The journal records recovery does not skip. */
  function Due(journal: seq<Event>, floor: nat): seq<Event> {
    if journal == [] then []
    else (if journal[0].at <= floor then [] else [journal[0]]) + Due(journal[1..], floor)
  }

  /** Of these, the ones the delivery window lets through. */
  function Held(cfg: Config, window: seq<Receipt>, es: seq<Event>): seq<Event>
    decreases |es|
  {
    if es == [] then []
    else if Seen(window, es[0]) then Held(cfg, window, es[1..])
    else [es[0]] + Held(cfg, Pushed(window, cfg.bounds.maxWindow, ReceiptOf(cfg, es[0])), es[1..])
  }

  function WindowAfter(cfg: Config, window: seq<Receipt>, es: seq<Event>): seq<Receipt>
    decreases |es|
  {
    if es == [] then window
    else WindowAfter(cfg, Pushed(window, cfg.bounds.maxWindow, ReceiptOf(cfg, es[0])), es[1..])
  }

  function BaseState(cfg: Config, disk: Disk): RuntimeState {
    if disk.snapshot.Some? then Restored(disk.snapshot.value.st) else Init(cfg)
  }

  function Replayable(cfg: Config, disk: Disk): seq<Event> { Held(cfg, [], Due(disk.journal, Floor(disk))) }

  predicate LostProof(s: Model.Lifecycle) { ClaimsLiveness(s) || s == Unverified }

  function FencedIds(instances: seq<Instance>): seq<Id> {
    if instances == [] then []
    else
      var n := |instances| - 1;
      FencedIds(instances[..n]) + (if LostProof(instances[n].state) then [instances[n].id] else [])
  }

  /** A recovered state takes a new boot incarnation and fences every instance. */
  function Restart(cfg: Config, st: RuntimeState): RuntimeState {
    var known := Max(st.boot, cfg.boot);
    var boot := Max(known, SatNext(known));
    var epoch := Max(st.epoch, cfg.epoch);
    st.(boot := boot, epoch := epoch, fences := Reset(epoch, boot),
        instances := FenceAll(st.instances, st.clock, RestartFenced), restartFenced := FencedIds(st.instances))
  }

  predicate Fresh(disk: Disk) { disk.snapshot.None? && disk.journal == [] }

  /** Refused before the recovered state is touched: files that do not read back, a
      snapshot that does not decode, or one of another store. */
  predicate Barred(cfg: Config, disk: Disk) {
    var st := if disk.snapshot.Some? then Some(disk.snapshot.value.st) else None;
    || !cfg.reader.loads(st, disk.journal)
    || (st.Some? && (!cfg.reader.restores(st.value) || (st.value.storeId != "" && st.value.storeId != cfg.storeId)))
  }

  /** How many records decode before the first that does not. */
  function Readable(cfg: Config, journal: seq<Event>): (k: nat)
    ensures k <= |journal| && (forall i :: 0 <= i < k ==> cfg.reader.decodes(journal[i]))
    ensures k < |journal| ==> !cfg.reader.decodes(journal[k])
  {
    if journal == [] || !cfg.reader.decodes(journal[0]) then 0 else 1 + Readable(cfg, journal[1..])
  }

  predicate Opens(cfg: Config, disk: Disk) {
    Acceptable(cfg) && !Barred(cfg, disk) && Readable(cfg, disk.journal) == |disk.journal|
  }

  /** The store is attached, and then the opening is refused. */
  predicate Rejects(cfg: Config, disk: Disk) { Acceptable(cfg) && !Opens(cfg, disk) }

  /** The records replayed before an opening is refused. */
  function Salvaged(cfg: Config, disk: Disk): seq<Event> {
    Held(cfg, [], Due(disk.journal[..Readable(cfg, disk.journal)], Floor(disk)))
  }

  /** What the runtime of a refused opening holds when it is destroyed, and saves. */
  function Wreck(cfg: Config, disk: Disk): Snapshot {
    if Barred(cfg, disk) then Snapshot(Init(cfg), [])
    else
      var es := Salvaged(cfg, disk);
      Snapshot(ReplayAll(cfg, BaseState(cfg, disk), es), SavedLog(disk) + es)
  }

  /** The store after a refused opening was destroyed: the closing checkpoint may be
      refused, may stop once the snapshot is replaced, or may go through. */
  function Wrecked(cfg: Config, disk: Disk, saves: bool, empties: bool): Disk {
    if !saves then disk
    else
      var base := if Barred(cfg, disk) then 0 else Max(Readable(cfg, disk.journal), disk.base);
      var d := Disk(Some(Wreck(cfg, disk)), disk.journal, base);
      if empties then Emptied(d) else d
  }

  /** The process that resumes from a store with the recovered state. */
  function Resumed(cfg: Config, disk: Disk, st: RuntimeState): Process {
    var es := Replayable(cfg, disk);
    Up(cfg, st, [], WindowAfter(cfg, [], es), Opening, SavedLog(disk) + es, es)
  }

  function Begun(cfg: Config): Process { Up(cfg, Init(cfg), [], [], Idle, [], []) }

  function Recovered(cfg: Config, disk: Disk): Process {
    if Fresh(disk) then Begun(cfg)
    else Resumed(cfg, disk, Restart(cfg, ReplayAll(cfg, BaseState(cfg, disk), Replayable(cfg, disk))))
  }

  // ---------------------------------------------------------------------
  // Steps.
  // ---------------------------------------------------------------------

  datatype Action =
    | Open(cfg: Config) | Stage(event: Event) | Begin(upto: nat)
    | Skip | Refuse | Rename | Truncate | Append | Take | Finish
    | Swap | SwapDone | SwapFailed | Crash
    | Reject(cfg: Config, saves: bool, empties: bool)

  predicate Complete(e: Event) { e.id != "" && e.origin != "" && e.originEpoch > 0 }

  /** A digest on the event is that of its body. */
  predicate Sealed(cfg: Config, e: Event) { e.seal == "" || e.seal == cfg.seal(e.body) }

  predicate Stageable(p: Process, e: Event)
    requires p.Up?
  {
    Complete(e) && Sealed(p.cfg, e) && !Seen(p.window, e) && e.at > p.st.watermark && |p.pending| < p.cfg.bounds.maxBatchEvents
  }

  function Released(pending: seq<Event>, upto: nat): seq<Event> {
    if pending == [] then []
    else
      var n := |pending| - 1;
      Released(pending[..n], upto) + (if pending[n].at <= upto then [pending[n]] else [])
  }

  function Retained(pending: seq<Event>, upto: nat): seq<Event> {
    if pending == [] then []
    else
      var n := |pending| - 1;
      Retained(pending[..n], upto) + (if pending[n].at <= upto then [] else [pending[n]])
  }

  function Tokens(st: RuntimeState): set<Token> {
    set i, k | i in st.instances && 0 <= k < |i.attempts| :: i.attempts[k].fence
  }

  predicate Enabled(s: System, a: Action) {
    if a.Open? then s.process.Down? && Opens(a.cfg, s.disk)
    else if a.Reject? then s.process.Down? && Rejects(a.cfg, s.disk)
    else
      && s.process.Up?
      && var p := s.process;
      match a
      case Stage(e) => p.phase.Idle? && Stageable(p, e)
      case Begin(_) => p.phase.Idle?
      case Skip => p.phase.Ready? && p.phase.queue != [] && Seen(p.window, p.phase.queue[0])
      case Refuse => (p.phase.Ready? || p.phase.Renamed? || p.phase.Rotated?) && p.phase.queue != []
      case Rename => p.phase.Ready? && p.phase.queue != [] && !Seen(p.window, p.phase.queue[0])
      case Truncate => p.phase.Renamed?
      case Append => (p.phase.Ready? || p.phase.Rotated?) && p.phase.queue != [] && !Seen(p.window, p.phase.queue[0])
      case Take => p.phase.Logged? && p.phase.queue != []
      case Finish => p.phase == Ready([])
      case Swap => p.phase.Idle? || p.phase.Opening?
      case SwapDone => p.phase.Swapped?
      case SwapFailed => p.phase.Swapped? && !p.phase.opening
      case Crash => true
  }

  /** The snapshot file is replaced; the journal still holds everything. */
  function Saved(disk: Disk, p: Process): Disk
    requires p.Up?
  {
    disk.(snapshot := Some(Snapshot(p.st, p.log)), base := |disk.journal|)
  }

  function Emptied(disk: Disk): Disk { disk.(journal := [], base := 0) }

  function Started(s: System, upto: nat): System
    requires s.process.Up?
  {
    var p := s.process;
    s.(process := p.(pending := Retained(p.pending, upto), phase := Ready(Sort(Released(p.pending, upto), EventLess))))
  }

  predicate HasQueue(p: Process) {
    p.Up? && (p.phase.Ready? || p.phase.Renamed? || p.phase.Rotated? || p.phase.Logged?) && p.phase.queue != []
  }

  function Passed(s: System): System
    requires HasQueue(s.process)
  {
    s.(process := s.process.(phase := Ready(s.process.phase.queue[1..])))
  }

  function Appended(s: System): System
    requires HasQueue(s.process)
  {
    var p := s.process;
    s.(disk := s.disk.(journal := s.disk.journal + [p.phase.queue[0]]),
       process := p.(st := p.st.(journaled := p.st.journaled + 1), log := p.log + [p.phase.queue[0]],
                     phase := Logged(p.phase.queue)))
  }

  /** The journaled event has been applied and led to `st`. */
  function Taken(s: System, st: RuntimeState): System
    requires HasQueue(s.process)
  {
    var p := s.process;
    var e := p.phase.queue[0];
    s.(process := p.(st := st, window := Pushed(p.window, p.cfg.bounds.maxWindow, ReceiptOf(p.cfg, e)),
                     phase := Ready(p.phase.queue[1..]), life := p.life + [e]))
  }

  function SavedAs(s: System, phase: Phase): System
    requires s.process.Up?
  {
    s.(disk := Saved(s.disk, s.process), process := s.process.(phase := phase))
  }

  function EmptiedAs(s: System, phase: Phase): System
    requires s.process.Up?
  {
    s.(disk := Emptied(s.disk), process := s.process.(st := s.process.st.(journaled := 0), phase := phase))
  }

  function Crashed(s: System): System
    requires s.process.Up?
  {
    s.(process := Down, spent := if Serves(s.process.phase) then s.spent + Tokens(s.process.st) else s.spent)
  }

  function Effect(s: System, a: Action): System
    requires Enabled(s, a)
  {
    var p := s.process;
    match a
    case Open(cfg) => s.(process := Recovered(cfg, s.disk), top := Max(s.top, cfg.boot))
    case Stage(e) => s.(process := p.(pending := p.pending + [e]))
    case Begin(upto) => Started(s, upto)
    case Skip => Passed(s)
    case Refuse => Passed(s)
    case Rename => SavedAs(s, Renamed(p.phase.queue))
    case Truncate => EmptiedAs(s, Rotated(p.phase.queue))
    case Append => Appended(s)
    case Take => Taken(s, Commit(p.cfg, p.st, p.phase.queue[0]))
    case Finish => s.(process := p.(st := RefreshHealth(p.st), phase := Idle))
    case Swap => SavedAs(s, Swapped(p.phase.Opening?))
    case SwapDone => EmptiedAs(s, Idle)
    case SwapFailed => s.(process := p.(phase := Idle))
    case Crash => Crashed(s)
    case Reject(cfg, saves, empties) => s.(disk := Wrecked(cfg, s.disk, saves, empties), top := Max(s.top, cfg.boot))
  }

  /** Past recovery: the phases in which callers have the runtime. */
  predicate Serves(phase: Phase) { !phase.Opening? && phase != Swapped(true) }

  function Act(s: System, a: Action): System { if Enabled(s, a) then Effect(s, a) else s }

  /** A run: any sequence of actions from the empty store. */
  function Exec(acts: seq<Action>): System {
    if acts == [] then START else Act(Exec(acts[..|acts| - 1]), acts[|acts| - 1])
  }
}
