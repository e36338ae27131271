/**
 Hot reconfiguration as a step system: any number of admin tasks around one mutex-guarded
 config, any number of lock-free readers of the two router slots, and an environment that
 publishes health, closes watch channels and edits the config file.
 Each step is one stretch of code between two points where another task can be seen.
 */
module Protocol {
  import opened Wrappers
  import opened Configs
  import opened Register
  import opened Health

  type TaskId = nat
  type ReaderId = nat

  /**
   A router as its watch channel and its owner see it. `version` counts the published health
   maps, `installs` and `stopCalls` count stores into a slot and calls of `stop`; `knownAt` is
   the version that cleared the last Unknown.
   */
  datatype Router = Router(
    view: View,
    health: seq<TargetState>,
    version: nat,
    closed: bool,
    installs: nat,
    stopCalls: nat,
    stopped: bool,
    knownAt: Option<nat>)

  /** Where `update_router` stands with the slot it is working on */
  datatype Stage =
    | Start                                               // enabled list in hand, nothing built
    | Built(made: RouterId)                              // router created, not yet subscribed to
    | Waiting(made: RouterId, from: nat, seen: nat)      // in wait_healthchecks, subscribed at version `from`
    | Ready(next: Option<RouterId>)                        // may be installed
    | Loaded(next: Option<RouterId>, prev: Option<RouterId>)
    | Retiring(gone: RouterId)                            // replaced, `stop` not yet called
    | Stopping(gone: RouterId)                            // awaiting `stop`
    | Finished                                            // both slots done, guard still held

  /** What an apply works from: the two enabled lists it filters out of the config before anything else */
  datatype Plan = Plan(cfg: Config, main: Option<View>, fallback: Option<View>)

  function PlanOf(cfg: Config): Plan {
    Plan(cfg, SlotView(cfg, Main), SlotView(cfg, Fallback))
  }

  function Wanted(p: Plan, slot: Slot): Option<View> {
    match slot
    case Main => p.main
    case Fallback => p.fallback
  }

  /** An apply: its plan, the slot in work, and whether to persist afterwards */
  datatype Apply = Apply(plan: Plan, slot: Slot, stage: Stage, persist: bool)

  datatype Lock = Free | Held(owner: TaskId, apply: Apply)

  /** What an admin task asks for */
  datatype Op =
    | SetConfig(cfg: Config)
    | ConfigPut(cfg: Config)     // set_config, then persist_config
    | LoadConfig
    | SetBackendState(toggle: Toggle)
    | GetConfig
    | PersistConfig

  /** What a task waits for the mutex to do */
  datatype Request = Write(cfg: Config, persist: bool) | Flip(toggle: Toggle) | Fetch | Snapshot

  /** An admin task; `at` is the place in the log of the last lock acquisition it relies on */
  datatype Task =
    | Reading
    | Locking(request: Request)
    | Applying(at: nat)
    | Writing(snapshot: Config, at: nat)
    | Succeeded(result: Option<Config>, at: nat)
    | Failed(applied: bool)         // `applied`: the config went in, only writing the file failed
    | Cancelled
    | Detached(snapshot: Config, at: nat)  // dropped while a write it had handed to the blocking pool was under way

  /** A call of get_backend_router; `since` is the moment it began */
  datatype Reader =
    | Called(since: nat)
    | MainLoaded(since: nat, main: Option<RouterId>)
    | MainRejected(since: nat, main: Option<RouterId>)
    | ReturnedMain(since: nat, router: RouterId)
    | ReturnedFallback(since: nat, result: Option<RouterId>)

  /** The config file; text that parses is identified with the config it parses to. */
  datatype File = Absent | Unparsable | Holds(cfg: Config)

  datatype Entry = Entry(task: TaskId, event: Event)

  /** The BackendManager: the guarded config, the two slots, and every router ever built */
  datatype Manager = Manager(
    config: Config,
    lock: Lock,
    main: Option<RouterId>,
    fallback: Option<RouterId>,
    routers: seq<Router>,
    // for specification only
    history: seq<Plan>,       // every value the config has had
    torn: bool,               // an apply was dropped before both slots were stored, none completed since
    leaked: set<RouterId>)    // routers whose apply was dropped while it was starting or stopping them

  datatype State = State(
    mgr: Manager,
    tasks: map<TaskId, Task>,
    readers: map<ReaderId, Reader>,
    file: File,
    // for specification only
    log: seq<Entry>,          // one entry for each time the mutex was taken
    now: nat)                 // steps taken

  /** What an admin task does next */
  datatype Act = Spawn(op: Op) | ReadFile | Acquire | WriteFile(ok: bool) | Cancel

  /** What the apply of the lock holder does next */
  datatype Move = Build | Subscribe | Observe | HangUp | Load | Store | CallStop | FinishStop

  /** What a reader does next */
  datatype Look = Begin | LoadMain | TestMain | LoadFallback

  /** What happens around the process */
  datatype Change =
    | Publish(router: RouterId, health: seq<TargetState>)
    | CloseWatch(router: RouterId)
    | EditFile(file: File)

  datatype Step =
    | Admin(task: TaskId, act: Act)
    | Advance(move: Move)
    | Release
    | Read(reader: ReaderId, look: Look)
    | Around(change: Change)

  function Init(file: File): State {
    State(Manager(DEFAULT_CONFIG, Free, None, None, [], [Plan(DEFAULT_CONFIG, None, None)], false, {}),
          map[], map[], file, [], 0)
  }

  // ----- reading the state

  function InSlot(m: Manager, slot: Slot): Option<RouterId> {
    match slot
    case Main => m.main
    case Fallback => m.fallback
  }

  function WithSlot(m: Manager, slot: Slot, r: Option<RouterId>): Manager {
    match slot
    case Main => m.(main := r)
    case Fallback => m.(fallback := r)
  }

  /** get_healthy() is not empty. */
  predicate HasHealthy(m: Manager, r: RouterId) {
    r < |m.routers| && exists i :: 0 <= i < |m.routers[r].health| && m.routers[r].health[i] == Healthy
  }

  /** Known states never revert; a published map covers the same targets. */
  predicate Evolves(before: seq<TargetState>, after: seq<TargetState>) {
    |before| == |after| && forall i :: 0 <= i < |after| ==> before[i] != Unknown ==> after[i] != Unknown
  }

  function AtStage(m: Manager, stage: Stage): Manager
    requires m.lock.Held?
  {
    m.(lock := Held(m.lock.owner, m.lock.apply.(stage := stage)))
  }

  function WithTask(s: State, t: TaskId, task: Task): State {
    s.(tasks := s.tasks[t := task])
  }

  function Logged(s: State, t: TaskId, e: Event): State {
    s.(log := s.log + [Entry(t, e)])
  }

  function NewRouter(view: View): Router {
    Router(view, seq(|view.targets|, _ => Unknown), 0, false, 0, 0, false, None)
  }

  // ----- admin tasks

  /** set_config checks the names before it waits for the lock. */
  function AskToWrite(cfg: Config, persist: bool): Task {
    if Accepts(cfg) then Locking(Write(cfg, persist)) else Failed(false)
  }

  function FirstTask(op: Op): Task {
    match op
    case SetConfig(cfg) => AskToWrite(cfg, false)
    case ConfigPut(cfg) => AskToWrite(cfg, true)
    case LoadConfig => Reading
    case SetBackendState(toggle) => Locking(Flip(toggle))
    case GetConfig => Locking(Fetch)
    case PersistConfig => Locking(Snapshot)
  }

  function AfterRead(file: File): Task {
    match file
    case Holds(cfg) => AskToWrite(cfg, false)
    case _ => Failed(false)
  }

  /** The config is replaced and the apply started, all before the next await. */
  function StartApply(m: Manager, t: TaskId, cfg: Config, persist: bool): Manager {
    m.(config := cfg, history := m.history + [PlanOf(cfg)], lock := Held(t, Apply(PlanOf(cfg), Main, Start, persist)))
  }

  function Acquired(s: State, t: TaskId, request: Request): State {
    match request
    case Write(cfg, persist) =>
      Logged(WithTask(s, t, Applying(|s.log|)), t, Wrote(cfg)).(mgr := StartApply(s.mgr, t, cfg, persist))
    case Flip(toggle) =>
      (match Toggled(s.mgr.config, toggle)
       case None => Logged(WithTask(s, t, Failed(false)), t, Missed(toggle))
       case Some(cfg) =>
         Logged(WithTask(s, t, Applying(|s.log|)), t, Flipped(toggle)).(mgr := StartApply(s.mgr, t, cfg, false)))
    case Fetch => Logged(WithTask(s, t, Succeeded(Some(s.mgr.config), |s.log|)), t, Saw(s.mgr.config))
    case Snapshot => Logged(WithTask(s, t, Writing(s.mgr.config, |s.log|)), t, Saw(s.mgr.config))
  }

  function DoWriteFile(s: State, t: TaskId, ok: bool): State
    requires t in s.tasks && (s.tasks[t].Writing? || s.tasks[t].Detached?)
  {
    var w := s.tasks[t];
    var s' := WithTask(s, t, if w.Detached? then Cancelled else if ok then Succeeded(None, w.at) else Failed(true));
    if ok then s'.(file := Holds(w.snapshot)) else s'
  }

  /** A future can be dropped only where it awaits. */
  predicate Awaits(s: State, t: TaskId)
    requires t in s.tasks
  {
    match s.tasks[t]
    case Reading => true
    case Locking(_) => true
    case Writing(_, _) => true
    case Applying(_) => s.mgr.lock.Held? && (s.mgr.lock.apply.stage.Waiting? || s.mgr.lock.apply.stage.Stopping?)
    case _ => false
  }

  predicate BothStored(a: Apply) {
    a.slot == Fallback && (a.stage.Retiring? || a.stage.Stopping? || a.stage.Finished?)
  }

  /** Dropping an apply releases the guard and leaves the router it was awaiting to itself. */
  function DropApply(m: Manager): Manager
    requires m.lock.Held? && (m.lock.apply.stage.Waiting? || m.lock.apply.stage.Stopping?)
  {
    var stage := m.lock.apply.stage;
    m.(lock := Free, torn := !BothStored(m.lock.apply),
       leaked := m.leaked + {if stage.Waiting? then stage.made else stage.gone})
  }

  function Dropped(s: State, t: TaskId): State
    requires t in s.tasks && Awaits(s, t)
  {
    match s.tasks[t]
    case Applying(_) => WithTask(s, t, Cancelled).(mgr := DropApply(s.mgr))
    case Writing(snapshot, at) => WithTask(s, t, Detached(snapshot, at))
    case _ => WithTask(s, t, Cancelled)
  }

  // ----- the apply

  /** The old router of this slot is gone: take the fallback slot next, or finish. */
  function SlotDone(m: Manager): Manager
    requires m.lock.Held?
  {
    if m.lock.apply.slot == Main
    then m.(lock := Held(m.lock.owner, m.lock.apply.(slot := Fallback, stage := Start)))
    else AtStage(m, Finished)
  }

  /** No router is built for an empty list. */
  function DoBuild(m: Manager): Manager
    requires m.lock.Held?
  {
    match Wanted(m.lock.apply.plan, m.lock.apply.slot)
    case None => AtStage(m, Ready(None))
    case Some(view) => AtStage(m, Built(|m.routers|)).(routers := m.routers + [NewRouter(view)])
  }

  function DoSubscribe(m: Manager): Manager
    requires m.lock.Held? && m.lock.apply.stage.Built? && m.lock.apply.stage.made < |m.routers|
  {
    var r := m.lock.apply.stage.made;
    AtStage(m, Waiting(r, m.routers[r].version, m.routers[r].version))
  }

  function DoObserve(m: Manager): Manager
    requires m.lock.Held? && m.lock.apply.stage.Waiting? && m.lock.apply.stage.made < |m.routers|
  {
    var w := m.lock.apply.stage;
    var r := m.routers[w.made];
    AtStage(m, if AllKnown(r.health) then Ready(Some(w.made)) else w.(seen := r.version))
  }

  function DoLoad(m: Manager): Manager
    requires m.lock.Held? && m.lock.apply.stage.Ready?
  {
    AtStage(m, Loaded(m.lock.apply.stage.next, InSlot(m, m.lock.apply.slot)))
  }

  function Installed(routers: seq<Router>, r: Option<RouterId>): seq<Router>
    requires r.Some? ==> r.value < |routers|
  {
    if r.None? then routers else routers[r.value := routers[r.value].(installs := routers[r.value].installs + 1)]
  }

  function DoStore(m: Manager): Manager
    requires m.lock.Held? && m.lock.apply.stage.Loaded?
    requires m.lock.apply.stage.next.Some? ==> m.lock.apply.stage.next.value < |m.routers|
  {
    var l := m.lock.apply.stage;
    var m' := WithSlot(m, m.lock.apply.slot, l.next).(routers := Installed(m.routers, l.next));
    match l.prev
    case Some(p) => AtStage(m', Retiring(p))
    case None => SlotDone(m')
  }

  function DoCallStop(m: Manager): Manager
    requires m.lock.Held? && m.lock.apply.stage.Retiring? && m.lock.apply.stage.gone < |m.routers|
  {
    var r := m.lock.apply.stage.gone;
    AtStage(m, Stopping(r)).(routers := m.routers[r := m.routers[r].(stopCalls := m.routers[r].stopCalls + 1)])
  }

  function DoFinishStop(m: Manager): Manager
    requires m.lock.Held? && m.lock.apply.stage.Stopping? && m.lock.apply.stage.gone < |m.routers|
  {
    var r := m.lock.apply.stage.gone;
    SlotDone(m).(routers := m.routers[r := m.routers[r].(stopped := true)])
  }

  /** config_put goes on to persist_config, every other apply ends its task. */
  function DoRelease(s: State): State
    requires s.mgr.lock.Held? && s.mgr.lock.owner in s.tasks && s.tasks[s.mgr.lock.owner].Applying?
  {
    var t := s.mgr.lock.owner;
    WithTask(s, t, if s.mgr.lock.apply.persist then Locking(Snapshot) else Succeeded(None, s.tasks[t].at))
      .(mgr := s.mgr.(lock := Free, torn := false))
  }

  // ----- readers

  function DoTestMain(m: Manager, rd: Reader): Reader
    requires rd.MainLoaded?
  {
    if rd.main.Some? && HasHealthy(m, rd.main.value)
    then ReturnedMain(rd.since, rd.main.value)
    else MainRejected(rd.since, rd.main)
  }

  // ----- environment

  function DoPublish(m: Manager, r: RouterId, health: seq<TargetState>): Manager
    requires r < |m.routers|
  {
    var o := m.routers[r];
    var known := if o.knownAt.None? && AllKnown(health) then Some(o.version + 1) else o.knownAt;
    m.(routers := m.routers[r := o.(health := health, version := o.version + 1, knownAt := known)])
  }

  function DoCloseWatch(m: Manager, r: RouterId): Manager
    requires r < |m.routers|
  {
    m.(routers := m.routers[r := m.routers[r].(closed := true)])
  }

  // ----- all steps

  predicate CanAct(s: State, t: TaskId, act: Act) {
    match act
    case Spawn(_) => t !in s.tasks
    case ReadFile => t in s.tasks && s.tasks[t].Reading?
    case Acquire => t in s.tasks && s.tasks[t].Locking? && s.mgr.lock.Free?
    case WriteFile(_) => t in s.tasks && (s.tasks[t].Writing? || s.tasks[t].Detached?)
    case Cancel => t in s.tasks && Awaits(s, t)
  }

  function Acted(s: State, t: TaskId, act: Act): State
    requires CanAct(s, t, act)
  {
    match act
    case Spawn(op) => WithTask(s, t, FirstTask(op))
    case ReadFile => WithTask(s, t, AfterRead(s.file))
    case Acquire => Acquired(s, t, s.tasks[t].request)
    case WriteFile(ok) => DoWriteFile(s, t, ok)
    case Cancel => Dropped(s, t)
  }

  predicate CanMove(m: Manager, move: Move) {
    && m.lock.Held?
    && var stage := m.lock.apply.stage;
    match move
    case Build => stage.Start?
    case Subscribe => stage.Built? && stage.made < |m.routers|
    case Observe => // changed() answers Ok when the version differs from the one last seen
      stage.Waiting? && stage.made < |m.routers| && m.routers[stage.made].version != stage.seen
    case HangUp => // changed() answers Err when nothing is unseen and the sender is gone
      && stage.Waiting? && stage.made < |m.routers|
      && m.routers[stage.made].version == stage.seen && m.routers[stage.made].closed
    case Load => stage.Ready?
    case Store => stage.Loaded? && (stage.next.Some? ==> stage.next.value < |m.routers|)
    case CallStop => stage.Retiring? && stage.gone < |m.routers|
    case FinishStop => stage.Stopping? && stage.gone < |m.routers|
  }

  function Moved(m: Manager, move: Move): Manager
    requires CanMove(m, move)
  {
    match move
    case Build => DoBuild(m)
    case Subscribe => DoSubscribe(m)
    case Observe => DoObserve(m)
    case HangUp => AtStage(m, Ready(Some(m.lock.apply.stage.made)))
    case Load => DoLoad(m)
    case Store => DoStore(m)
    case CallStop => DoCallStop(m)
    case FinishStop => DoFinishStop(m)
  }

  predicate CanRelease(s: State) {
    && s.mgr.lock.Held? && s.mgr.lock.apply.stage.Finished?
    && s.mgr.lock.owner in s.tasks && s.tasks[s.mgr.lock.owner].Applying?
  }

  predicate CanLook(s: State, x: ReaderId, look: Look) {
    match look
    case Begin => x !in s.readers
    case LoadMain => x in s.readers && s.readers[x].Called?
    case TestMain => x in s.readers && s.readers[x].MainLoaded?
    case LoadFallback => x in s.readers && s.readers[x].MainRejected?
  }

  function Looked(s: State, x: ReaderId, look: Look): Reader
    requires CanLook(s, x, look)
  {
    match look
    case Begin => Called(s.now)
    case LoadMain => MainLoaded(s.readers[x].since, s.mgr.main)
    case TestMain => DoTestMain(s.mgr, s.readers[x])
    case LoadFallback => ReturnedFallback(s.readers[x].since, s.mgr.fallback)
  }

  predicate CanChange(s: State, change: Change) {
    match change
    case Publish(r, health) =>
      r < |s.mgr.routers| && !s.mgr.routers[r].closed && Evolves(s.mgr.routers[r].health, health)
    case CloseWatch(r) => r < |s.mgr.routers|
    case EditFile(_) => true
  }

  function Changed(s: State, change: Change): State
    requires CanChange(s, change)
  {
    match change
    case Publish(r, health) => s.(mgr := DoPublish(s.mgr, r, health))
    case CloseWatch(r) => s.(mgr := DoCloseWatch(s.mgr, r))
    case EditFile(file) => s.(file := file)
  }

  predicate CanTake(s: State, step: Step) {
    match step
    case Admin(t, act) => CanAct(s, t, act)
    case Advance(move) => CanMove(s.mgr, move)
    case Release => CanRelease(s)
    case Read(x, look) => CanLook(s, x, look)
    case Around(change) => CanChange(s, change)
  }

  function Do(s: State, step: Step): State
    requires CanTake(s, step)
  {
    match step
    case Admin(t, act) => Acted(s, t, act)
    case Advance(move) => s.(mgr := Moved(s.mgr, move))
    case Release => DoRelease(s)
    case Read(x, look) => s.(readers := s.readers[x := Looked(s, x, look)])
    case Around(change) => Changed(s, change)
  }

  ghost predicate Next(s: State, step: Step, s': State) {
    CanTake(s, step) && s' == Do(s, step).(now := s.now + 1)
  }

  ghost predicate NextAt(states: seq<State>, steps: seq<Step>, i: nat) {
    i < |steps| < |states| && Next(states[i], steps[i], states[i + 1])
  }

  /** A run: `states[0]` is initial and each step leads to the next state. */
  ghost predicate IsRun(states: seq<State>, steps: seq<Step>) {
    && |states| == |steps| + 1
    && states[0] == Init(states[0].file)
    && forall i :: 0 <= i < |steps| ==> NextAt(states, steps, i)
  }
}
