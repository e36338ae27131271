/** The whole state: tasks, log and file around the manager. Every step keeps the invariant. */
module ProtocolInvariant {
  import opened Wrappers
  import opened Configs
  import opened Register
  import opened Protocol
  import opened ManagerInvariant

  function Events(log: seq<Entry>): (es: seq<Event>)
    ensures |es| == |log|
  {
    seq(|log|, i requires 0 <= i < |log| => log[i].event)
  }

  /** The config is what a sequential register holds after the log. */
  ghost predicate LogOk(s: State) {
    Legal(Events(s.log)) && After(Events(s.log)) == s.mgr.config
  }

  ghost predicate LoggedAt(s: State, t: TaskId, at: nat) {
    at < |s.log| && s.log[at].task == t
  }

  /** `cfg` is what the config was found to be at that place in the log. */
  ghost predicate SnapshotAt(s: State, at: nat, cfg: Config) {
    at < |s.log| && s.log[at].event == Saw(cfg) && WasCurrent(s.mgr, cfg)
  }

  /** No lock acquisition of this admin task has changed the config. */
  ghost predicate Silent(s: State, t: TaskId) {
    forall n :: 0 <= n < |s.log| && s.log[n].task == t ==> !s.log[n].event.Wrote? && !s.log[n].event.Flipped?
  }

  ghost predicate TaskOk(s: State, t: TaskId, task: Task) {
    match task
    case Reading => Silent(s, t)
    case Locking(request) =>
      (request.Write? ==> UniqueNames(request.cfg)) && (!request.Snapshot? ==> Silent(s, t))
    case Failed(applied) => !applied ==> Silent(s, t)
    case Applying(at) => LoggedAt(s, t, at) && s.mgr.lock.Held? && s.mgr.lock.owner == t
    case Writing(snapshot, at) =>
      LoggedAt(s, t, at) && SnapshotAt(s, at, snapshot)
    case Succeeded(result, at) =>
      LoggedAt(s, t, at) && (result.Some? ==> SnapshotAt(s, at, result.value))
    case Detached(snapshot, at) => SnapshotAt(s, at, snapshot)
    case _ => true
  }

  /** What a task remembers of its lock acquisition is in the log, and only the owner is applying. */
  ghost predicate TasksOk(s: State) {
    && (forall t :: t in s.tasks ==> TaskOk(s, t, s.tasks[t]))
    && (s.mgr.lock.Held? ==> s.mgr.lock.owner in s.tasks && s.tasks[s.mgr.lock.owner].Applying?)
  }

  ghost predicate EntriesOk(s: State) {
    forall i :: 0 <= i < |s.log| ==> s.log[i].task in s.tasks
  }

  ghost predicate Inv(s: State) {
    MgrInv(s.mgr) && LogOk(s) && TasksOk(s) && EntriesOk(s)
  }

  lemma DefaultPlan()
    ensures PlanOf(DEFAULT_CONFIG) == Plan(DEFAULT_CONFIG, None, None) && UniqueNames(DEFAULT_CONFIG)
  {
    assert Enabled([]) == [];
  }

  lemma InitMgrOk(m: Manager, p: Plan)
    requires m == Manager(DEFAULT_CONFIG, Free, None, None, [], [p], false, {})
    requires p == Plan(DEFAULT_CONFIG, None, None)
    ensures SlotsOk(m) && HolderOk(m) && LivesOk(m) && GateOk(m)
  {
    assert p in m.history && HeldView(m, Main) == Wanted(p, Main) && HeldView(m, Fallback) == Wanted(p, Fallback);
  }

  lemma InitHistory(m: Manager)
    requires m.config == DEFAULT_CONFIG && m.history == [Plan(DEFAULT_CONFIG, None, None)]
    ensures HistoryOk(m)
  {
    DefaultPlan();
  }

  lemma InitOk(file: File)
    ensures Inv(Init(file))
  {
    var s := Init(file);
    InitMgrOk(s.mgr, Plan(DEFAULT_CONFIG, None, None));
    InitHistory(s.mgr);
    assert Events([]) == [];
  }

  // ----- growing the log and the history

  lemma WasCurrentKept(m: Manager, m': Manager, cfg: Config)
    requires WasCurrent(m, cfg) && m.history <= m'.history
    ensures WasCurrent(m', cfg)
  {
    var p :| p in m.history && p.cfg == cfg;
    assert p in m'.history;
  }

  lemma CurrentWasCurrent(m: Manager)
    requires HistoryOk(m)
    ensures WasCurrent(m, m.config) && UniqueNames(m.config)
  {
    assert Current(m) in m.history && Planned(Current(m));
  }

  /** The state after has all the past of the state before. */
  ghost predicate Grows(s: State, s': State) {
    s.log <= s'.log && s.mgr.history <= s'.mgr.history
  }

  lemma TaskKept(s: State, s': State, t: TaskId, task: Task)
    requires TaskOk(s, t, task) && Grows(s, s')
    requires task.Applying? ==> s'.mgr.lock.Held? && s'.mgr.lock.owner == t
    requires forall n :: |s.log| <= n < |s'.log| ==> s'.log[n].task != t
    ensures TaskOk(s', t, task)
  {
    assert Silent(s, t) ==> Silent(s', t) by {
      forall n | 0 <= n < |s.log| ensures s'.log[n] == s.log[n] {
      }
    }
    match task
    case Writing(snapshot, _) => WasCurrentKept(s.mgr, s'.mgr, snapshot);
    case Succeeded(result, _) => if result.Some? { WasCurrentKept(s.mgr, s'.mgr, result.value); }
    case Detached(snapshot, _) => WasCurrentKept(s.mgr, s'.mgr, snapshot);
    case _ =>
  }

  lemma LogSnoc(s: State, s': State, e: Entry)
    requires LogOk(s) && s'.log == s.log + [e]
    requires Answers(s.mgr.config, e.event) && s'.mgr.config == Effect(s.mgr.config, e.event)
    ensures LogOk(s')
  {
    assert Events(s'.log) == Events(s.log) + [e.event];
    AfterSnoc(Events(s.log), e.event);
    LegalSnoc(Events(s.log), e.event);
  }

  // ----- one task moves, or the holder does

  /** Task t moved to a good state; the lock stayed, or t is the one that took it or gave it up. */
  lemma MovedTask(s: State, s': State, t: TaskId)
    requires TasksOk(s) && EntriesOk(s) && Grows(s, s')
    requires t in s'.tasks && s'.tasks == s.tasks[t := s'.tasks[t]] && TaskOk(s', t, s'.tasks[t])
    requires s.mgr.lock.Held? && s.mgr.lock.owner != t ==>
               s'.mgr.lock.Held? && s'.mgr.lock.owner == s.mgr.lock.owner
    requires s'.mgr.lock.Held? && s'.mgr.lock.owner != t ==>
               s'.mgr.lock.owner in s.tasks && s.tasks[s'.mgr.lock.owner].Applying?
    requires s'.mgr.lock.Held? && s'.mgr.lock.owner == t ==> s'.tasks[t].Applying?
    requires forall i :: |s.log| <= i < |s'.log| ==> s'.log[i].task == t
    ensures TasksOk(s') && EntriesOk(s')
  {
    forall u | u in s'.tasks ensures TaskOk(s', u, s'.tasks[u]) {
      if u != t {
        TaskKept(s, s', u, s.tasks[u]);
      }
    }
    forall i | 0 <= i < |s'.log| ensures s'.log[i].task in s'.tasks {
      if i < |s.log| { assert s'.log[i] == s.log[i]; }
    }
  }

  /** A step of the holder changes the manager and nothing else. */
  lemma HolderMoved(s: State, m': Manager)
    requires Inv(s) && MgrInv(m')
    requires m'.config == s.mgr.config && m'.history == s.mgr.history
    requires s.mgr.lock.Held? == m'.lock.Held? && (m'.lock.Held? ==> m'.lock.owner == s.mgr.lock.owner)
    ensures Inv(s.(mgr := m'))
  {
    var s' := s.(mgr := m');
    forall t | t in s'.tasks ensures TaskOk(s', t, s'.tasks[t]) {
      TaskKept(s, s', t, s.tasks[t]);
    }
  }

  /** Readers, the clock and outside edits of the file do not matter. */
  lemma AroundMoved(s: State, s': State)
    requires Inv(s)
    requires s' == s.(readers := s'.readers, now := s'.now, file := s'.file)
    ensures Inv(s')
  {
    forall t | t in s'.tasks ensures TaskOk(s', t, s'.tasks[t]) {
      TaskKept(s, s', t, s.tasks[t]);
    }
  }

  // ----- the steps of admin tasks

  lemma SpawnKeeps(s: State, t: TaskId, op: Op)
    requires Inv(s) && t !in s.tasks
    ensures Inv(WithTask(s, t, FirstTask(op)))
  {
    var s' := WithTask(s, t, FirstTask(op));
    if op.SetConfig? || op.ConfigPut? { AcceptsIffNamesDiffer(op.cfg); }
    MovedTask(s, s', t);
  }

  lemma ReadFileKeeps(s: State, t: TaskId)
    requires Inv(s) && t in s.tasks && s.tasks[t].Reading?
    ensures Inv(WithTask(s, t, AfterRead(s.file)))
  {
    var s' := WithTask(s, t, AfterRead(s.file));
    if s.file.Holds? { AcceptsIffNamesDiffer(s.file.cfg); }
    MovedTask(s, s', t);
  }

  lemma WriteFileKeeps(s: State, t: TaskId, ok: bool)
    requires Inv(s) && t in s.tasks && (s.tasks[t].Writing? || s.tasks[t].Detached?)
    ensures Inv(DoWriteFile(s, t, ok))
  {
    assert TaskOk(s, t, s.tasks[t]);
    MovedTask(s, DoWriteFile(s, t, ok), t);
  }

  lemma WriteConfigKeeps(s: State, t: TaskId, cfg: Config, e: Event, persist: bool)
    requires Inv(s) && t in s.tasks && s.tasks[t].Locking? && s.mgr.lock.Free?
    requires UniqueNames(cfg) && Answers(s.mgr.config, e) && Effect(s.mgr.config, e) == cfg
    ensures Inv(Logged(WithTask(s, t, Applying(|s.log|)), t, e).(mgr := StartApply(s.mgr, t, cfg, persist)))
  {
    var s' := Logged(WithTask(s, t, Applying(|s.log|)), t, e).(mgr := StartApply(s.mgr, t, cfg, persist));
    StartApplyKeeps(s.mgr, t, cfg, persist);
    LogSnoc(s, s', Entry(t, e));
    MovedTask(s, s', t);
  }

  lemma LookKeeps(s: State, t: TaskId, e: Event, task: Task)
    requires Inv(s) && t in s.tasks && s.tasks[t].Locking? && s.mgr.lock.Free?
    requires Answers(s.mgr.config, e) && Effect(s.mgr.config, e) == s.mgr.config
    requires TaskOk(Logged(s, t, e), t, task) && !task.Applying?
    ensures Inv(Logged(WithTask(s, t, task), t, e))
  {
    var s' := Logged(WithTask(s, t, task), t, e);
    LogSnoc(s, s', Entry(t, e));
    MovedTask(s, s', t);
  }

  /** A toggle keeps the names, and misses exactly when no main backend has the name. */
  lemma ToggleAnswer(c: Config, t: Toggle)
    requires UniqueNames(c)
    ensures Toggled(c, t).Some? ==> UniqueNames(Toggled(c, t).value) && Answers(c, Flipped(t))
                                    && Effect(c, Flipped(t)) == Toggled(c, t).value
    ensures Toggled(c, t).None? ==> Answers(c, Missed(t))
  {
    if Toggled(c, t).Some? {
      ToggleReplay(c, [t]);
      assert [t][..0] == [];
      assert ToggledAll(c, []) == c;
      assert ToggledAll(c, [t]) == Toggled(c, t).value;
    }
  }

  lemma FlipKeeps(s: State, t: TaskId, toggle: Toggle)
    requires Inv(s) && t in s.tasks && s.tasks[t].Locking? && s.mgr.lock.Free?
    requires UniqueNames(s.mgr.config) && Silent(s, t)
    ensures Inv(Acquired(s, t, Flip(toggle)))
  {
    ToggleAnswer(s.mgr.config, toggle);
    assert Silent(Logged(s, t, Missed(toggle)), t);
    var flipped := Toggled(s.mgr.config, toggle);
    if flipped.None? {
      LookKeeps(s, t, Missed(toggle), Failed(false));
    } else {
      WriteConfigKeeps(s, t, flipped.value, Flipped(toggle), false);
    }
  }

  lemma AcquireKeeps(s: State, t: TaskId)
    requires Inv(s) && t in s.tasks && s.tasks[t].Locking? && s.mgr.lock.Free?
    ensures Inv(Acquired(s, t, s.tasks[t].request))
  {
    var m := s.mgr;
    assert TaskOk(s, t, s.tasks[t]);
    CurrentWasCurrent(m);
    match s.tasks[t].request
    case Write(cfg, persist) => WriteConfigKeeps(s, t, cfg, Wrote(cfg), persist);
    case Flip(toggle) => FlipKeeps(s, t, toggle);
    case Fetch => LookKeeps(s, t, Saw(m.config), Succeeded(Some(m.config), |s.log|));
    case Snapshot => LookKeeps(s, t, Saw(m.config), Writing(m.config, |s.log|));
  }

  lemma CancelKeeps(s: State, t: TaskId)
    requires Inv(s) && t in s.tasks && Awaits(s, t)
    ensures Inv(Dropped(s, t))
  {
    var s' := Dropped(s, t);
    assert TaskOk(s, t, s.tasks[t]);
    if s.tasks[t].Applying? {
      DropApplyKeeps(s.mgr);
    }
    MovedTask(s, s', t);
  }

  lemma ReleaseStepKeeps(s: State)
    requires Inv(s) && s.mgr.lock.Held? && s.mgr.lock.apply.stage.Finished?
    requires s.mgr.lock.owner in s.tasks && s.tasks[s.mgr.lock.owner].Applying?
    ensures Inv(DoRelease(s))
  {
    var t, s' := s.mgr.lock.owner, DoRelease(s);
    assert TaskOk(s, t, s.tasks[t]);
    ReleaseKeeps(s.mgr);
    MovedTask(s, s', t);
  }

  // ----- every step

  lemma ActKeeps(s: State, t: TaskId, act: Act)
    requires Inv(s) && CanAct(s, t, act)
    ensures Inv(Acted(s, t, act))
  {
    match act
    case Spawn(op) => SpawnKeeps(s, t, op);
    case ReadFile => ReadFileKeeps(s, t);
    case Acquire => AcquireKeeps(s, t);
    case WriteFile(ok) => WriteFileKeeps(s, t, ok);
    case Cancel => CancelKeeps(s, t);
  }

  lemma MoveKeepsMgr(m: Manager, move: Move)
    requires MgrInv(m) && CanMove(m, move)
    ensures MgrInv(Moved(m, move))
  {
    match move
    case Build => BuildKeeps(m);
    case Subscribe => SubscribeKeeps(m);
    case Observe => ObserveKeeps(m);
    case HangUp => HangUpKeeps(m);
    case Load => LoadKeeps(m);
    case Store => StoreKeeps(m);
    case CallStop => CallStopKeeps(m);
    case FinishStop => FinishStopKeeps(m);
  }

  /** No move of the holder touches the config, its history or the ownership of the lock. */
  lemma MoveLeaves(m: Manager, move: Move)
    requires CanMove(m, move)
    ensures var m' := Moved(m, move);
            && m'.config == m.config && m'.history == m.history && m'.torn == m.torn && m'.leaked == m.leaked
            && m'.lock.Held? && m'.lock.owner == m.lock.owner && m'.lock.apply.plan == m.lock.apply.plan
            && m'.lock.apply.persist == m.lock.apply.persist
  {
  }

  lemma ChangeKeeps(s: State, change: Change)
    requires Inv(s) && CanChange(s, change)
    ensures Inv(Changed(s, change))
  {
    match change
    case Publish(r, health) => PublishKeeps(s.mgr, r, health); HolderMoved(s, DoPublish(s.mgr, r, health));
    case CloseWatch(r) => CloseWatchKeeps(s.mgr, r); HolderMoved(s, DoCloseWatch(s.mgr, r));
    case EditFile(_) => AroundMoved(s, Changed(s, change));
  }

  lemma StepKeeps(s: State, step: Step)
    requires Inv(s) && CanTake(s, step)
    ensures Inv(Do(s, step))
  {
    match step
    case Admin(t, act) => ActKeeps(s, t, act);
    case Advance(move) =>
      MoveKeepsMgr(s.mgr, move);
      MoveLeaves(s.mgr, move);
      HolderMoved(s, Moved(s.mgr, move));
    case Release => ReleaseStepKeeps(s);
    case Read(x, look) => AroundMoved(s, Do(s, step));
    case Around(change) => ChangeKeeps(s, change);
  }

  lemma NextKeeps(s: State, step: Step, s': State)
    requires Inv(s) && Next(s, step, s')
    ensures Inv(s')
  {
    StepKeeps(s, step);
    AroundMoved(Do(s, step), s');
  }

  /** The invariant holds in every state of every run. */
  lemma {:induction false} RunInv(states: seq<State>, steps: seq<Step>, i: nat)
    requires IsRun(states, steps) && i < |states|
    ensures Inv(states[i])
  {
    if i == 0 {
      RunStart(states, steps);
    } else {
      RunInv(states, steps, i - 1);
      RunKeeps(states, steps, i);
    }
  }

  lemma RunKeeps(states: seq<State>, steps: seq<Step>, i: nat)
    requires IsRun(states, steps) && 0 < i < |states| && Inv(states[i - 1])
    ensures Inv(states[i])
  {
    RunNext(states, steps, i - 1);
    NextKeeps(states[i - 1], steps[i - 1], states[i]);
  }

  lemma RunStart(states: seq<State>, steps: seq<Step>)
    requires IsRun(states, steps)
    ensures Inv(states[0])
  {
    InitOk(states[0].file);
  }

  lemma RunNext(states: seq<State>, steps: seq<Step>, i: nat)
    requires IsRun(states, steps) && i < |steps|
    ensures Next(states[i], steps[i], states[i + 1])
  {
    assert NextAt(states, steps, i);
  }
}
