/** What was asked for, what was done to the config, and what was answered: the operations linearize. */
module ProtocolOperations {
  import opened Wrappers
  import opened Configs
  import opened Register
  import opened Protocol
  import opened ManagerInvariant
  import opened ProtocolInvariant
  import opened ProtocolTheorems

  // ----- the moment of each lock acquisition

  /** The event a request gets from a register that holds `c` */
  function Granted(c: Config, request: Request): Event {
    match request
    case Write(cfg, _) => Wrote(cfg)
    case Flip(toggle) => if Toggled(c, toggle).Some? then Flipped(toggle) else Missed(toggle)
    case Fetch => Saw(c)
    case Snapshot => Saw(c)
  }

  /** The n-th entry was made at step k: its task took the free lock and got what its request gets from the config. */
  ghost predicate MadeAt(states: seq<State>, steps: seq<Step>, entry: Entry, n: nat, k: nat) {
    && k < |steps| < |states| && |states[k].log| == n
    && steps[k] == Admin(entry.task, Acquire)
    && entry.task in states[k].tasks && states[k].tasks[entry.task].Locking?
    && states[k].mgr.lock.Free?
    && entry.event == Granted(states[k].mgr.config, states[k].tasks[entry.task].request)
  }

  lemma LogStep(s: State, step: Step, s': State)
    requires Next(s, step, s')
    ensures s'.log == s.log || (step.Admin? && step.act.Acquire? && |s'.log| == |s.log| + 1 && s.log <= s'.log)
  {
  }

  lemma AcquireEntry(s: State, t: TaskId)
    requires CanAct(s, t, Acquire)
    ensures Acted(s, t, Acquire).log == s.log + [Entry(t, Granted(s.mgr.config, s.tasks[t].request))]
  {
  }

  /** Every log entry has its moment: the step at which its task took the free lock for its request. */
  lemma {:induction false} EntryMoment(states: seq<State>, steps: seq<Step>, i: nat, n: nat)
    requires IsRun(states, steps) && i < |states| && n < |states[i].log|
    ensures exists k :: 0 <= k < i && MadeAt(states, steps, states[i].log[n], n, k)
  {
    if i > 0 {
      var s, step, s' := states[i - 1], steps[i - 1], states[i];
      RunNext(states, steps, i - 1);
      LogStep(s, step, s');
      if n < |s.log| {
        EntryMoment(states, steps, i - 1, n);
        var k :| 0 <= k < i - 1 && MadeAt(states, steps, s.log[n], n, k);
        assert s'.log[n] == s.log[n];
      } else {
        AcquireEntry(s, step.task);
        assert MadeAt(states, steps, s'.log[n], n, i - 1);
      }
    }
  }

  /** In log order the answers are those of a sequential config register, and the config is that register. */
  lemma LogIsRegister(states: seq<State>, steps: seq<Step>, i: nat)
    requires IsRun(states, steps) && i < |states|
    ensures Legal(Events(states[i].log)) && After(Events(states[i].log)) == states[i].mgr.config
  {
    RunInv(states, steps, i);
  }

  // ----- what a task has done, given what it was asked

  /** The events of one task, in log order */
  function EventsOf(log: seq<Entry>, t: TaskId): seq<Event> {
    if log == [] then []
    else EventsOf(log[..|log| - 1], t) + (if log[|log| - 1].task == t then [log[|log| - 1].event] else [])
  }

  lemma EventsOfSnoc(log: seq<Entry>, e: Entry, t: TaskId)
    ensures EventsOf(log + [e], t) == EventsOf(log, t) + (if e.task == t then [e.event] else [])
  {
    assert (log + [e])[..|log|] == log;
  }

  lemma {:induction false} NoEntries(log: seq<Entry>, t: TaskId)
    requires forall n :: 0 <= n < |log| ==> log[n].task != t
    ensures EventsOf(log, t) == []
  {
    if log != [] {
      NoEntries(log[..|log| - 1], t);
    }
  }

  lemma {:induction false} EntryIsEvent(log: seq<Entry>, n: nat)
    requires n < |log|
    ensures log[n].event in EventsOf(log, log[n].task)
  {
    if n < |log| - 1 {
      EntryIsEvent(log[..|log| - 1], n);
    }
  }

  /** The operation is to upload `c`: it was given it, or found it in the file it read. */
  ghost predicate Uploads(op: Op, read: Option<File>, c: Config) {
    op == SetConfig(c) || op == ConfigPut(c) || (op.LoadConfig? && read == Some(Holds(c)))
  }

  /** There is nothing acceptable to upload. */
  ghost predicate Refuses(op: Op, read: Option<File>) {
    match op
    case SetConfig(c) => !UniqueNames(c)
    case ConfigPut(c) => !UniqueNames(c)
    case LoadConfig => read.Some? && (read.value.Holds? ==> !UniqueNames(read.value.cfg))
    case _ => false
  }

  /** The one change the operation asks for, and nothing else */
  ghost predicate ChangedOnce(op: Op, read: Option<File>, es: seq<Event>) {
    && |es| == 1
    && match es[0]
       case Wrote(c) => Uploads(op, read, c)
       case Flipped(toggle) => op == SetBackendState(toggle)
       case _ => false
  }

  /** The snapshot to persist, after the upload where there is one */
  ghost predicate TookSnapshot(op: Op, es: seq<Event>, snapshot: Config) {
    || (op.PersistConfig? && es == [Saw(snapshot)])
    || (op.ConfigPut? && es == [Wrote(op.cfg), Saw(snapshot)])
  }

  ghost predicate EndsInSnapshot(op: Op, es: seq<Event>) {
    es != [] && es[|es| - 1].Saw? && TookSnapshot(op, es, es[|es| - 1].cfg)
  }

  /** What an operation that reports success has done */
  ghost predicate Accomplished(op: Op, read: Option<File>, es: seq<Event>, result: Option<Config>) {
    match op
    case GetConfig => result.Some? && es == [Saw(result.value)]
    case ConfigPut(_) => result.None? && EndsInSnapshot(op, es)
    case PersistConfig => result.None? && EndsInSnapshot(op, es)
    case _ => result.None? && ChangedOnce(op, read, es)
  }

  /** What an operation that reports failure has done; `applied` when only the file write failed */
  ghost predicate CameToNothing(op: Op, read: Option<File>, es: seq<Event>, applied: bool) {
    if applied then EndsInSnapshot(op, es)
    else (Refuses(op, read) && es == []) || (op.SetBackendState? && es == [Missed(op.toggle)])
  }

  ghost predicate RecordedAt(s: State, t: TaskId, at: nat, es: seq<Event>) {
    es != [] && at < |s.log| && s.log[at] == Entry(t, es[|es| - 1])
  }

  /** Where a task stands, whatever it was asked, its events are exactly those its operation calls for so far. */
  ghost predicate Performs(s: State, t: TaskId, op: Op, read: Option<File>) {
    && t in s.tasks
    && var es := EventsOf(s.log, t);
    match s.tasks[t]
    case Reading => op.LoadConfig? && es == []
    case Locking(request) =>
      (match request
       case Write(c, persist) => es == [] && Uploads(op, read, c) && (persist <==> op.ConfigPut?)
       case Flip(toggle) => es == [] && op == SetBackendState(toggle)
       case Fetch => es == [] && op.GetConfig?
       case Snapshot => (op.PersistConfig? && es == []) || (op.ConfigPut? && es == [Wrote(op.cfg)]))
    case Applying(at) =>
      && ChangedOnce(op, read, es) && RecordedAt(s, t, at, es)
      && s.mgr.lock.Held? && (s.mgr.lock.apply.persist <==> op.ConfigPut?)
    case Writing(snapshot, at) => TookSnapshot(op, es, snapshot) && RecordedAt(s, t, at, es)
    case Detached(snapshot, at) => TookSnapshot(op, es, snapshot) && RecordedAt(s, t, at, es)
    case Succeeded(result, at) => Accomplished(op, read, es, result) && RecordedAt(s, t, at, es)
    case Failed(applied) => CameToNothing(op, read, es, applied)
    case Cancelled => es == [] || ChangedOnce(op, read, es) || EndsInSnapshot(op, es)
  }

  /** The task is where it was and has made no entry. */
  lemma PerformsStill(s: State, s': State, t: TaskId, op: Op, read: Option<File>)
    requires Performs(s, t, op, read)
    requires t in s'.tasks && s'.tasks[t] == s.tasks[t] && s.log <= s'.log && EventsOf(s'.log, t) == EventsOf(s.log, t)
    requires s.tasks[t].Applying? ==>
               s.mgr.lock.Held? && s'.mgr.lock.Held? && s'.mgr.lock.apply.persist == s.mgr.lock.apply.persist
    ensures Performs(s', t, op, read)
  {
  }

  lemma PerformsSpawn(s: State, t: TaskId, op: Op)
    requires Inv(s) && t !in s.tasks
    ensures Performs(WithTask(s, t, FirstTask(op)), t, op, None)
  {
    NoEntries(s.log, t);
    if op.SetConfig? || op.ConfigPut? { AcceptsIffNamesDiffer(op.cfg); }
  }

  lemma PerformsRead(s: State, t: TaskId, op: Op)
    requires t in s.tasks && s.tasks[t].Reading? && Performs(s, t, op, None)
    ensures Performs(WithTask(s, t, AfterRead(s.file)), t, op, Some(s.file))
  {
    if s.file.Holds? { AcceptsIffNamesDiffer(s.file.cfg); }
  }

  lemma PerformsAcquire(s: State, t: TaskId, op: Op, read: Option<File>)
    requires t in s.tasks && s.tasks[t].Locking? && Performs(s, t, op, read)
    ensures Performs(Acquired(s, t, s.tasks[t].request), t, op, read)
  {
    match s.tasks[t].request
    case Write(cfg, persist) => PerformsUpload(s, t, cfg, persist, op, read);
    case Flip(toggle) => PerformsFlip(s, t, toggle, op, read);
    case _ => PerformsLook(s, t, op, read);
  }

  lemma PerformsUpload(s: State, t: TaskId, cfg: Config, persist: bool, op: Op, read: Option<File>)
    requires t in s.tasks && s.tasks[t] == Locking(Write(cfg, persist)) && Performs(s, t, op, read)
    ensures Performs(Acquired(s, t, Write(cfg, persist)), t, op, read)
  {
    EventsOfSnoc(s.log, Entry(t, Wrote(cfg)), t);
  }

  lemma PerformsFlip(s: State, t: TaskId, toggle: Toggle, op: Op, read: Option<File>)
    requires t in s.tasks && s.tasks[t] == Locking(Flip(toggle)) && Performs(s, t, op, read)
    ensures Performs(Acquired(s, t, Flip(toggle)), t, op, read)
  {
    EventsOfSnoc(s.log, Entry(t, Flipped(toggle)), t);
    EventsOfSnoc(s.log, Entry(t, Missed(toggle)), t);
  }

  lemma PerformsLook(s: State, t: TaskId, op: Op, read: Option<File>)
    requires t in s.tasks && (s.tasks[t] == Locking(Fetch) || s.tasks[t] == Locking(Snapshot))
    requires Performs(s, t, op, read)
    ensures Performs(Acquired(s, t, s.tasks[t].request), t, op, read)
  {
    EventsOfSnoc(s.log, Entry(t, Saw(s.mgr.config)), t);
  }

  lemma PerformsWrite(s: State, t: TaskId, ok: bool, op: Op, read: Option<File>)
    requires t in s.tasks && (s.tasks[t].Writing? || s.tasks[t].Detached?) && Performs(s, t, op, read)
    ensures Performs(DoWriteFile(s, t, ok), t, op, read)
  {
  }

  lemma PerformsCancel(s: State, t: TaskId, op: Op, read: Option<File>)
    requires t in s.tasks && Awaits(s, t) && Performs(s, t, op, read)
    ensures Performs(Dropped(s, t), t, op, read)
  {
  }

  lemma PerformsRelease(s: State, op: Op, read: Option<File>)
    requires CanRelease(s) && Performs(s, s.mgr.lock.owner, op, read)
    ensures Performs(DoRelease(s), s.mgr.lock.owner, op, read)
  {
  }

  /** The file a load has read once the step is taken */
  function ReadBy(s: State, step: Step, t: TaskId, read: Option<File>): Option<File> {
    if step == Admin(t, ReadFile) then Some(s.file) else read
  }

  lemma PerformsOwnAct(s: State, t: TaskId, act: Act, op: Op, read: Option<File>)
    requires CanAct(s, t, act) && Performs(s, t, op, read)
    requires s.tasks[t].Reading? ==> read == None
    ensures Performs(Acted(s, t, act), t, op, if act.ReadFile? then Some(s.file) else read)
  {
    match act
    case ReadFile => PerformsRead(s, t, op);
    case Acquire => PerformsAcquire(s, t, op, read);
    case WriteFile(ok) => PerformsWrite(s, t, ok, op, read);
    case Cancel => PerformsCancel(s, t, op, read);
  }

  /** A step of anyone else leaves the task and its events alone, and the lock too while it is held by it. */
  lemma OthersLeave(s: State, step: Step, s': State, t: TaskId)
    requires TasksOk(s) && TasksOk(s') && Next(s, step, s') && t in s.tasks
    requires !(step.Admin? && step.task == t) && !(step.Release? && s.mgr.lock.Held? && s.mgr.lock.owner == t)
    ensures t in s'.tasks && s'.tasks[t] == s.tasks[t] && s.log <= s'.log
    ensures EventsOf(s'.log, t) == EventsOf(s.log, t)
    ensures s.tasks[t].Applying? ==>
              s.mgr.lock.Held? && s'.mgr.lock.Held? && s'.mgr.lock.apply.persist == s.mgr.lock.apply.persist
  {
    OthersLeaveTask(s, step, s', t);
    assert TaskOk(s, t, s.tasks[t]) && TaskOk(s', t, s'.tasks[t]);
    if s.tasks[t].Applying? {
      PersistKept(s, step, s');
    }
  }

  lemma PersistKept(s: State, step: Step, s': State)
    requires Next(s, step, s') && s.mgr.lock.Held? && s'.mgr.lock.Held?
    ensures s'.mgr.lock.apply.persist == s.mgr.lock.apply.persist
  {
    if step.Advance? { MoveLeaves(s.mgr, step.move); }
  }

  lemma OthersLeaveTask(s: State, step: Step, s': State, t: TaskId)
    requires Next(s, step, s') && t in s.tasks
    requires !(step.Admin? && step.task == t) && !(step.Release? && s.mgr.lock.Held? && s.mgr.lock.owner == t)
    ensures t in s'.tasks && s'.tasks[t] == s.tasks[t] && s.log <= s'.log
    ensures EventsOf(s'.log, t) == EventsOf(s.log, t)
  {
    match step
    case Admin(u, act) => ActLeavesOthers(s, u, act, t);
    case _ =>
  }

  lemma ActLeavesOthers(s: State, u: TaskId, act: Act, t: TaskId)
    requires CanAct(s, u, act) && t in s.tasks && t != u
    ensures var s' := Acted(s, u, act);
            t in s'.tasks && s'.tasks[t] == s.tasks[t] && s.log <= s'.log && EventsOf(s'.log, t) == EventsOf(s.log, t)
  {
    if act.Acquire? {
      AcquireEntry(s, u);
      EventsOfSnoc(s.log, Entry(u, Granted(s.mgr.config, s.tasks[u].request)), t);
    }
  }

  lemma PerformsStep(s: State, step: Step, s': State, t: TaskId, op: Op, read: Option<File>)
    requires TasksOk(s) && TasksOk(s') && Next(s, step, s') && Performs(s, t, op, read)
    requires s.tasks[t].Reading? ==> read == None
    ensures Performs(s', t, op, ReadBy(s, step, t, read))
  {
    if step.Admin? && step.task == t {
      PerformsOwnStep(s, step, s', t, op, read);
    } else if step.Release? && s.mgr.lock.Held? && s.mgr.lock.owner == t {
      PerformsOwnRelease(s, s', op, read);
    } else {
      PerformsMeanwhile(s, step, s', t, op, read);
    }
  }

  lemma PerformsMeanwhile(s: State, step: Step, s': State, t: TaskId, op: Op, read: Option<File>)
    requires TasksOk(s) && TasksOk(s') && Next(s, step, s') && Performs(s, t, op, read)
    requires !(step.Admin? && step.task == t) && !(step.Release? && s.mgr.lock.Held? && s.mgr.lock.owner == t)
    ensures Performs(s', t, op, read)
  {
    OthersLeave(s, step, s', t);
    PerformsStill(s, s', t, op, read);
  }

  lemma PerformsOwnStep(s: State, step: Step, s': State, t: TaskId, op: Op, read: Option<File>)
    requires Next(s, step, s') && step.Admin? && step.task == t && Performs(s, t, op, read)
    requires s.tasks[t].Reading? ==> read == None
    ensures Performs(s', t, op, ReadBy(s, step, t, read))
  {
    PerformsOwnAct(s, t, step.act, op, read);
    PerformsLater(Acted(s, t, step.act), s', t, op, ReadBy(s, step, t, read));
  }

  lemma PerformsOwnRelease(s: State, s': State, op: Op, read: Option<File>)
    requires Next(s, Release, s') && Performs(s, s.mgr.lock.owner, op, read)
    ensures Performs(s', s.mgr.lock.owner, op, read)
  {
    PerformsRelease(s, op, read);
    PerformsLater(DoRelease(s), s', s.mgr.lock.owner, op, read);
  }

  /** The clock does not matter. */
  lemma PerformsLater(s: State, s': State, t: TaskId, op: Op, read: Option<File>)
    requires Performs(s, t, op, read) && s' == s.(now := s'.now)
    ensures Performs(s', t, op, read)
  {
  }

  // ----- over runs

  ghost predicate SpawnedAt(steps: seq<Step>, k: nat, t: TaskId, op: Op) {
    k < |steps| && steps[k] == Admin(t, Spawn(op))
  }

  /** A load read `file` at step j. */
  ghost predicate ReadAt(states: seq<State>, steps: seq<Step>, j: nat, t: TaskId, file: File) {
    j < |steps| < |states| && steps[j] == Admin(t, ReadFile) && states[j].file == file
  }

  ghost predicate ReadWithin(states: seq<State>, steps: seq<Step>, k: nat, i: nat, t: TaskId, read: Option<File>) {
    read.Some? ==> exists j :: k < j < i && ReadAt(states, steps, j, t, read.value)
  }

  /** At state i the task has done what its operation calls for so far; `read` is the file it has read since. */
  ghost predicate Performing(states: seq<State>, steps: seq<Step>, k: nat, i: nat,
                             t: TaskId, op: Op, read: Option<File>)
  {
    && i < |states| && Performs(states[i], t, op, read)
    && (states[i].tasks[t].Reading? ==> read == None)
    && ReadWithin(states, steps, k, i, t, read)
  }

  /**
   The operations linearize. At every moment after a task was spawned with an operation, the
   register events it has made are exactly the ones that operation calls for: one upload of the
   config it was given or read from the file, one flip of the toggle it was given, the miss it
   reports, the config it returns, the snapshot it writes; and at most one change in all.
   */
  lemma {:induction false} OperationsLinearize(states: seq<State>, steps: seq<Step>, k: nat, i: nat, t: TaskId, op: Op)
    returns (read: Option<File>)
    requires IsRun(states, steps) && SpawnedAt(steps, k, t, op) && k < i < |states|
    ensures Performing(states, steps, k, i, t, op, read)
    decreases i
  {
    if i == k + 1 {
      read := None;
      PerformingFirst(states, steps, k, t, op);
    } else {
      var before := OperationsLinearize(states, steps, k, i - 1, t, op);
      read := PerformingNext(states, steps, k, i, t, op, before);
    }
  }

  lemma PerformingFirst(states: seq<State>, steps: seq<Step>, k: nat, t: TaskId, op: Op)
    requires IsRun(states, steps) && SpawnedAt(steps, k, t, op)
    ensures Performing(states, steps, k, k + 1, t, op, None)
  {
    RunNext(states, steps, k);
    RunInv(states, steps, k);
    StartsPerforming(states[k], states[k + 1], t, op);
  }

  lemma PerformingNext(states: seq<State>, steps: seq<Step>, k: nat, i: nat, t: TaskId, op: Op, before: Option<File>)
    returns (read: Option<File>)
    requires IsRun(states, steps) && k + 1 < i < |states| && Performing(states, steps, k, i - 1, t, op, before)
    ensures Performing(states, steps, k, i, t, op, read)
  {
    read := ReadBy(states[i - 1], steps[i - 1], t, before);
    PerformsAt(states, steps, i, t, op, before);
    ReadExtends(states, steps, k, i, t, before, read);
  }

  lemma PerformsAt(states: seq<State>, steps: seq<Step>, i: nat, t: TaskId, op: Op, read: Option<File>)
    requires IsRun(states, steps) && 0 < i < |states| && Performs(states[i - 1], t, op, read)
    requires states[i - 1].tasks[t].Reading? ==> read == None
    ensures Performs(states[i], t, op, ReadBy(states[i - 1], steps[i - 1], t, read))
    ensures states[i].tasks[t].Reading? ==> ReadBy(states[i - 1], steps[i - 1], t, read) == None
  {
    RunNext(states, steps, i - 1);
    TasksOkAt(states, steps, i - 1);
    TasksOkAt(states, steps, i);
    PerformsNext(states[i - 1], steps[i - 1], states[i], t, op, read);
  }

  lemma TasksOkAt(states: seq<State>, steps: seq<Step>, i: nat)
    requires IsRun(states, steps) && i < |states|
    ensures TasksOk(states[i])
  {
    RunInv(states, steps, i);
  }

  lemma PerformsNext(s: State, step: Step, s': State, t: TaskId, op: Op, read: Option<File>)
    requires TasksOk(s) && TasksOk(s') && Next(s, step, s') && Performs(s, t, op, read)
    requires s.tasks[t].Reading? ==> read == None
    ensures Performs(s', t, op, ReadBy(s, step, t, read))
    ensures s'.tasks[t].Reading? ==> ReadBy(s, step, t, read) == None
  {
    PerformsStep(s, step, s', t, op, read);
    if s'.tasks[t].Reading? { ReadOnce(s, step, s', t); }
  }

  lemma StartsPerforming(s: State, s': State, t: TaskId, op: Op)
    requires Inv(s) && Next(s, Admin(t, Spawn(op)), s')
    ensures Performs(s', t, op, None)
  {
    PerformsSpawn(s, t, op);
    PerformsLater(WithTask(s, t, FirstTask(op)), s', t, op, None);
  }

  /** Nothing goes back to reading. */
  lemma ReadOnce(s: State, step: Step, s': State, t: TaskId)
    requires Next(s, step, s') && t in s.tasks && t in s'.tasks && s'.tasks[t].Reading?
    ensures s.tasks[t].Reading? && step != Admin(t, ReadFile)
  {
  }

  lemma ReadExtends(states: seq<State>, steps: seq<Step>, k: nat, i: nat,
                    t: TaskId, before: Option<File>, read: Option<File>)
    requires k + 1 < i < |states| && |steps| < |states| && i - 1 < |steps|
    requires ReadWithin(states, steps, k, i - 1, t, before)
    requires read == ReadBy(states[i - 1], steps[i - 1], t, before)
    ensures ReadWithin(states, steps, k, i, t, read)
  {
    if read.Some? {
      if steps[i - 1] == Admin(t, ReadFile) {
        assert ReadAt(states, steps, i - 1, t, read.value);
      } else {
        var j :| k < j < i - 1 && ReadAt(states, steps, j, t, read.value);
      }
    }
  }

  function Changes(es: seq<Event>): nat {
    if es == [] then 0 else (if es[0].Wrote? || es[0].Flipped? then 1 else 0) + Changes(es[1..])
  }

  lemma {:induction false} SpawnedBefore(states: seq<State>, steps: seq<Step>, i: nat, t: TaskId)
    returns (k: nat, op: Op)
    requires IsRun(states, steps) && i < |states| && t in states[i].tasks
    ensures k < i && SpawnedAt(steps, k, t, op)
    decreases i
  {
    assert i > 0;
    RunNext(states, steps, i - 1);
    if t in states[i - 1].tasks {
      k, op := SpawnedBefore(states, steps, i - 1, t);
    } else {
      NewTask(states[i - 1], steps[i - 1], states[i], t);
      k, op := i - 1, steps[i - 1].act.op;
    }
  }

  lemma NewTask(s: State, step: Step, s': State, t: TaskId)
    requires Next(s, step, s') && t !in s.tasks && t in s'.tasks
    ensures step.Admin? && step.act.Spawn? && step.task == t
  {
  }

  /** No task of any run changes the config more than once. */
  lemma AtMostOneChange(states: seq<State>, steps: seq<Step>, i: nat, t: TaskId)
    requires IsRun(states, steps) && i < |states| && t in states[i].tasks
    ensures Changes(EventsOf(states[i].log, t)) <= 1
  {
    var k, op := SpawnedBefore(states, steps, i, t);
    var read := OperationsLinearize(states, steps, k, i, t, op);
    PerformsChangesOnce(states[i], t, op, read);
  }

  lemma PerformsChangesOnce(s: State, t: TaskId, op: Op, read: Option<File>)
    requires Performs(s, t, op, read)
    ensures Changes(EventsOf(s.log, t)) <= 1
  {
    var es := EventsOf(s.log, t);
    assert |es| <= 2 && (|es| == 2 ==> es[1].Saw?);
    ChangesOfTwo(es);
  }

  lemma ChangesOfTwo(es: seq<Event>)
    requires |es| <= 2 && (|es| == 2 ==> es[1].Saw?)
    ensures Changes(es) <= 1
  {
    if |es| == 2 {
      assert es[1..] == [es[1]];
      assert Changes(es[1..][1..]) == 0;
      assert Changes(es[1..]) == 0;
    } else if |es| == 1 {
      assert Changes(es[1..]) == 0;
    }
  }

  // ----- every entry was asked for

  /** The event is one the operation calls for; the file of a load is looked at separately. */
  ghost predicate Serves(op: Op, e: Event) {
    match e
    case Wrote(c) => op == SetConfig(c) || op == ConfigPut(c) || op.LoadConfig?
    case Flipped(toggle) => op == SetBackendState(toggle)
    case Missed(toggle) => op == SetBackendState(toggle)
    case Saw(_) => op.GetConfig? || op.PersistConfig? || op.ConfigPut?
  }

  /** The entry was made for an operation spawned before; a load wrote what it had read from the file. */
  ghost predicate AskedFor(states: seq<State>, steps: seq<Step>, i: nat, entry: Entry, k: nat) {
    && k < i <= |steps| < |states|
    && steps[k].Admin? && steps[k].task == entry.task && steps[k].act.Spawn?
    && Serves(steps[k].act.op, entry.event)
    && (steps[k].act.op.LoadConfig? ==>
          entry.event.Wrote? && exists j :: k < j < i && ReadAt(states, steps, j, entry.task, Holds(entry.event.cfg)))
  }

  lemma PerformedServes(s: State, t: TaskId, op: Op, read: Option<File>, e: Event)
    requires Performs(s, t, op, read) && e in EventsOf(s.log, t)
    ensures Serves(op, e) && (op.LoadConfig? ==> e.Wrote? && read == Some(Holds(e.cfg)))
  {
    var es := EventsOf(s.log, t);
    assert |es| <= 2 && e in es ==> e == es[0] || e == es[|es| - 1];
  }

  ghost predicate Requested(states: seq<State>, steps: seq<Step>, i: nat, n: nat) {
    i < |states| && n < |states[i].log| && exists k :: AskedFor(states, steps, i, states[i].log[n], k)
  }

  /** Nothing gets into the log that nobody asked for. */
  lemma EntryAskedFor(states: seq<State>, steps: seq<Step>, i: nat, n: nat)
    requires IsRun(states, steps) && i < |states| && n < |states[i].log|
    ensures Requested(states, steps, i, n)
  {
    RunInv(states, steps, i);
    var entry := states[i].log[n];
    var k, op := SpawnedBefore(states, steps, i, entry.task);
    var read := OperationsLinearize(states, steps, k, i, entry.task, op);
    EntryIsEvent(states[i].log, n);
    PerformedServes(states[i], entry.task, op, read, entry.event);
    assert AskedFor(states, steps, i, entry, k);
  }

  // ----- real time

  predicate Ended(task: Task) {
    task.Succeeded? || task.Failed? || task.Cancelled? || task.Detached?
  }

  /** The log has grown, and not by that task. */
  ghost predicate SilentFrom(before: seq<Entry>, log: seq<Entry>, t: TaskId) {
    before <= log && forall n :: |before| <= n < |log| ==> log[n].task != t
  }

  lemma EndedStep(s: State, step: Step, s': State, t: TaskId)
    requires Next(s, step, s') && t in s.tasks && Ended(s.tasks[t])
    requires s.mgr.lock.Held? ==> s.mgr.lock.owner in s.tasks && s.tasks[s.mgr.lock.owner].Applying?
    ensures t in s'.tasks && Ended(s'.tasks[t]) && SilentFrom(s.log, s'.log, t)
  {
    match step
    case Admin(u, act) => EndedAct(s, u, act, t);
    case _ =>
  }

  lemma EndedAct(s: State, u: TaskId, act: Act, t: TaskId)
    requires CanAct(s, u, act) && t in s.tasks && Ended(s.tasks[t])
    ensures var s' := Acted(s, u, act);
            t in s'.tasks && Ended(s'.tasks[t]) && SilentFrom(s.log, s'.log, t)
  {
    if act.Acquire? { AcquireEntry(s, u); }
  }

  /** A task that has ended makes no more entries. */
  lemma {:induction false} EndedIsSilent(states: seq<State>, steps: seq<Step>, i: nat, j: nat, t: TaskId)
    requires IsRun(states, steps) && i <= j < |states|
    requires t in states[i].tasks && Ended(states[i].tasks[t])
    ensures t in states[j].tasks && Ended(states[j].tasks[t]) && SilentFrom(states[i].log, states[j].log, t)
    decreases j - i
  {
    if i < j {
      EndedIsSilent(states, steps, i, j - 1, t);
      EndedAt(states, steps, j, t);
      SilentLonger(states[i].log, states[j - 1].log, states[j].log, t);
    }
  }

  lemma EndedAt(states: seq<State>, steps: seq<Step>, j: nat, t: TaskId)
    requires IsRun(states, steps) && 0 < j < |states|
    requires t in states[j - 1].tasks && Ended(states[j - 1].tasks[t])
    ensures t in states[j].tasks && Ended(states[j].tasks[t])
    ensures SilentFrom(states[j - 1].log, states[j].log, t)
  {
    RunNext(states, steps, j - 1);
    TasksOkAt(states, steps, j - 1);
    EndedStep(states[j - 1], steps[j - 1], states[j], t);
  }

  lemma SilentLonger(a: seq<Entry>, b: seq<Entry>, c: seq<Entry>, t: TaskId)
    requires SilentFrom(a, b, t) && SilentFrom(b, c, t)
    ensures SilentFrom(a, c, t)
  {
    assert forall n :: |a| <= n < |b| ==> c[n] == b[n];
  }

  /**
   The log respects real time: whatever a task that has ended did, be it a success, a failed
   lookup or a cancelled apply, comes before whatever is done by a task spawned afterwards.
   */
  lemma RealTimeOrder(states: seq<State>, steps: seq<Step>, i: nat, j: nat, t: TaskId, u: TaskId, n: nat, m: nat)
    requires IsRun(states, steps) && i <= j < |states|
    requires t in states[i].tasks && Ended(states[i].tasks[t]) && u !in states[i].tasks
    requires n < |states[j].log| && states[j].log[n].task == t
    requires m < |states[j].log| && states[j].log[m].task == u
    ensures n < m
  {
    RunInv(states, steps, i);
    EndedIsSilent(states, steps, i, j, t);
  }

  // ----- what get_config and the slots show

  lemma {:induction false} TasksStay(states: seq<State>, steps: seq<Step>, i: nat, j: nat, t: TaskId)
    requires IsRun(states, steps) && i <= j < |states| && t in states[i].tasks
    ensures t in states[j].tasks
    decreases j - i
  {
    if i < j {
      TasksStay(states, steps, i, j - 1, t);
      RunNext(states, steps, j - 1);
    }
  }

  /** At state m the lock was free, both slots were in step and the config was `cfg`. */
  ghost predicate AppliedAt(states: seq<State>, m: nat, cfg: Config) {
    m < |states| && states[m].mgr.lock.Free? && InStep(states[m].mgr) && states[m].mgr.config == cfg
  }

  /**
   A get_config that succeeds returns a config that was fully applied, both slots in step, at a
   moment of the call, unless an apply was dropped half way and none completed since.
   */
  lemma GetConfigSeesApplied(states: seq<State>, steps: seq<Step>, from: nat, k: nat, i: nat, t: TaskId)
    requires IsRun(states, steps) && Settled(steps, from) && from <= k < i && Untorn(states, steps, from, i)
    requires SpawnedAt(steps, k, t, GetConfig) && t in states[i].tasks && states[i].tasks[t].Succeeded?
    ensures states[i].tasks[t].result.Some?
    ensures exists m :: k < m < i && AppliedAt(states, m, states[i].tasks[t].result.value)
  {
    var read := OperationsLinearize(states, steps, k, i, t, GetConfig);
    var n := states[i].tasks[t].at;
    EntryMoment(states, steps, i, n);
    var m :| 0 <= m < i && MadeAt(states, steps, states[i].log[n], n, m);
    if m <= k { TasksStay(states, steps, m, k, t); RunNext(states, steps, k); }
    UntornPrefix(states, steps, from, m, i);
    AgreementWhenFree(states, steps, from, m);
    assert AppliedAt(states, m, states[i].tasks[t].result.value);
  }

  lemma UntornPrefix(states: seq<State>, steps: seq<Step>, k: nat, m: nat, i: nat)
    requires Untorn(states, steps, k, i) && k <= m <= i
    ensures Untorn(states, steps, k, m)
  {
  }

  /**
   In any run, once a config has been uploaded, the config is the last upload with the last flag
   of every name toggled since written in; the upload and each of those toggles is what some
   operation asked for.
   */
  lemma ToggledSinceUpload(states: seq<State>, steps: seq<Step>, i: nat, at: nat, cfg: Config)
    requires IsRun(states, steps) && i < |states|
    requires at < |states[i].log| && states[i].log[at].event == Wrote(cfg)
    requires forall n :: at < n < |states[i].log| ==> !states[i].log[n].event.Wrote?
    ensures var flags := LastFlags(TogglesOf(Events(states[i].log)[at + 1..]));
            states[i].mgr.config == cfg.(backends := Flagged(cfg.backends, flags))
    ensures FlippedSince(Events(states[i].log), at, cfg, states[i].mgr.config)
    ensures forall n :: at <= n < |states[i].log| ==> Requested(states, steps, i, n)
  {
    RunInv(states, steps, i);
    NoneWritten(Events(states[i].log), at);
    SinceUploadInFull(Events(states[i].log), at, cfg);
    SinceLastUpload(Events(states[i].log), at, cfg);
    forall n | at <= n < |states[i].log| ensures Requested(states, steps, i, n) {
      EntryAskedFor(states, steps, i, n);
    }
  }

  /** So the slots show, whenever the lock is free, what one upload with those flags folded in would give. */
  lemma ViewsSinceUpload(states: seq<State>, steps: seq<Step>, k: nat, i: nat, at: nat, cfg: Config, slot: Slot)
    requires IsRun(states, steps) && Settled(steps, k) && Untorn(states, steps, k, i) && states[i].mgr.lock.Free?
    requires at < |states[i].log| && states[i].log[at].event == Wrote(cfg)
    requires forall n :: at < n < |states[i].log| ==> !states[i].log[n].event.Wrote?
    ensures var flags := LastFlags(TogglesOf(Events(states[i].log)[at + 1..]));
            HeldView(states[i].mgr, slot) == SlotView(cfg.(backends := Flagged(cfg.backends, flags)), slot)
  {
    ToggledSinceUpload(states, steps, i, at, cfg);
    AgreementWhenFree(states, steps, k, i);
  }

  // ----- failures

  /**
   A task that failed at reading, parsing, the name check or the lookup has never changed the
   config: no event of its own in the log is a write or a flip.
   */
  lemma FailedChangedNothing(states: seq<State>, steps: seq<Step>, i: nat, t: TaskId, n: nat)
    requires IsRun(states, steps) && i < |states| && n < |states[i].log|
    requires t in states[i].tasks && states[i].tasks[t] == Failed(false) && states[i].log[n].task == t
    ensures var e := states[i].log[n].event; !e.Wrote? && !e.Flipped?
  {
    RunInv(states, steps, i);
    assert TaskOk(states[i], t, states[i].tasks[t]);
  }

  /** And the step at which any task fails leaves the manager and the file alone. */
  lemma FailingStep(s: State, step: Step, s': State, t: TaskId)
    requires Next(s, step, s') && t in s'.tasks && s'.tasks[t].Failed?
    requires t in s.tasks ==> !s.tasks[t].Failed?
    ensures s'.mgr == s.mgr && s'.file == s.file
  {
    match step
    case Admin(u, act) => FailingAct(s, u, act, t);
    case _ =>
  }

  lemma FailingAct(s: State, u: TaskId, act: Act, t: TaskId)
    requires CanAct(s, u, act)
    requires t in Acted(s, u, act).tasks && Acted(s, u, act).tasks[t].Failed?
    requires t in s.tasks ==> !s.tasks[t].Failed?
    ensures Acted(s, u, act).mgr == s.mgr && Acted(s, u, act).file == s.file
  {
  }
}
