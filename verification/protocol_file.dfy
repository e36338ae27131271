/** The config file, which is written outside the lock: what it holds and when it is up to date. */
module ProtocolFile {
  import opened Wrappers
  import opened Configs
  import opened Register
  import opened Protocol
  import opened ManagerInvariant
  import opened ProtocolInvariant
  import opened ProtocolTheorems
  import opened ProtocolOperations

  lemma AfterLook(before: seq<Event>, snapshot: Config, since: seq<Event>)
    requires Legal(before + [Saw(snapshot)] + since)
    ensures After(before + [Saw(snapshot)]) == snapshot
  {
    assert AnsweredAt(before + [Saw(snapshot)] + since, |before|);
    assert (before + [Saw(snapshot)] + since)[..|before|] == before;
    AfterSnoc(before, Saw(snapshot));
  }

  lemma LookCancelOut(es: seq<Event>, snapshot: Config, before: seq<Event>, since: seq<Event>)
    requires Legal(es) && es == before + [Saw(snapshot)] + since
    ensures After(es) == snapshot <==> CancelOut(snapshot, since)
  {
    AfterLook(before, snapshot, since);
    BackIffCancelOut(before + [Saw(snapshot)], since);
  }

  /** A snapshot equals the config exactly when the events logged after it cancel out. */
  lemma SnapshotIsCurrentIff(es: seq<Event>, at: nat, snapshot: Config)
    requires Legal(es) && at < |es| && es[at] == Saw(snapshot)
    ensures After(es) == snapshot <==> CancelOut(snapshot, es[at + 1..])
  {
    SplitAt(es, at);
    LookCancelOut(es, snapshot, es[..at], es[at + 1..]);
  }

  /**
   A write that lands, be it that of a live task or of one dropped in the meantime, leaves the
   applied config in the file exactly when the changes logged since its snapshot cancel out.
   */
  lemma WriteIsCurrentIff(s: State, t: TaskId)
    requires Inv(s) && t in s.tasks && (s.tasks[t].Writing? || s.tasks[t].Detached?)
    ensures var w, s' := s.tasks[t], DoWriteFile(s, t, true);
            && w.at < |s.log|
            && (s'.file == Holds(s'.mgr.config) <==> CancelOut(w.snapshot, Events(s.log)[w.at + 1..]))
  {
    assert TaskOk(s, t, s.tasks[t]);
    SnapshotIsCurrentIff(Events(s.log), s.tasks[t].at, s.tasks[t].snapshot);
  }

  // ----- over runs

  predicate WritesFile(step: Step) {
    step.Admin? && step.act == WriteFile(true)
  }

  predicate EditsFile(step: Step) {
    step.Around? && step.change.EditFile?
  }

  /** Step k is the last before state i to write or edit the file, and it is a write of the process. */
  ghost predicate LastWrite(steps: seq<Step>, k: nat, i: nat) {
    && k < i <= |steps| && WritesFile(steps[k])
    && forall j :: k < j < i ==> !WritesFile(steps[j]) && !EditsFile(steps[j])
  }

  /** Step j writes the file, and nobody edits it from then on up to state i. */
  ghost predicate UneditedSince(steps: seq<Step>, j: nat, i: nat) {
    && j < i <= |steps| && WritesFile(steps[j])
    && forall n :: j < n < i ==> !EditsFile(steps[n])
  }

  lemma {:induction false} SomeLastWrite(steps: seq<Step>, j: nat, i: nat) returns (k: nat)
    requires UneditedSince(steps, j, i)
    ensures LastWrite(steps, k, i) && j <= k
    decreases i
  {
    if WritesFile(steps[i - 1]) {
      k := i - 1;
    } else {
      k := SomeLastWrite(steps, j, i - 1);
    }
  }

  lemma FileStep(s: State, step: Step, s': State)
    requires Next(s, step, s')
    ensures s.log <= s'.log
    ensures !WritesFile(step) && !EditsFile(step) ==> s'.file == s.file
    ensures WritesFile(step) ==>
              && step.task in s.tasks && (s.tasks[step.task].Writing? || s.tasks[step.task].Detached?)
              && s'.file == Holds(s.tasks[step.task].snapshot)
  {
  }

  /** The snapshot step k writes to the file, and its place in the log */
  ghost predicate Lands(states: seq<State>, steps: seq<Step>, k: nat, snapshot: Config, at: nat) {
    && k < |steps| < |states| && steps[k].Admin? && steps[k].task in states[k].tasks
    && var w := states[k].tasks[steps[k].task];
       (w.Writing? || w.Detached?) && w.snapshot == snapshot && w.at == at
  }

  lemma WriteLands(states: seq<State>, steps: seq<Step>, k: nat) returns (snapshot: Config, at: nat)
    requires IsRun(states, steps) && k < |steps| && WritesFile(steps[k])
    ensures Lands(states, steps, k, snapshot, at)
  {
    RunNext(states, steps, k);
    FileStep(states[k], steps[k], states[k + 1]);
    snapshot, at := states[k].tasks[steps[k].task].snapshot, states[k].tasks[steps[k].task].at;
  }

  lemma LandsKnown(states: seq<State>, steps: seq<Step>, k: nat, snapshot: Config, at: nat)
    requires IsRun(states, steps) && Lands(states, steps, k, snapshot, at)
    ensures SnapshotAt(states[k], at, snapshot)
  {
    RunInv(states, steps, k);
    assert TaskOk(states[k], steps[k].task, states[k].tasks[steps[k].task]);
  }

  /** The file holds what was written last, which the config was found to be at its place in the log. */
  lemma {:induction false} FileStays(states: seq<State>, steps: seq<Step>, k: nat, i: nat, snapshot: Config, at: nat)
    requires IsRun(states, steps) && LastWrite(steps, k, i) && Lands(states, steps, k, snapshot, at)
    ensures states[i].file == Holds(snapshot)
    ensures at < |states[i].log| && states[i].log[at].event == Saw(snapshot)
    decreases i
  {
    RunNext(states, steps, i - 1);
    FileStep(states[i - 1], steps[i - 1], states[i]);
    if i == k + 1 {
      LandsKnown(states, steps, k, snapshot, at);
    } else {
      FileStays(states, steps, k, i - 1, snapshot, at);
    }
  }

  /**
   At any moment of any run, if step k was the last to write the file and nobody has edited it
   since: it holds the applied config exactly when the changes logged since the snapshot that
   step wrote, no matter whether its task was still alive, cancel out.
   */
  lemma FileIsCurrentIff(states: seq<State>, steps: seq<Step>, k: nat, i: nat, snapshot: Config, at: nat)
    requires IsRun(states, steps) && LastWrite(steps, k, i) && Lands(states, steps, k, snapshot, at)
    ensures at < |states[i].log|
    ensures states[i].file == Holds(states[i].mgr.config) <==> CancelOut(snapshot, Events(states[i].log)[at + 1..])
  {
    FileStays(states, steps, k, i, snapshot, at);
    RunInv(states, steps, i);
    SnapshotIsCurrentIff(Events(states[i].log), at, snapshot);
  }

  /** Only uploads and looks have been logged from place n on. */
  ghost predicate OnlyUploads(log: seq<Entry>, n: nat) {
    forall m :: n <= m < |log| ==> log[m].event.Wrote? || log[m].event.Saw?
  }

  /**
   With uploads only since that snapshot, as when nothing but puts has run, however many and
   however they overlap: the file is up to date exactly when no upload came after the snapshot,
   or the last that did was of the very config that was written.
   */
  lemma PutsLeaveFileCurrentIff(states: seq<State>, steps: seq<Step>, k: nat, i: nat, snapshot: Config, at: nat)
    requires IsRun(states, steps) && LastWrite(steps, k, i) && Lands(states, steps, k, snapshot, at)
    requires OnlyUploads(states[i].log, at + 1)
    ensures at < |states[i].log|
    ensures var since := Events(states[i].log)[at + 1..];
            states[i].file == Holds(states[i].mgr.config) <==>
            LastUpload(since).None? || since[LastUpload(since).value].cfg == snapshot
  {
    FileIsCurrentIff(states, steps, k, i, snapshot, at);
    UploadsAndLooks(states[i].log, at);
    UploadsCancelOutIff(snapshot, Events(states[i].log)[at + 1..]);
  }

  lemma UploadsAndLooks(log: seq<Entry>, at: nat)
    requires at < |log| && OnlyUploads(log, at + 1)
    ensures forall e :: e in Events(log)[at + 1..] ==> e.Wrote? || e.Saw?
  {
    var since := Events(log)[at + 1..];
    forall e | e in since ensures e.Wrote? || e.Saw? {
      var k :| 0 <= k < |since| && since[k] == e;
      assert log[at + 1 + k].event == e;
    }
  }

  /**
   The file is written outside the lock, so a late writer may put an older config in it; but
   once it has been written, and unless it is edited from outside after that, it always holds an
   accepted config that was current at some moment of the run.
   */
  lemma FileHoldsPastConfig(states: seq<State>, steps: seq<Step>, j: nat, i: nat)
    requires IsRun(states, steps) && UneditedSince(steps, j, i)
    ensures states[i].file.Holds? && UniqueNames(states[i].file.cfg)
    ensures exists k :: 0 <= k < i && states[k].mgr.config == states[i].file.cfg
  {
    var k := SomeLastWrite(steps, j, i);
    var snapshot, at := WriteLands(states, steps, k);
    FileStays(states, steps, k, i, snapshot, at);
    LandsKnown(states, steps, k, snapshot, at);
    RunInv(states, steps, k);
    var p :| p in states[k].mgr.history && p.cfg == snapshot;
    assert Planned(p);
    WasConfigAt(states, steps, k, snapshot);
  }

  // ----- what a success says about the file

  /** A task that comes to report success, or that only the file failed, does so by its attempt to write. */
  ghost predicate Reports(task: Task, step: Step, task': Task, t: TaskId) {
    && (task'.Succeeded? && !task.Succeeded? ==>
          step == Admin(t, WriteFile(true)) && task.Writing? && task'.at == task.at)
    && (task' == Failed(true) && task != Failed(true) ==> step == Admin(t, WriteFile(false)) && task.Writing?)
    && (task.Succeeded? || task.Failed? ==> task' == task)
  }

  /** A task asked to persist comes to report by the step that writes the file, or fails to. */
  lemma ReportStep(s: State, step: Step, s': State, t: TaskId, op: Op, read: Option<File>)
    requires TasksOk(s) && TasksOk(s') && Next(s, step, s') && Performs(s, t, op, read)
    requires op.ConfigPut? || op.PersistConfig?
    ensures t in s'.tasks && Reports(s.tasks[t], step, s'.tasks[t], t)
  {
    if step.Admin? && step.task == t {
      ReportAct(s, t, step.act, op, read);
    } else if step.Release? && s.mgr.lock.Held? && s.mgr.lock.owner == t {
      assert s.tasks[t].Applying? && s.mgr.lock.apply.persist;
    } else {
      OthersLeave(s, step, s', t);
    }
  }

  lemma ReportAct(s: State, t: TaskId, act: Act, op: Op, read: Option<File>)
    requires CanAct(s, t, act) && Performs(s, t, op, read) && (op.ConfigPut? || op.PersistConfig?)
    ensures var s' := Acted(s, t, act);
            && t in s'.tasks
            && (s'.tasks[t].Succeeded? ==>
                  act == WriteFile(true) && s.tasks[t].Writing? && s'.tasks[t].at == s.tasks[t].at)
            && (s'.tasks[t] == Failed(true) ==> act == WriteFile(false) && s.tasks[t].Writing?)
            && !s.tasks[t].Succeeded? && !s.tasks[t].Failed?
  {
  }

  /**
   A put or persist that reports success has written its snapshot to the file, at a step of its
   own; one that reports that only the file failed has tried to and not succeeded.
   */
  lemma {:induction false} ReportIsWrite(states: seq<State>, steps: seq<Step>, k: nat, i: nat, t: TaskId, op: Op)
    returns (j: nat)
    requires IsRun(states, steps) && SpawnedAt(steps, k, t, op) && k < i < |states|
    requires op.ConfigPut? || op.PersistConfig?
    requires t in states[i].tasks && (states[i].tasks[t].Succeeded? || states[i].tasks[t] == Failed(true))
    ensures k < j < i && t in states[j].tasks && states[j].tasks[t].Writing?
    ensures states[i].tasks[t].Succeeded? ==>
              && steps[j] == Admin(t, WriteFile(true))
              && Lands(states, steps, j, states[j].tasks[t].snapshot, states[i].tasks[t].at)
    ensures states[i].tasks[t].Failed? ==> steps[j] == Admin(t, WriteFile(false))
    decreases i
  {
    RunNext(states, steps, i - 1);
    if i == k + 1 {
      NotYet(states[k], states[i], t, op);
    } else {
      ReportAt(states, steps, k, i, t, op);
      if states[i - 1].tasks[t] == states[i].tasks[t] {
        j := ReportIsWrite(states, steps, k, i - 1, t, op);
      } else {
        j := i - 1;
      }
    }
  }

  lemma ReportAt(states: seq<State>, steps: seq<Step>, k: nat, i: nat, t: TaskId, op: Op)
    requires IsRun(states, steps) && SpawnedAt(steps, k, t, op) && k + 1 < i < |states|
    requires op.ConfigPut? || op.PersistConfig?
    ensures t in states[i - 1].tasks && t in states[i].tasks
    ensures Reports(states[i - 1].tasks[t], steps[i - 1], states[i].tasks[t], t)
  {
    var read := OperationsLinearize(states, steps, k, i - 1, t, op);
    RunNext(states, steps, i - 1);
    TasksOkAt(states, steps, i - 1);
    TasksOkAt(states, steps, i);
    ReportStep(states[i - 1], steps[i - 1], states[i], t, op, read);
  }

  lemma NotYet(s: State, s': State, t: TaskId, op: Op)
    requires Next(s, Admin(t, Spawn(op)), s')
    ensures t in s'.tasks && !s'.tasks[t].Succeeded? && s'.tasks[t] != Failed(true)
  {
  }

  // ----- one admin at a time

  /** The task has ended and has nothing under way. */
  predicate Over(task: Task) {
    task.Succeeded? || task.Failed? || task.Cancelled?
  }

  ghost predicate OthersOver(s: State, t: TaskId) {
    forall u :: u in s.tasks && u != t ==> Over(s.tasks[u])
  }

  /** How far a put that runs alone has come */
  ghost predicate PutStands(s: State, t: TaskId, cfg: Config) {
    && t in s.tasks
    && match s.tasks[t]
       case Locking(request) =>
         (match request
          case Write(c, persist) => c == cfg && persist
          case Snapshot => s.mgr.config == cfg && !s.mgr.torn
          case _ => false)
       case Applying(_) => s.mgr.config == cfg && s.mgr.lock.Held? && s.mgr.lock.apply.persist
       case Writing(snapshot, _) => snapshot == cfg && s.mgr.config == cfg && !s.mgr.torn
       case Succeeded(_, _) => s.file == Holds(cfg) && s.mgr.config == cfg && !s.mgr.torn
       case Reading => false
       case _ => true
  }

  /** From step k on nobody asks for anything else, and nobody edits the file. */
  ghost predicate NothingElse(steps: seq<Step>, k: nat, i: nat) {
    k < i <= |steps| && forall j :: k < j < i ==> !EditsFile(steps[j]) && !Spawns(steps[j])
  }

  predicate Spawns(step: Step) {
    step.Admin? && step.act.Spawn?
  }

  lemma AloneAct(s: State, u: TaskId, act: Act, t: TaskId, cfg: Config)
    requires CanAct(s, u, act) && !act.Spawn? && OthersOver(s, t) && PutStands(s, t, cfg)
    ensures u == t && OthersOver(Acted(s, u, act), t) && PutStands(Acted(s, u, act), t, cfg)
  {
  }

  lemma AloneRelease(s: State, t: TaskId, cfg: Config)
    requires CanRelease(s) && OthersOver(s, t) && PutStands(s, t, cfg)
    ensures OthersOver(DoRelease(s), t) && PutStands(DoRelease(s), t, cfg)
  {
  }

  lemma AloneStep(s: State, step: Step, s': State, t: TaskId, cfg: Config)
    requires Next(s, step, s') && !EditsFile(step) && !Spawns(step)
    requires OthersOver(s, t) && PutStands(s, t, cfg)
    ensures OthersOver(s', t) && PutStands(s', t, cfg)
  {
    match step
    case Admin(u, act) => AloneAct(s, u, act, t, cfg);
    case Advance(move) => MoveLeaves(s.mgr, move);
    case Release => AloneRelease(s, t, cfg);
    case _ =>
  }

  lemma AloneStarts(s: State, s': State, t: TaskId, cfg: Config)
    requires Next(s, Admin(t, Spawn(ConfigPut(cfg))), s') && OthersOver(s, t)
    ensures OthersOver(s', t) && PutStands(s', t, cfg)
  {
  }

  lemma {:induction false} AloneRun(states: seq<State>, steps: seq<Step>, k: nat, i: nat, t: TaskId, cfg: Config)
    requires IsRun(states, steps) && SpawnedAt(steps, k, t, ConfigPut(cfg))
    requires OthersOver(states[k], t) && NothingElse(steps, k, i)
    ensures OthersOver(states[i], t) && PutStands(states[i], t, cfg)
    decreases i
  {
    RunNext(states, steps, i - 1);
    if i == k + 1 {
      AloneStarts(states[k], states[i], t, cfg);
    } else {
      AloneRun(states, steps, k, i - 1, t, cfg);
      AloneStep(states[i - 1], steps[i - 1], states[i], t, cfg);
    }
  }

  /**
   With one admin at a time the put keeps its promise, whatever the past of the run was: when it
   starts, every task has ended and no write of a dropped one is under way; nothing else is
   asked for until it succeeds, and nobody edits the file. Then config, file and both slots are
   those of the put.
   */
  lemma PutAloneIsCurrent(states: seq<State>, steps: seq<Step>, k: nat, i: nat, t: TaskId, cfg: Config)
    requires IsRun(states, steps) && SpawnedAt(steps, k, t, ConfigPut(cfg))
    requires OthersOver(states[k], t) && NothingElse(steps, k, i)
    requires t in states[i].tasks && states[i].tasks[t].Succeeded?
    ensures states[i].file == Holds(cfg) && states[i].mgr.config == cfg
    ensures states[i].mgr.lock.Free? && InStep(states[i].mgr)
  {
    AloneRun(states, steps, k, i, t, cfg);
    RunInv(states, steps, i);
    AgreesIsInStep(states[i].mgr);
  }
}
