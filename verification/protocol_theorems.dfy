/** What holds over whole runs of the reconfiguration protocol. */
module ProtocolTheorems {
  import opened Wrappers
  import opened Configs
  import opened Health
  import opened Protocol
  import opened ManagerInvariant
  import opened ProtocolInvariant
  import opened ProtocolLives

  // ----- config and slots agree

  /** What the router was built from */
  function ViewOf(m: Manager, r: Option<RouterId>): Option<View> {
    if r.Some? && r.value < |m.routers| then Some(m.routers[r.value].view) else None
  }

  /**
   Both slots are what the config asks for: each is empty exactly when nothing on its list is
   enabled, and otherwise holds a router built from the enabled entries under the config's strategy.
   */
  ghost predicate InStep(m: Manager) {
    && HeldView(m, Main) == SlotView(m.config, Main) && HeldView(m, Fallback) == SlotView(m.config, Fallback)
    && (m.main.None? <==> forall i :: 0 <= i < |m.config.backends| ==> !m.config.backends[i].enabled)
    && (m.fallback.None? <==>
          m.config.fallback.None?
          || forall i :: 0 <= i < |m.config.fallback.value| ==> !m.config.fallback.value[i].enabled)
    && Reflects(ViewOf(m, m.main), m.config.strategy, m.config.backends)
    && Reflects(ViewOf(m, m.fallback), m.config.strategy,
                if m.config.fallback.Some? then m.config.fallback.value else [])
  }

  lemma AgreesIsInStep(m: Manager)
    requires HistoryOk(m) && RolesDiffer(m) && Agrees(m, Main) && Agrees(m, Fallback)
    ensures InStep(m)
  {
    assert Current(m) in m.history && Planned(Current(m));
    SlotsMatch(m);
  }

  lemma SlotsMatch(m: Manager)
    requires HeldView(m, Main) == SlotView(m.config, Main) && HeldView(m, Fallback) == SlotView(m.config, Fallback)
    requires Exists(m, m.main) && Exists(m, m.fallback)
    ensures InStep(m)
  {
    SlotNoneIff(m.config);
    SlotsReflect(m.config);
    SameShown(m);
  }

  lemma SameShown(m: Manager)
    requires Exists(m, m.main) && Exists(m, m.fallback)
    ensures HeldView(m, Main) == ViewOf(m, m.main) && HeldView(m, Fallback) == ViewOf(m, m.fallback)
    ensures HeldView(m, Main).None? <==> m.main.None?
    ensures HeldView(m, Fallback).None? <==> m.fallback.None?
  {
  }

  /** An apply, and with it the guard, is dropped. */
  predicate DropsApply(s: State, step: Step) {
    step.Admin? && step.act.Cancel? && step.task in s.tasks && s.tasks[step.task].Applying?
  }

  /** And that before both slots were stored */
  predicate TearsSlots(s: State, step: Step) {
    DropsApply(s, step) && s.mgr.lock.Held? && !BothStored(s.mgr.lock.apply)
  }

  /** From state k to state i no apply is dropped before it has stored both slots. */
  ghost predicate Untorn(states: seq<State>, steps: seq<Step>, k: nat, i: nat) {
    k <= i <= |steps| < |states| && forall j :: k <= j < i ==> !TearsSlots(states[j], steps[j])
  }

  /** The start of the run, or a state in which an apply has just come to its end */
  ghost predicate Settled(steps: seq<Step>, k: nat) {
    k == 0 || (k <= |steps| && steps[k - 1] == Release)
  }

  lemma UntornStep(s: State, step: Step, s': State)
    requires Next(s, step, s') && !TearsSlots(s, step) && !s.mgr.torn
    ensures !s'.mgr.torn
  {
    if step.Advance? { MoveLeaves(s.mgr, step.move); }
  }

  lemma {:induction false} UntornRun(states: seq<State>, steps: seq<Step>, k: nat, i: nat)
    requires IsRun(states, steps) && Settled(steps, k) && Untorn(states, steps, k, i)
    ensures !states[i].mgr.torn
    decreases i
  {
    if i > k {
      UntornRun(states, steps, k, i - 1);
      RunNext(states, steps, i - 1);
      assert !TearsSlots(states[i - 1], steps[i - 1]);
      UntornStep(states[i - 1], steps[i - 1], states[i]);
    } else if k > 0 {
      RunNext(states, steps, k - 1);
    }
  }

  /**
   However many admin tasks and readers interleave and whichever of them are dropped, as long as
   no apply is dropped half way since the start, or since any completed apply: whenever the lock
   is free, each slot is None exactly when its enabled list is empty, and otherwise holds a
   router built from that list, its weights and the config's strategy.
   */
  lemma AgreementWhenFree(states: seq<State>, steps: seq<Step>, k: nat, i: nat)
    requires IsRun(states, steps) && Settled(steps, k) && Untorn(states, steps, k, i)
    requires states[i].mgr.lock.Free?
    ensures InStep(states[i].mgr)
  {
    RunInv(states, steps, i);
    UntornRun(states, steps, k, i);
    AgreesIsInStep(states[i].mgr);
  }

  // ----- the lives of routers

  ghost function Running(m: Manager): set<RouterId> {
    set r | 0 <= r < |m.routers| && !m.routers[r].stopped
  }

  ghost function AsSet(r: Option<RouterId>): set<RouterId> {
    if r.None? then {} else {r.value}
  }

  /** The routers that are installed, being prepared or being stopped */
  ghost function Accounted(m: Manager): set<RouterId> {
    AsSet(m.main) + AsSet(m.fallback) + (AsSet(Prepared(m.lock)) + AsSet(Replaced(m.lock)))
  }

  /** Running routers are the installed ones, the one being prepared, the one being stopped, and the leaked. */
  lemma RunningAccounted(m: Manager)
    requires LivesOk(m)
    ensures Running(m) == Accounted(m) + m.leaked
  {
    forall r ensures r in Running(m) <==> r in Accounted(m) + m.leaked {
      if 0 <= r < |m.routers| { assert Fits(m.routers[r], RoleOf(m, r)); }
    }
  }

  lemma AccountedBound(m: Manager)
    ensures |Accounted(m)| <= 3 && (m.lock.Free? ==> |Accounted(m)| <= 2)
  {
    var a, b, c := AsSet(m.main), AsSet(m.fallback), AsSet(Prepared(m.lock)) + AsSet(Replaced(m.lock));
    assert c == AsSet(Prepared(m.lock)) || c == AsSet(Replaced(m.lock));
    UnionBound(a + b, c);
    UnionBound(a, b);
  }

  lemma UnionBound(a: set<RouterId>, b: set<RouterId>)
    ensures |a + b| <= |a| + |b|
  {
    assert a + b == a + (b - a);
    assert |a + (b - a)| == |a| + |b - a|;
    assert b == (b - a) + (b * a);
  }

  /** The steps of the run that store router r and that stop it, and what they say of it now */
  ghost predicate LivesOnce(states: seq<State>, steps: seq<Step>, i: nat, r: RouterId)
    requires i <= |steps| < |states|
  {
    && Times(states, steps, i, CallsStop, r) <= Times(states, steps, i, Stores, r) <= 1
    && (Times(states, steps, i, EndsStop, r) > 0 ==> Times(states, steps, i, CallsStop, r) == 1)
    && (states[i].mgr.main == Some(r) || states[i].mgr.fallback == Some(r) ==>
          Times(states, steps, i, CallsStop, r) == 0)
  }

  /**
   At each step of any run at most three routers run besides the leaked ones, two when the lock
   is free; no router is stored by more than one step or stopped by more than one, only after it
   was stored and never while it is in a slot.
   */
  lemma RouterLives(states: seq<State>, steps: seq<Step>, i: nat)
    requires IsRun(states, steps) && i < |states|
    ensures var m := states[i].mgr;
            && |Running(m)| <= 3 + |m.leaked|
            && (m.lock.Free? ==> |Running(m)| <= 2 + |m.leaked|)
            && forall r :: 0 <= r < |m.routers| ==>
                 Recorded(states, steps, i, r, m.routers[r]) && LivesOnce(states, steps, i, r)
  {
    RunInv(states, steps, i);
    var m := states[i].mgr;
    RunningAccounted(m);
    AccountedBound(m);
    UnionBound(Accounted(m), m.leaked);
    forall r | 0 <= r < |m.routers|
      ensures Recorded(states, steps, i, r, m.routers[r]) && LivesOnce(states, steps, i, r)
    {
      assert Fits(m.routers[r], RoleOf(m, r));
      RecordIsSteps(states, steps, i, r);
    }
  }

  ghost predicate NoApplyDropped(states: seq<State>, steps: seq<Step>, i: nat) {
    i <= |steps| < |states| && forall j :: 0 <= j < i ==> !DropsApply(states[j], steps[j])
  }

  lemma UndroppedStep(s: State, step: Step, s': State)
    requires Next(s, step, s') && !DropsApply(s, step)
    ensures s'.mgr.leaked == s.mgr.leaked
  {
    if step.Advance? { MoveLeaves(s.mgr, step.move); }
  }

  lemma {:induction false} NothingLeaked(states: seq<State>, steps: seq<Step>, i: nat)
    requires IsRun(states, steps) && NoApplyDropped(states, steps, i)
    ensures states[i].mgr.leaked == {}
  {
    if i > 0 {
      NothingLeaked(states, steps, i - 1);
      RunNext(states, steps, i - 1);
      assert !DropsApply(states[i - 1], steps[i - 1]);
      UndroppedStep(states[i - 1], steps[i - 1], states[i]);
    }
  }

  /** With no apply dropped and the lock free: every router ever built was stored, and is stopped unless it serves. */
  lemma NoRouterLost(states: seq<State>, steps: seq<Step>, i: nat, r: RouterId)
    requires IsRun(states, steps) && NoApplyDropped(states, steps, i)
    requires states[i].mgr.lock.Free? && r < |states[i].mgr.routers|
    ensures var m := states[i].mgr;
            && Times(states, steps, i, Stores, r) == m.routers[r].installs == 1
            && Times(states, steps, i, CallsStop, r) == m.routers[r].stopCalls
            && ((m.main == Some(r) || m.fallback == Some(r)) <==> m.routers[r].stopCalls == 0)
            && (m.routers[r].stopCalls == 1 ==> m.routers[r].stopped && Times(states, steps, i, EndsStop, r) > 0)
  {
    RunInv(states, steps, i);
    RecordIsSteps(states, steps, i, r);
    NothingLeaked(states, steps, i);
    IdleRole(states[i].mgr, r);
  }

  lemma IdleRole(m: Manager, r: RouterId)
    requires LivesOk(m) && m.lock.Free? && m.leaked == {} && r < |m.routers|
    ensures m.routers[r].installs == 1
    ensures (m.main == Some(r) || m.fallback == Some(r)) <==> m.routers[r].stopCalls == 0
    ensures m.routers[r].stopCalls == 1 ==> m.routers[r].stopped
  {
    assert Fits(m.routers[r], RoleOf(m, r));
  }

  // ----- dropped applies

  /** How many applies have been dropped on the way to state i */
  function Drops(states: seq<State>, steps: seq<Step>, i: nat): nat
    requires i <= |steps| < |states|
  {
    if i == 0 then 0
    else Drops(states, steps, i - 1) + (if DropsApply(states[i - 1], steps[i - 1]) then 1 else 0)
  }

  lemma LeakStep(s: State, step: Step, s': State)
    requires Next(s, step, s')
    ensures |s'.mgr.leaked| <= |s.mgr.leaked| + (if DropsApply(s, step) then 1 else 0)
  {
    if !DropsApply(s, step) { UndroppedStep(s, step, s'); }
  }

  /** Each dropped apply leaves at most one router behind, and nothing else leaves any. */
  lemma {:induction false} LeaksBounded(states: seq<State>, steps: seq<Step>, i: nat)
    requires IsRun(states, steps) && i < |states|
    ensures |states[i].mgr.leaked| <= Drops(states, steps, i)
  {
    if i > 0 {
      LeaksBounded(states, steps, i - 1);
      RunNext(states, steps, i - 1);
      LeakStep(states[i - 1], steps[i - 1], states[i]);
    }
  }

  /** So at most three routers run, two when the lock is free, and one more for each dropped apply. */
  lemma RunningBounded(states: seq<State>, steps: seq<Step>, i: nat)
    requires IsRun(states, steps) && i < |states|
    ensures |Running(states[i].mgr)| <= 3 + Drops(states, steps, i)
    ensures states[i].mgr.lock.Free? ==> |Running(states[i].mgr)| <= 2 + Drops(states, steps, i)
  {
    RouterLives(states, steps, i);
    LeaksBounded(states, steps, i);
  }

  // ----- the configs of the past

  lemma AcquireHistory(s: State, t: TaskId)
    requires CanAct(s, t, Acquire)
    ensures var m := Acted(s, t, Acquire).mgr;
            m.history == s.mgr.history || m.history == s.mgr.history + [PlanOf(m.config)]
  {
  }

  lemma HistoryStep(s: State, step: Step, s': State)
    requires Next(s, step, s')
    ensures s'.mgr.history == s.mgr.history || s'.mgr.history == s.mgr.history + [PlanOf(s'.mgr.config)]
  {
    match step
    case Admin(t, act) => if act.Acquire? { AcquireHistory(s, t); }
    case Advance(move) => MoveLeaves(s.mgr, move);
    case _ =>
  }

  lemma OnlyNewest(m: Manager, m': Manager, cfg: Config)
    requires m'.history == m.history || m'.history == m.history + [PlanOf(m'.config)]
    requires WasCurrent(m', cfg) && !WasCurrent(m, cfg)
    ensures m'.config == cfg
  {
    var p :| p in m'.history && p.cfg == cfg;
    assert p !in m.history;
  }

  /** A config once current was the config in some state of the run. */
  lemma {:induction false} WasConfigAt(states: seq<State>, steps: seq<Step>, i: nat, cfg: Config)
    requires IsRun(states, steps) && i < |states| && WasCurrent(states[i].mgr, cfg)
    ensures exists k :: 0 <= k <= i && states[k].mgr.config == cfg
  {
    if i > 0 {
      RunNext(states, steps, i - 1);
      HistoryStep(states[i - 1], steps[i - 1], states[i]);
      if !WasCurrent(states[i - 1].mgr, cfg) {
        OnlyNewest(states[i - 1].mgr, states[i].mgr, cfg);
      } else {
        WasConfigAt(states, steps, i - 1, cfg);
      }
    }
  }

  /** At state k the config was `cfg`, and it had been accepted. */
  ghost predicate AcceptedAt(states: seq<State>, k: nat, cfg: Config) {
    k < |states| && states[k].mgr.config == cfg && UniqueNames(cfg)
  }

  /**
   Whatever was dropped, the config has unique names and each slot holds what some accepted
   config asked for that was current before.
   */
  lemma AlwaysSomePastConfig(states: seq<State>, steps: seq<Step>, i: nat, slot: Slot)
    requires IsRun(states, steps) && i < |states|
    ensures UniqueNames(states[i].mgr.config)
    ensures exists k, cfg ::
              0 <= k <= i && AcceptedAt(states, k, cfg) && HeldView(states[i].mgr, slot) == SlotView(cfg, slot)
  {
    RunInv(states, steps, i);
    var m := states[i].mgr;
    assert Current(m) in m.history && Planned(Current(m));
    assert OnceWanted(m, slot);
    var p :| p in m.history && Wanted(p, slot) == HeldView(m, slot);
    assert Planned(p) && WasCurrent(m, p.cfg);
    WasConfigAt(states, steps, i, p.cfg);
    var k :| 0 <= k <= i && states[k].mgr.config == p.cfg;
    assert AcceptedAt(states, k, p.cfg);
  }

  /** Self-repair: any apply that completes, from any state of any run, puts both slots back in step. */
  lemma ReleaseRepairs(states: seq<State>, steps: seq<Step>, i: nat)
    requires IsRun(states, steps) && i < |steps| && steps[i] == Release
    ensures states[i + 1].mgr.lock.Free? && InStep(states[i + 1].mgr)
  {
    RunInv(states, steps, i);
    RunNext(states, steps, i);
    RunInv(states, steps, i + 1);
    ReleaseKeeps(states[i].mgr);
    AgreesIsInStep(states[i + 1].mgr);
  }

  /** An apply dropped after its second store has done no harm to the slots. */
  lemma LateDropHarmless(m: Manager)
    requires MgrInv(m) && m.lock.Held? && m.lock.apply.stage.Stopping? && BothStored(m.lock.apply)
    ensures InStep(DropApply(m))
  {
    DropApplyKeeps(m);
    AgreesIsInStep(DropApply(m));
  }

  // ----- the health gate

  ghost predicate ClosedBefore(steps: seq<Step>, i: nat, r: RouterId) {
    i <= |steps| && exists k :: 0 <= k < i && steps[k] == Around(CloseWatch(r))
  }

  /** No router in a slot has a backend still Unknown, unless its health checker went away at some step of the run. */
  lemma HealthGate(states: seq<State>, steps: seq<Step>, i: nat, slot: Slot)
    requires IsRun(states, steps) && i < |states| && InSlot(states[i].mgr, slot).Some?
    ensures var m := states[i].mgr;
            && InSlot(m, slot).value < |m.routers|
            && ((forall k :: 0 <= k < |m.routers[InSlot(m, slot).value].health| ==>
                   m.routers[InSlot(m, slot).value].health[k] != Unknown)
                || ClosedBefore(steps, i, InSlot(m, slot).value))
  {
    RunInv(states, steps, i);
    var m := states[i].mgr;
    var r := InSlot(m, slot).value;
    assert PastGate(m, r);
    RecordIsSteps(states, steps, i, r);
    ClosedIff(states, steps, i, r);
  }

  lemma ClosedIff(states: seq<State>, steps: seq<Step>, i: nat, r: RouterId)
    requires i <= |steps| < |states|
    ensures Times(states, steps, i, Closes, r) > 0 <==> ClosedBefore(steps, i, r)
  {
    TimesGrow(states, steps, 0, i, Closes, r);
    if k :| 0 <= k < i && steps[k] == Around(CloseWatch(r)) {
      assert Does(states[k], steps[k], Closes, r);
    }
    if k :| 0 <= k < i && Does(states[k], steps[k], Closes, r) {
      assert steps[k] == Around(CloseWatch(r));
    }
  }

  /**
   Once every state is known, the waiter gets through exactly when something was published after
   it subscribed; it then needs one step.
   */
  lemma GateOpensIffPublishedSince(m: Manager)
    requires MgrInv(m) && m.lock.Held? && m.lock.apply.stage.Waiting?
    requires m.lock.apply.stage.made < |m.routers|
    requires AllKnown(m.routers[m.lock.apply.stage.made].health) && !m.routers[m.lock.apply.stage.made].closed
    ensures var w := m.lock.apply.stage;
            && (CanMove(m, Observe) <==> m.routers[w.made].version > w.from)
            && (CanMove(m, Observe) ==> Moved(m, Observe) == AtStage(m, Ready(Some(w.made))))
            && (m.routers[w.made].knownAt.Some? && m.routers[w.made].knownAt.value > w.from ==> CanMove(m, Observe))
  {
    assert WakeupOk(m.routers[m.lock.apply.stage.made], m.lock.apply.stage.from, m.lock.apply.stage.seen);
    assert HealthOk(m.routers[m.lock.apply.stage.made]);
  }

  /** Waiting with nothing unseen on an open channel */
  predicate Blocked(m: Manager) {
    && m.lock.Held? && m.lock.apply.stage.Waiting? && m.lock.apply.stage.made < |m.routers|
    && m.routers[m.lock.apply.stage.made].version == m.lock.apply.stage.seen
    && !m.routers[m.lock.apply.stage.made].closed
  }

  /** The move that goes with the stage of the holder */
  function Due(m: Manager): Move
    requires m.lock.Held?
  {
    match m.lock.apply.stage
    case Start => Build
    case Built(_) => Subscribe
    case Waiting(r, _, seen) => if r < |m.routers| && m.routers[r].version == seen then HangUp else Observe
    case Ready(_) => Load
    case Loaded(_, _) => Store
    case Retiring(_) => CallStop
    case _ => FinishStop
  }

  /** The holder goes on exactly when it is not blocked in wait_healthchecks: nothing else can stop an apply. */
  lemma HolderGoesOn(s: State)
    requires Inv(s) && s.mgr.lock.Held?
    ensures Blocked(s.mgr) <==> !CanRelease(s) && forall move :: !CanMove(s.mgr, move)
  {
    var m := s.mgr;
    assert Exists(m, Prepared(m.lock)) && Exists(m, Replaced(m.lock));
    if !Blocked(m) {
      assert m.lock.apply.stage.Finished? || CanMove(m, Due(m));
    }
  }

  // ----- who can go on

  /** A step of the task itself that takes it further, or one of the apply that holds the lock */
  predicate Furthers(step: Step, t: TaskId) {
    || (step.Admin? && step.task == t && (step.act.ReadFile? || step.act.Acquire? || step.act.WriteFile?))
    || step.Advance?
    || step.Release?
  }

  ghost predicate Goes(s: State, step: Step, t: TaskId) {
    Furthers(step, t) && CanTake(s, step)
  }

  /** No deadlock: a task that has not ended can go on, or the one that holds the lock can, unless that is blocked. */
  lemma NoDeadlock(states: seq<State>, steps: seq<Step>, i: nat, t: TaskId)
    requires IsRun(states, steps) && i < |states| && t in states[i].tasks
    requires var task := states[i].tasks[t]; !task.Succeeded? && !task.Failed? && !task.Cancelled?
    ensures Blocked(states[i].mgr) || exists step :: Goes(states[i], step, t)
  {
    RunInv(states, steps, i);
    SomeoneGoes(states[i], t);
  }

  lemma SomeoneGoes(s: State, t: TaskId)
    requires Inv(s) && t in s.tasks && !s.tasks[t].Succeeded? && !s.tasks[t].Failed? && !s.tasks[t].Cancelled?
    ensures Blocked(s.mgr) || exists step :: Goes(s, step, t)
  {
    assert TaskOk(s, t, s.tasks[t]);
    if s.mgr.lock.Held? {
      HolderGoesOn(s);
      if CanRelease(s) {
        assert Goes(s, Release, t);
      } else if move :| CanMove(s.mgr, move) {
        assert Goes(s, Advance(move), t);
      }
    } else {
      match s.tasks[t]
      case Reading => assert Goes(s, Admin(t, ReadFile), t);
      case Locking(_) => assert Goes(s, Admin(t, Acquire), t);
      case Writing(_, _) => assert Goes(s, Admin(t, WriteFile(true)), t);
      case Detached(_, _) => assert Goes(s, Admin(t, WriteFile(true)), t);
      case _ =>
    }
  }

  /** Readers never wait: whoever holds the lock, a call that has not returned can take its next look. */
  lemma ReadersNeverWait(s: State, x: ReaderId)
    requires x in s.readers && !s.readers[x].ReturnedMain? && !s.readers[x].ReturnedFallback?
    ensures exists look :: CanTake(s, Read(x, look))
  {
    match s.readers[x]
    case Called(_) => assert CanTake(s, Read(x, LoadMain));
    case MainLoaded(_, _) => assert CanTake(s, Read(x, TestMain));
    case MainRejected(_, _) => assert CanTake(s, Read(x, LoadFallback));
  }

  function Unknowns(health: seq<TargetState>): nat {
    if health == [] then 0 else (if health[0] == Unknown then 1 else 0) + Unknowns(health[1..])
  }

  /** Twice the Unknown backends, plus one for an unseen version */
  function WaitMeasure(m: Manager): nat
    requires m.lock.Held? && m.lock.apply.stage.Waiting? && m.lock.apply.stage.made < |m.routers|
  {
    var w := m.lock.apply.stage;
    2 * Unknowns(m.routers[w.made].health) + (if m.routers[w.made].version != w.seen then 1 else 0)
  }

  lemma {:induction false} UnknownsFall(before: seq<TargetState>, after: seq<TargetState>)
    requires Evolves(before, after)
    ensures Unknowns(after) <= Unknowns(before)
    ensures (exists i :: 0 <= i < |after| && before[i] == Unknown && after[i] != Unknown) ==>
              Unknowns(after) < Unknowns(before)
  {
    if before != [] {
      assert Evolves(before[1..], after[1..]) by {
        assert forall i :: 0 <= i < |before| - 1 ==> before[1..][i] == before[i + 1] && after[1..][i] == after[i + 1];
      }
      UnknownsFall(before[1..], after[1..]);
      if exists i :: 0 <= i < |after| && before[i] == Unknown && after[i] != Unknown {
        var i :| 0 <= i < |after| && before[i] == Unknown && after[i] != Unknown;
        if i > 0 { assert before[1..][i - 1] == Unknown && after[1..][i - 1] != Unknown; }
      }
    }
  }

  /**
   A look that does not open the gate, and a publish that clears an Unknown, both bring the end
   nearer; a publish that clears none costs one more look.
   */
  lemma WaitMeasureFalls(m: Manager, health: seq<TargetState>)
    requires m.lock.Held? && m.lock.apply.stage.Waiting? && m.lock.apply.stage.made < |m.routers|
    ensures CanMove(m, Observe) && Moved(m, Observe).lock.apply.stage.Waiting? ==>
              WaitMeasure(Moved(m, Observe)) < WaitMeasure(m)
    ensures var o := m.routers[m.lock.apply.stage.made];
            Evolves(o.health, health)
            && (exists i :: 0 <= i < |health| && o.health[i] == Unknown && health[i] != Unknown) ==>
              WaitMeasure(DoPublish(m, m.lock.apply.stage.made, health)) < WaitMeasure(m)
    ensures Evolves(m.routers[m.lock.apply.stage.made].health, health) ==>
              WaitMeasure(DoPublish(m, m.lock.apply.stage.made, health)) <= WaitMeasure(m) + 1
  {
    var o := m.routers[m.lock.apply.stage.made];
    if Evolves(o.health, health) {
      UnknownsFall(o.health, health);
    }
  }
}
