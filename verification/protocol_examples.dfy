/** Runs showing that hypotheses of the theorems are needed. */
module ProtocolExamples {
  import opened Wrappers
  import opened Configs
  import opened Health
  import opened Protocol
  import opened ManagerInvariant
  import opened ProtocolTheorems
  import opened ProtocolReads

  /** Some run ends in `s`. */
  ghost predicate Reachable(s: State) {
    exists states, steps :: IsRun(states, steps) && states[|steps|] == s
  }

  lemma InitReachable(file: File)
    ensures Reachable(Init(file))
  {
    var states: seq<State>, steps: seq<Step> := [Init(file)], [];
    assert IsRun(states, steps) && states[|steps|] == Init(file);
  }

  lemma Reach(s: State, step: Step) returns (s': State)
    requires Reachable(s) && CanTake(s, step)
    ensures s' == Do(s, step).(now := s.now + 1) && Reachable(s')
  {
    var states, steps :| IsRun(states, steps) && states[|steps|] == s;
    s' := Do(s, step).(now := s.now + 1);
    var states', steps' := states + [s'], steps + [step];
    forall i | 0 <= i < |steps'| ensures NextAt(states', steps', i) {
      if i < |steps| {
        assert NextAt(states, steps, i);
      }
    }
    assert IsRun(states', steps') && states'[|steps'|] == s';
  }

  // ----- a health check that answers too early

  /**
   The subscription comes after the health checker was started. If every backend has answered
   by then and nothing more is published, the apply waits for ever with the lock held.
   */
  lemma EarlyAnswerBlocks(cfg: Config, view: View)
    requires Accepts(cfg) && SlotView(cfg, Main) == Some(view)
    ensures exists s: State ::
              && Reachable(s) && Blocked(s.mgr) && s.mgr.lock.apply.plan == PlanOf(cfg)
              && s.mgr.routers == [NewRouter(view).(
                   health := seq(|view.targets|, _ => Healthy), version := 1, knownAt := Some(1))]
  {
    InitReachable(Absent);
    var s1 := Reach(Init(Absent), Admin(0, Spawn(SetConfig(cfg))));
    var s2 := Reach(s1, Admin(0, Acquire));
    var s3 := Reach(s2, Advance(Build));
    assert s3.mgr.routers == [NewRouter(view)];
    var s := AnswersThenSubscribes(s3, view);
  }

  lemma AnswersThenSubscribes(s: State, view: View) returns (s': State)
    requires Reachable(s) && s.mgr.lock.Held? && s.mgr.lock.apply.stage == Built(0)
    requires s.mgr.routers == [NewRouter(view)] && view.targets != []
    ensures Reachable(s') && Blocked(s'.mgr) && s'.mgr.lock.apply.plan == s.mgr.lock.apply.plan
    ensures s'.mgr.routers == [NewRouter(view).(
              health := seq(|view.targets|, _ => Healthy), version := 1, knownAt := Some(1))]
  {
    assert NewRouter(view).health[0] == Unknown;
    var s1 := Reach(s, Around(Publish(0, seq(|view.targets|, _ => Healthy))));
    s' := Reach(s1, Advance(Subscribe));
  }

  // ----- an apply dropped half way

  /**
   An apply that is dropped while it waits for the health checks leaves the config of the upload
   with the slots of before: here the main slot is empty although the config has backends
   enabled, the lock is free, and a router nobody knows of goes on running.
   */
  lemma DroppedApplyTears(cfg: Config, view: View)
    requires Accepts(cfg) && SlotView(cfg, Main) == Some(view)
    ensures exists s: State ::
              && Reachable(s) && s.mgr.lock.Free? && s.mgr.config == cfg && s.mgr.main == None && !InStep(s.mgr)
              && s.tasks == map[0 := Cancelled] && s.mgr.leaked == {0} && Running(s.mgr) == {0}
  {
    InitReachable(Absent);
    var s1 := Reach(Init(Absent), Admin(0, Spawn(SetConfig(cfg))));
    var s2 := Reach(s1, Admin(0, Acquire));
    var s3 := Reach(s2, Advance(Build));
    assert s3.mgr.routers == [NewRouter(view)];
    var s := WaitsThenDrops(s3, view);
    assert HeldView(s.mgr, Main) == None;
  }

  lemma WaitsThenDrops(s: State, view: View) returns (s': State)
    requires Reachable(s) && s.mgr.lock.Held? && s.mgr.lock.apply.stage == Built(0) && s.mgr.lock.owner == 0
    requires s.mgr.routers == [NewRouter(view)] && s.mgr.leaked == {} && s.tasks.Keys == {0} && s.tasks[0].Applying?
    ensures Reachable(s') && s'.mgr.lock.Free? && s'.tasks == map[0 := Cancelled]
    ensures s'.mgr.leaked == {0} && Running(s'.mgr) == {0}
    ensures s'.mgr.config == s.mgr.config && s'.mgr.main == s.mgr.main
  {
    var s1 := Reach(s, Advance(Subscribe));
    s' := Reach(s1, Admin(0, Cancel));
    assert s'.tasks == map[0 := Cancelled];
  }

  // ----- a late writer

  /** No router anywhere, and nobody holds the lock */
  ghost predicate Idle(s: State) {
    s.mgr.lock.Free? && s.mgr.main == None && s.mgr.fallback == None
  }

  /** A slot that was empty and stays empty: build, load, store */
  lemma EmptySlot(s: State) returns (s': State)
    requires Reachable(s) && s.mgr.lock.Held? && s.mgr.lock.apply.stage == Start
    requires InSlot(s.mgr, s.mgr.lock.apply.slot) == None
    requires Wanted(s.mgr.lock.apply.plan, s.mgr.lock.apply.slot) == None
    ensures Reachable(s') && s' == s.(mgr := SlotDone(s.mgr), now := s.now + 3)
  {
    var s1 := Reach(s, Advance(Build));
    var s2 := Reach(s1, Advance(Load));
    assert s2.mgr.lock.apply.stage == Loaded(None, None);
    s' := Reach(s2, Advance(Store));
    assert s'.mgr == SlotDone(s.mgr);
  }

  /** An accepted config with nothing enabled */
  ghost predicate Quiet(cfg: Config) {
    Accepts(cfg) && PlanOf(cfg) == Plan(cfg, None, None)
  }

  lemma PutAsks(s: State, t: TaskId, cfg: Config) returns (s': State)
    requires Reachable(s) && t !in s.tasks && Accepts(cfg)
    ensures Reachable(s') && s' == WithTask(s, t, Locking(Write(cfg, true))).(now := s.now + 1)
  {
    assert FirstTask(ConfigPut(cfg)) == Locking(Write(cfg, true));
    s' := Reach(s, Admin(t, Spawn(ConfigPut(cfg))));
  }

  lemma PutStarts(s: State, t: TaskId, cfg: Config, plan: Plan) returns (s': State)
    requires Reachable(s) && s.mgr.lock.Free? && t in s.tasks && s.tasks[t] == Locking(Write(cfg, true))
    requires plan == PlanOf(cfg)
    ensures Reachable(s') && s'.file == s.file && s'.tasks == s.tasks[t := Applying(|s.log|)]
    ensures s'.mgr.lock == Held(t, Apply(plan, Main, Start, true)) && s'.mgr.config == cfg
    ensures s'.mgr.main == s.mgr.main && s'.mgr.fallback == s.mgr.fallback
  {
    s' := Reach(s, Admin(t, Acquire));
  }

  lemma PutEnds(s: State, t: TaskId) returns (s': State)
    requires Reachable(s) && s.mgr.lock.Held? && s.mgr.lock.owner == t && s.mgr.lock.apply.persist
    requires s.mgr.lock.apply.stage.Finished? && t in s.tasks && s.tasks[t].Applying?
    ensures Reachable(s') && s'.mgr == s.mgr.(lock := Free, torn := false) && s'.file == s.file
    ensures s'.tasks == s.tasks[t := Writing(s.mgr.config, |s.log|)]
  {
    var s1 := Reach(s, Release);
    assert s1.tasks[t] == Locking(Snapshot);
    s' := Reach(s1, Admin(t, Acquire));
  }

  /** config_put of a quiet config, up to the point where it is about to write the file */
  lemma PutQuiet(s: State, t: TaskId, cfg: Config) returns (s': State)
    requires Reachable(s) && Idle(s) && t !in s.tasks && Quiet(cfg)
    ensures Reachable(s') && Idle(s') && s'.mgr.config == cfg
    ensures exists at :: s'.tasks == s.tasks[t := Writing(cfg, at)]
  {
    var s0 := PutAsks(s, t, cfg);
    s' := QuietApply(s0, t, cfg, Plan(cfg, None, None));
    OneUpdate(s.tasks, s0.tasks, s'.tasks, t, Locking(Write(cfg, true)), cfg);
  }

  lemma OneUpdate(before: map<TaskId, Task>, asked: map<TaskId, Task>, after: map<TaskId, Task>,
                  t: TaskId, ask: Task, cfg: Config)
    requires asked == before[t := ask]
    requires exists at :: after == asked[t := Writing(cfg, at)]
    ensures exists at :: after == before[t := Writing(cfg, at)]
  {
    var at :| after == asked[t := Writing(cfg, at)];
    assert after == before[t := Writing(cfg, at)];
  }

  lemma QuietApply(s: State, t: TaskId, cfg: Config, plan: Plan) returns (s': State)
    requires Reachable(s) && Idle(s) && t in s.tasks && s.tasks[t] == Locking(Write(cfg, true))
    requires plan == PlanOf(cfg) && plan.main == None && plan.fallback == None
    ensures Reachable(s') && Idle(s') && s'.mgr.config == cfg
    ensures exists at :: s'.tasks == s.tasks[t := Writing(cfg, at)]
  {
    var s1 := PutStarts(s, t, cfg, plan);
    var s2 := EmptySlot(s1);
    var s3 := EmptySlot(s2);
    s' := PutEnds(s3, t);
    assert s'.tasks == s.tasks[t := Writing(cfg, |s3.log|)];
  }

  /**
   config_put writes the file after it has given up the lock. Two puts can both succeed and
   leave a file that holds the first config while the second is the one applied.
   */
  lemma LateWriterWins(one: Config, two: Config)
    requires Quiet(one) && Quiet(two) && one != two
    ensures exists s: State ::
              && Reachable(s) && Idle(s) && s.mgr.config == two && s.file == Holds(one) && s.file != Holds(s.mgr.config)
              && s.tasks.Keys == {0, 1} && s.tasks[0].Succeeded? && s.tasks[1].Succeeded?
  {
    InitReachable(Absent);
    var s1 := PutQuiet(Init(Absent), 0, one);
    var s2 := PutQuiet(s1, 1, two);
    var s4 := WritersEnd(s2, one, two);
    assert Reachable(s4) && Idle(s4);
  }

  lemma WritersEnd(s: State, one: Config, two: Config) returns (s': State)
    requires Reachable(s) && s.tasks.Keys == {0, 1}
    requires s.tasks[0].Writing? && s.tasks[0].snapshot == one && s.tasks[1].Writing? && s.tasks[1].snapshot == two
    ensures Reachable(s') && s'.mgr == s.mgr && s'.file == Holds(one)
    ensures s'.tasks.Keys == {0, 1} && s'.tasks[0].Succeeded? && s'.tasks[1].Succeeded?
  {
    var s1 := Reach(s, Admin(1, WriteFile(true)));
    s' := Reach(s1, Admin(0, WriteFile(true)));
  }

  /** There are such configs: two that differ in the strategy alone. */
  lemma StaleFileHappens()
    ensures exists s: State ::
              && Reachable(s) && Idle(s) && s.tasks.Keys == {0, 1} && s.tasks[0].Succeeded? && s.tasks[1].Succeeded?
              && s.file.Holds? && s.file.cfg != s.mgr.config
  {
    var one, two := DEFAULT_CONFIG, DEFAULT_CONFIG.(strategy := WeightedRoundRobin);
    EmptyIsQuiet(LeastOutstandingRequests);
    EmptyIsQuiet(WeightedRoundRobin);
    LateWriterWins(one, two);
  }

  lemma EmptyIsQuiet(strategy: Strategy)
    ensures Quiet(Config(strategy, [], None))
  {
    var c := Config(strategy, [], None);
    AcceptsIffNamesDiffer(c);
    assert Enabled([]) == [];
  }

  // ----- a read torn by an apply

  /** From state `since` on one look would always have found a router. */
  ghost predicate AlwaysServed(states: seq<State>, since: nat) {
    forall i :: since <= i < |states| ==> AtOnce(states[i].mgr).Some?
  }

  /** Some run ends in `s`, and it served one look from state `since` on. */
  ghost predicate ServedFrom(s: State, since: nat) {
    exists states, steps ::
      IsRun(states, steps) && states[|steps|] == s && s.now == |steps| && AlwaysServed(states, since)
  }

  lemma InitServed(file: File, since: nat)
    requires since > 0
    ensures ServedFrom(Init(file), since)
  {
    var states: seq<State>, steps: seq<Step> := [Init(file)], [];
    assert IsRun(states, steps) && states[|steps|] == Init(file);
  }

  lemma Go(s: State, since: nat, step: Step) returns (s': State)
    requires ServedFrom(s, since) && CanTake(s, step)
    requires s.now + 1 >= since ==> AtOnce(Do(s, step).mgr).Some?
    ensures s' == Do(s, step).(now := s.now + 1) && ServedFrom(s', since)
  {
    var states, steps :|
      IsRun(states, steps) && states[|steps|] == s && s.now == |steps| && AlwaysServed(states, since);
    s' := Do(s, step).(now := s.now + 1);
    var states', steps' := states + [s'], steps + [step];
    forall i | 0 <= i < |steps'| ensures NextAt(states', steps', i) {
      if i < |steps| {
        assert NextAt(states, steps, i);
      }
    }
    NowStays(s, step);
    assert IsRun(states', steps') && states'[|steps'|] == s' && s'.now == |steps'| && AlwaysServed(states', since);
  }

  lemma NowStays(s: State, step: Step)
    requires CanTake(s, step)
    ensures Do(s, step).now == s.now
  {
  }

  function HealthyRouter(view: View): Router {
    NewRouter(view).(health := seq(|view.targets|, _ => Healthy), version := 1, knownAt := Some(1))
  }

  /** Nobody reads yet for `n` more steps, or the fallback slot serves. */
  predicate Covered(s: State, since: nat, n: nat) {
    s.now + n < since || (s.mgr.main == None && s.mgr.fallback.Some?)
  }

  lemma GoMove(s: State, since: nat, move: Move, m: Manager) returns (s': State)
    requires ServedFrom(s, since) && CanMove(s.mgr, move) && m == Moved(s.mgr, move)
    requires s.now + 1 >= since ==> AtOnce(m).Some?
    ensures s' == s.(mgr := m, now := s.now + 1) && ServedFrom(s', since)
  {
    s' := Go(s, since, Advance(move));
  }

  /** The slot in work wants a router: build, subscribe, the answers come in, look. */
  lemma PrepareRouter(s: State, since: nat, view: View) returns (s': State)
    requires ServedFrom(s, since) && s.mgr.lock.Held? && s.mgr.lock.apply.stage == Start && Covered(s, since, 4)
    requires Wanted(s.mgr.lock.apply.plan, s.mgr.lock.apply.slot) == Some(view) && view.targets != []
    ensures ServedFrom(s', since)
    ensures s' == s.(mgr := WithReady(s.mgr, view), now := s.now + 4)
  {
    var s2 := BuildAndSubscribe(s, since, view);
    var s3 := AllAnswer(s2, since, view, s.mgr.routers);
    s' := LookReady(s3, since, s.mgr, view);
  }

  lemma LookReady(s: State, since: nat, m: Manager, view: View) returns (s': State)
    requires ServedFrom(s, since) && m.lock.Held? && Covered(s, since, 1)
    requires s.mgr == AtStage(m, Waiting(|m.routers|, 0, 0)).(routers := m.routers + [HealthyRouter(view)])
    ensures ServedFrom(s', since) && s' == s.(mgr := WithReady(m, view), now := s.now + 1)
  {
    s' := GoMove(s, since, Observe, WithReady(m, view));
  }

  lemma AllAnswer(s: State, since: nat, view: View, others: seq<Router>) returns (s': State)
    requires ServedFrom(s, since) && s.mgr.routers == others + [NewRouter(view)] && view.targets != []
    requires Covered(s, since, 1)
    ensures ServedFrom(s', since)
    ensures s' == s.(mgr := s.mgr.(routers := others + [HealthyRouter(view)]), now := s.now + 1)
  {
    assert NewRouter(view).health[0] == Unknown;
    s' := Go(s, since, Around(Publish(|others|, seq(|view.targets|, _ => Healthy))));
    assert s'.mgr.routers == others + [HealthyRouter(view)];
  }

  /** The new router is ready, and every one of its backends is Healthy. */
  function WithReady(m: Manager, view: View): Manager
    requires m.lock.Held?
  {
    AtStage(m, Ready(Some(|m.routers|))).(routers := m.routers + [HealthyRouter(view)])
  }

  lemma BuildAndSubscribe(s: State, since: nat, view: View) returns (s': State)
    requires ServedFrom(s, since) && s.mgr.lock.Held? && s.mgr.lock.apply.stage == Start && Covered(s, since, 2)
    requires Wanted(s.mgr.lock.apply.plan, s.mgr.lock.apply.slot) == Some(view)
    ensures ServedFrom(s', since)
    ensures s' == s.(mgr := AtStage(s.mgr, Waiting(|s.mgr.routers|, 0, 0))
                            .(routers := s.mgr.routers + [NewRouter(view)]), now := s.now + 2)
  {
    var s1 := GoMove(s, since, Build, DoBuild(s.mgr));
    s' := GoMove(s1, since, Subscribe, DoSubscribe(s1.mgr));
  }

  /** What a store of a ready router, or of None, makes of the manager */
  function WithNext(m: Manager, next: Option<RouterId>): Manager
    requires m.lock.Held? && (next.Some? ==> next.value < |m.routers|)
  {
    WithSlot(m, m.lock.apply.slot, next).(routers := Installed(m.routers, next))
  }

  /** Load and store: what was prepared goes into the slot. */
  lemma InstallReady(s: State, since: nat, next: Option<RouterId>) returns (s': State)
    requires ServedFrom(s, since) && s.mgr.lock.Held? && s.mgr.lock.apply.stage == Ready(next)
    requires next.Some? ==> next.value < |s.mgr.routers|
    requires s.now + 1 >= since ==> AtOnce(s.mgr).Some?
    requires s.now + 2 >= since ==> AtOnce(WithNext(s.mgr, next)).Some?
    ensures ServedFrom(s', since) && s' == s.(mgr := s'.mgr, now := s.now + 2)
    ensures s'.mgr == match InSlot(s.mgr, s.mgr.lock.apply.slot)
                      case Some(p) => AtStage(WithNext(s.mgr, next), Retiring(p))
                      case None => SlotDone(WithNext(s.mgr, next))
  {
    var m := DoLoad(s.mgr);
    var s1 := GoMove(s, since, Load, m);
    StoreServes(s.mgr, m, next);
    s' := GoMove(s1, since, Store, DoStore(m));
  }

  lemma StoreServes(m: Manager, loaded: Manager, next: Option<RouterId>)
    requires m.lock.Held? && m.lock.apply.stage == Ready(next) && loaded == DoLoad(m)
    requires next.Some? ==> next.value < |m.routers|
    ensures AtOnce(loaded) == AtOnce(m) && AtOnce(DoStore(loaded)) == AtOnce(WithNext(m, next))
    ensures DoStore(loaded) == match InSlot(m, m.lock.apply.slot)
                               case Some(p) => AtStage(WithNext(m, next), Retiring(p))
                               case None => SlotDone(WithNext(m, next))
  {
  }

  lemma SkipRouter(s: State, since: nat) returns (s': State)
    requires ServedFrom(s, since) && s.mgr.lock.Held? && s.mgr.lock.apply.stage == Start
    requires Wanted(s.mgr.lock.apply.plan, s.mgr.lock.apply.slot) == None
    requires s.now + 1 >= since ==> AtOnce(s.mgr).Some?
    ensures ServedFrom(s', since) && s' == s.(mgr := AtStage(s.mgr, Ready(None)), now := s.now + 1)
  {
    s' := Go(s, since, Advance(Build));
  }

  /** A task asks for a config and gets the lock. */
  lemma Uploads(s: State, since: nat, t: TaskId, cfg: Config, plan: Plan) returns (s': State)
    requires ServedFrom(s, since) && s.mgr.lock.Free? && t !in s.tasks && Accepts(cfg) && plan == PlanOf(cfg)
    requires s.now + 2 >= since ==> AtOnce(s.mgr).Some?
    ensures ServedFrom(s', since) && s'.now == s.now + 2 && s'.readers == s.readers
    ensures s'.mgr.lock == Held(t, Apply(plan, Main, Start, false))
    ensures s'.mgr.main == s.mgr.main && s'.mgr.fallback == s.mgr.fallback && s'.mgr.routers == s.mgr.routers
    ensures t in s'.tasks && s'.tasks[t].Applying? && s'.tasks.Keys == s.tasks.Keys + {t}
  {
    assert FirstTask(SetConfig(cfg)) == Locking(Write(cfg, false));
    var s1 := Go(s, since, Admin(t, Spawn(SetConfig(cfg))));
    s' := Go(s1, since, Admin(t, Acquire));
  }

  const SINCE: nat := 12

  /** Up to here: a config with fallback backends alone has been applied. */
  lemma FallbackServes(one: Config, view: View) returns (s: State)
    requires Accepts(one) && PlanOf(one) == Plan(one, None, Some(view)) && view.targets != []
    ensures ServedFrom(s, SINCE) && s.now == SINCE && s.mgr.lock.Free? && s.readers == map[] && s.tasks.Keys == {0}
    ensures s.mgr.main == None && s.mgr.fallback == Some(0) && |s.mgr.routers| == 1
  {
    InitServed(Absent, SINCE);
    var s1 := Uploads(Init(Absent), SINCE, 0, one, Plan(one, None, Some(view)));
    var s2 := SkipRouter(s1, SINCE);
    var s3 := InstallReady(s2, SINCE, None);
    var s4 := PrepareRouter(s3, SINCE, view);
    var s5 := InstallReady(s4, SINCE, Some(0));
    s := Go(s5, SINCE, Release);
  }

  /**
   get_backend_router can answer that there is no router although at every moment of the call
   one look would have found one: the reader finds the main slot empty, an apply then fills it
   and empties the fallback slot, and the reader looks there.
   */
  lemma TornRead(one: Config, oneView: View, two: Config, twoView: View)
    requires Accepts(one) && PlanOf(one) == Plan(one, None, Some(oneView)) && oneView.targets != []
    requires Accepts(two) && PlanOf(two) == Plan(two, Some(twoView), None) && twoView.targets != []
    ensures exists s: State ::
              && ServedFrom(s, SINCE) && 0 in s.readers && s.readers[0] == ReturnedFallback(SINCE, None)
  {
    var s1 := FallbackServes(one, oneView);
    var s2 := Go(s1, SINCE, Read(0, Begin));
    var s3 := Go(s2, SINCE, Read(0, LoadMain));
    var s4 := Go(s3, SINCE, Read(0, TestMain));
    assert s4.readers[0] == MainRejected(SINCE, None);
    var s5 := SwapsOver(s4, two, twoView);
    var s6 := Go(s5, SINCE, Read(0, LoadFallback));
    assert s6.readers[0] == ReturnedFallback(SINCE, None);
  }

  /** A config with main backends alone is applied over one with fallback backends alone, up to the second store. */
  lemma SwapsOver(s: State, two: Config, view: View) returns (s': State)
    requires ServedFrom(s, SINCE) && s.mgr.lock.Free? && 1 !in s.tasks
    requires s.mgr.main == None && s.mgr.fallback == Some(0) && |s.mgr.routers| == 1
    requires Accepts(two) && PlanOf(two) == Plan(two, Some(view), None) && view.targets != []
    ensures ServedFrom(s', SINCE) && s'.readers == s.readers
    ensures s'.mgr.fallback == None && AtOnce(s'.mgr).Some?
  {
    var s1 := Uploads(s, SINCE, 1, two, Plan(two, Some(view), None));
    var s2 := PrepareRouter(s1, SINCE, view);
    NowServes(s2.mgr, view);
    var s3 := InstallReady(s2, SINCE, Some(1));
    s' := EmptiesFallback(s3);
  }

  lemma EmptiesFallback(s: State) returns (s': State)
    requires ServedFrom(s, SINCE) && s.mgr.lock.Held? && s.mgr.lock.apply.stage == Start
    requires s.mgr.lock.apply.slot == Fallback && s.mgr.lock.apply.plan.fallback == None
    requires s.mgr.fallback.Some? && MainServes(s.mgr)
    ensures ServedFrom(s', SINCE) && s'.readers == s.readers && s'.mgr.fallback == None && AtOnce(s'.mgr).Some?
  {
    var s1 := SkipRouter(s, SINCE);
    s' := InstallReady(s1, SINCE, None);
  }

  /** There are such configs. */
  lemma TornReadHappens()
    ensures exists s: State :: ServedFrom(s, SINCE) && 0 in s.readers && s.readers[0] == ReturnedFallback(SINCE, None)
  {
    var b := BackendConf("b", Url("http", "b", "/"), true, 1);
    var one, two := Config(LeastOutstandingRequests, [], Some([b])), Config(LeastOutstandingRequests, [b], None);
    AcceptsIffNamesDiffer(one);
    AcceptsIffNamesDiffer(two);
    var view := ViewOfOne(b, LeastOutstandingRequests);
    TornRead(one, view, two, view);
  }

  lemma ViewOfOne(b: BackendConf, strategy: Strategy) returns (view: View)
    requires b.enabled
    ensures view.targets != []
    ensures PlanOf(Config(strategy, [], Some([b]))) == Plan(Config(strategy, [], Some([b])), None, Some(view))
    ensures PlanOf(Config(strategy, [b], None)) == Plan(Config(strategy, [b], None), Some(view), None)
  {
    assert [b][1..] == [] && Enabled([]) == [];
    assert Enabled([b]) == [b];
    view := View(strategy, Targets([b]));
  }

  lemma NowServes(m: Manager, view: View)
    requires m.lock.Held? && m.lock.apply.slot == Main
    requires |m.routers| == 2 && m.routers[1] == HealthyRouter(view) && view.targets != []
    ensures MainServes(WithNext(m, Some(1)))
  {
    assert WithNext(m, Some(1)).routers[1].health[0] == Healthy;
  }
}
