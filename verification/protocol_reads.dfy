/**
 Calls of get_backend_router, which takes no lock: what their results were, and when one look
 would have given the same.
 */
module ProtocolReads {
  import opened Wrappers
  import opened Configs
  import opened Health
  import opened Protocol
  import opened ManagerInvariant
  import opened ProtocolInvariant
  import opened ProtocolLives

  ghost predicate MainAt(states: seq<State>, k: nat, main: Option<RouterId>) {
    k < |states| && states[k].mgr.main == main
  }

  ghost predicate FallbackAt(states: seq<State>, k: nat, fallback: Option<RouterId>) {
    k < |states| && states[k].mgr.fallback == fallback
  }

  ghost predicate HealthyAt(states: seq<State>, k: nat, r: RouterId) {
    && k < |states| && r < |states[k].mgr.routers|
    && exists i :: 0 <= i < |states[k].mgr.routers[r].health| && states[k].mgr.routers[r].health[i] == Healthy
  }

  /** The main slot held `main` at some moment after `since`, and was found useless at a later one. */
  ghost predicate RejectedBy(states: seq<State>, since: nat, main: Option<RouterId>, k: nat) {
    && k < |states|
    && (main.Some? ==> !HealthyAt(states, k, main.value))
    && exists j :: since <= j <= k && MainAt(states, j, main)
  }

  /** What a reader has in hand is what the slots and the health showed at moments of its call, in order. */
  ghost predicate Justified(states: seq<State>, rd: Reader) {
    match rd
    case Called(since) => since < |states|
    case MainLoaded(since, main) => exists j :: since <= j && MainAt(states, j, main)
    case MainRejected(since, main) => exists k :: since <= k && RejectedBy(states, since, main, k)
    case ReturnedMain(since, r) =>
      exists j, k :: since <= j <= k && MainAt(states, j, Some(r)) && HealthyAt(states, k, r)
    case ReturnedFallback(since, result) =>
      exists main, k, l :: since <= k <= l && RejectedBy(states, since, main, k) && FallbackAt(states, l, result)
  }

  lemma JustifiedLater(states: seq<State>, s: State, rd: Reader)
    requires Justified(states, rd)
    ensures Justified(states + [s], rd)
  {
    var more := states + [s];
    match rd
    case Called(_) =>
    case MainLoaded(since, main) =>
      var j :| since <= j && MainAt(states, j, main);
      assert MainAt(more, j, main);
    case MainRejected(since, main) =>
      var k :| since <= k && RejectedBy(states, since, main, k);
      RejectedLater(states, s, since, main, k);
    case ReturnedMain(since, r) =>
      var j, k :| since <= j <= k && MainAt(states, j, Some(r)) && HealthyAt(states, k, r);
      assert MainAt(more, j, Some(r)) && HealthyAt(more, k, r);
    case ReturnedFallback(since, result) =>
      var main, k, l :| since <= k <= l && RejectedBy(states, since, main, k) && FallbackAt(states, l, result);
      RejectedLater(states, s, since, main, k);
      assert FallbackAt(more, l, result);
  }

  lemma RejectedLater(states: seq<State>, s: State, since: nat, main: Option<RouterId>, k: nat)
    requires RejectedBy(states, since, main, k)
    ensures RejectedBy(states + [s], since, main, k)
  {
    var j :| since <= j <= k && MainAt(states, j, main);
    assert MainAt(states + [s], j, main);
  }

  /** One step of the reader itself, taken in the last state */
  lemma LookJustified(states: seq<State>, s: State, x: ReaderId, look: Look)
    requires |states| > 0 && s == states[|states| - 1] && s.now == |states| - 1
    requires CanLook(s, x, look) && (x in s.readers ==> Justified(states, s.readers[x]))
    requires x in s.readers ==> s.readers[x].since <= s.now
    ensures Justified(states, Looked(s, x, look)) && Looked(s, x, look).since <= s.now
    ensures Looked(s, x, look).since == if look.Begin? then s.now else s.readers[x].since
  {
    var n := |states| - 1;
    match look
    case Begin =>
    case LoadMain => assert MainAt(states, n, s.mgr.main);
    case TestMain =>
      var rd := s.readers[x];
      var j :| rd.since <= j && MainAt(states, j, rd.main);
      if rd.main.Some? && HasHealthy(s.mgr, rd.main.value) {
        assert HealthyAt(states, n, rd.main.value);
      } else {
        assert RejectedBy(states, rd.since, rd.main, n);
      }
    case LoadFallback =>
      var rd := s.readers[x];
      var k :| rd.since <= k && RejectedBy(states, rd.since, rd.main, k);
      assert FallbackAt(states, n, s.mgr.fallback);
  }

  lemma ReadersStep(s: State, step: Step, s': State)
    requires Next(s, step, s')
    ensures s'.now == s.now + 1
    ensures !step.Read? ==> s'.readers == s.readers
  {
  }

  /**
   get_backend_router takes no lock and makes two loads and a health test at different moments.
   Still, in every run, what it returns stood in its slot at some moment since the step at which
   the call began; a main
   result had a healthy node when tested; a fallback or None result means that the main router
   it had loaded was absent or had no healthy node when tested.
   */
  lemma {:induction false} ReadersJustified(states: seq<State>, steps: seq<Step>, x: ReaderId)
    requires IsRun(states, steps)
    ensures var s := states[|states| - 1];
            && s.now == |states| - 1
            && (x in s.readers ==>
                  && Justified(states, s.readers[x]) && s.readers[x].since < s.now
                  && steps[s.readers[x].since] == Read(x, Begin))
    decreases |steps|
  {
    if steps != [] {
      var n := |steps| - 1;
      var before, s, step, s' := states[..n + 1], states[n], steps[n], states[n + 1];
      RunNext(states, steps, n);
      RunPrefix(states, steps, n);
      ReadersJustified(before, steps[..n], x);
      ReadersStep(s, step, s');
      assert states == before + [s'];
      if x in s'.readers {
        if step.Read? && step.reader == x {
          LookJustified(before, s, x, step.look);
        }
        JustifiedLater(before, s', s'.readers[x]);
      }
    }
  }

  lemma RunPrefix(states: seq<State>, steps: seq<Step>, n: nat)
    requires IsRun(states, steps) && n <= |steps|
    ensures IsRun(states[..n + 1], steps[..n])
  {
    var before, moves := states[..n + 1], steps[..n];
    forall i | 0 <= i < |moves| ensures NextAt(before, moves, i) {
      assert NextAt(states, steps, i);
    }
  }

  // ----- one look

  predicate MainServes(m: Manager) {
    && m.main.Some? && m.main.value < |m.routers|
    && exists i :: 0 <= i < |m.routers[m.main.value].health| && m.routers[m.main.value].health[i] == Healthy
  }

  /** What the call would return if it looked at everything at once */
  function AtOnce(m: Manager): Option<RouterId> {
    if MainServes(m) then m.main else m.fallback
  }

  /**
   The three looks of a call are three moments. A call that ends with the fallback slot returns
   what one look at that last moment would have given exactly when the main router of that moment,
   by then maybe another than the one it rejected, has no healthy node.
   */
  lemma LastLookIff(states: seq<State>, steps: seq<Step>, i: nat, x: ReaderId)
    requires IsRun(states, steps) && i < |steps| && steps[i] == Read(x, LoadFallback)
    ensures x in states[i + 1].readers && states[i + 1].readers[x].ReturnedFallback?
    ensures states[i + 1].readers[x].result == AtOnce(states[i].mgr) <==> !MainServes(states[i].mgr)
  {
    RunNext(states, steps, i);
    RunInv(states, steps, i);
    FallbackLook(states[i], states[i + 1], x);
  }

  lemma FallbackLook(s: State, s': State, x: ReaderId)
    requires Next(s, Read(x, LoadFallback), s') && RolesDiffer(s.mgr)
    ensures x in s'.readers && s'.readers[x].ReturnedFallback?
    ensures s'.readers[x].result == AtOnce(s.mgr) <==> !MainServes(s.mgr)
  {
  }

  /** Router r was stored, and is not in the fallback slot. */
  ghost predicate OnceMain(m: Manager, r: RouterId) {
    r < |m.routers| && m.routers[r].installs > 0 && m.fallback != Some(r)
  }

  /** As it was stored before, it is not stored again. */
  lemma OnceMainStep(s: State, step: Step, s': State, r: RouterId)
    requires LivesOk(s.mgr) && Next(s, step, s') && OnceMain(s.mgr, r)
    ensures OnceMain(s'.mgr, r)
  {
    RouterStep(s, step, s', r);
    if step == Advance(Store) {
      var n := s.mgr.lock.apply.stage.next;
      StoreFields(s.mgr);
      if n == Some(r) {
        assert Fits(s.mgr.routers[r], RoleOf(s.mgr, r));
      }
    } else {
      SlotsLeft(s, step, s');
    }
  }

  lemma SlotsLeft(s: State, step: Step, s': State)
    requires Next(s, step, s') && step != Advance(Store)
    ensures s'.mgr.main == s.mgr.main && s'.mgr.fallback == s.mgr.fallback
  {
    match step
    case Admin(t, act) => ActLeavesSlots(s, t, act);
    case Advance(move) => MoveLeavesSlots(s.mgr, move);
    case _ =>
  }

  lemma ActLeavesSlots(s: State, t: TaskId, act: Act)
    requires CanAct(s, t, act)
    ensures Acted(s, t, act).mgr.main == s.mgr.main && Acted(s, t, act).mgr.fallback == s.mgr.fallback
  {
  }

  lemma MoveLeavesSlots(m: Manager, move: Move)
    requires CanMove(m, move) && !move.Store?
    ensures Moved(m, move).main == m.main && Moved(m, move).fallback == m.fallback
  {
  }

  ghost predicate HasLoaded(s: State, x: ReaderId, r: RouterId) {
    x in s.readers && s.readers[x].MainLoaded? && s.readers[x].main == Some(r)
  }

  lemma ServingIsOnceMain(m: Manager, r: RouterId)
    requires LivesOk(m) && m.main == Some(r)
    ensures OnceMain(m, r)
  {
    assert Fits(m.routers[r], RoleOf(m, r));
  }

  /** What a reader has loaded from the main slot never turns up in the fallback slot. */
  lemma {:induction false} LoadedIsOnceMain(states: seq<State>, steps: seq<Step>, i: nat, x: ReaderId, r: RouterId)
    requires IsRun(states, steps) && i < |states| && HasLoaded(states[i], x, r)
    ensures OnceMain(states[i].mgr, r)
    decreases i
  {
    assert i > 0;
    RunNext(states, steps, i - 1);
    RunInv(states, steps, i - 1);
    LoadingStep(states[i - 1], steps[i - 1], states[i], x, r);
    if HasLoaded(states[i - 1], x, r) {
      LoadedIsOnceMain(states, steps, i - 1, x, r);
    } else {
      ServingIsOnceMain(states[i - 1].mgr, r);
    }
    OnceMainStep(states[i - 1], steps[i - 1], states[i], r);
  }

  lemma LoadingStep(s: State, step: Step, s': State, x: ReaderId, r: RouterId)
    requires Next(s, step, s') && HasLoaded(s', x, r)
    ensures HasLoaded(s, x, r) || s.mgr.main == Some(r)
  {
    ReadersStep(s, step, s');
  }

  /**
   A call that ends with the main router it had loaded returns what one look at the moment of
   the health test would have given exactly when that router is still in the slot.
   */
  lemma TestIff(states: seq<State>, steps: seq<Step>, i: nat, x: ReaderId)
    requires IsRun(states, steps) && i < |steps| && steps[i] == Read(x, TestMain)
    requires x in states[i + 1].readers && states[i + 1].readers[x].ReturnedMain?
    ensures var r := states[i + 1].readers[x].router;
            Some(r) == AtOnce(states[i].mgr) <==> states[i].mgr.main == Some(r)
  {
    RunNext(states, steps, i);
    var r := states[i + 1].readers[x].router;
    MainLook(states[i], states[i + 1], x);
    LoadedIsOnceMain(states, steps, i, x, r);
  }

  lemma MainLook(s: State, s': State, x: ReaderId)
    requires Next(s, Read(x, TestMain), s') && x in s'.readers && s'.readers[x].ReturnedMain?
    ensures HasLoaded(s, x, s'.readers[x].router) && HasHealthy(s.mgr, s'.readers[x].router)
  {
  }

  // ----- the health test, told by what was published

  /** In the map published last for router r some backend is Healthy. */
  ghost predicate PublishedHealthy(steps: seq<Step>, i: nat, r: RouterId) {
    && i <= |steps| && LastPublished(steps, i, r).Some?
    && exists k :: 0 <= k < |LastPublished(steps, i, r).value| && LastPublished(steps, i, r).value[k] == Healthy
  }

  /**
   The health test lets the loaded main router through exactly when there is one and the map
   published last for it has a Healthy backend; a Degraded or an Unknown one does not do.
   */
  lemma TestTells(states: seq<State>, steps: seq<Step>, i: nat, x: ReaderId)
    requires IsRun(states, steps) && i < |steps| && steps[i] == Read(x, TestMain)
    ensures x in states[i].readers && states[i].readers[x].MainLoaded? && x in states[i + 1].readers
    ensures var rd := states[i].readers[x];
            states[i + 1].readers[x] == if rd.main.Some? && PublishedHealthy(steps, i, rd.main.value)
                                        then ReturnedMain(rd.since, rd.main.value)
                                        else MainRejected(rd.since, rd.main)
  {
    RunNext(states, steps, i);
    TestStep(states[i], states[i + 1], x);
    var main := states[i].readers[x].main;
    if main.Some? {
      LoadedIsOnceMain(states, steps, i, x, main.value);
      RecordIsSteps(states, steps, i, main.value);
    }
  }

  lemma TestStep(s: State, s': State, x: ReaderId)
    requires Next(s, Read(x, TestMain), s')
    ensures x in s.readers && s.readers[x].MainLoaded? && x in s'.readers
    ensures s'.readers[x] == DoTestMain(s.mgr, s.readers[x])
  {
  }
}
