/** Properties of a run that relate several of its states: the swap of routers and the wait. */
module ProtocolTraces {
  import opened Wrappers
  import opened Configs
  import opened Health
  import opened Protocol
  import opened ManagerInvariant
  import opened ProtocolInvariant
  import opened ProtocolLives
  import opened ProtocolTheorems

  // ----- the swap

  /** Task t takes the free lock in the step after state a and holds it up to state b. */
  ghost predicate HoldsThroughout(states: seq<State>, a: nat, b: nat, t: TaskId) {
    && a < b < |states|
    && states[a].mgr.lock.Free?
    && forall i :: a < i <= b ==> states[i].mgr.lock.Held? && states[i].mgr.lock.owner == t
  }

  /** The main slot switches once, at km, the fallback slot once, at kf, not earlier. */
  ghost predicate SwitchesOnce(states: seq<State>, a: nat, b: nat, km: nat, kf: nat) {
    && a < b < |states| && a < km <= kf <= b + 1
    && (forall i :: a <= i <= b ==> states[i].mgr.main == states[if i < km then a else b].mgr.main)
    && (forall i :: a <= i <= b ==> states[i].mgr.fallback == states[if i < kf then a else b].mgr.fallback)
  }

  /** What a step of an apply can do to the slots: nothing, or switch the next one */
  ghost predicate SlotStep(m: Manager, m': Manager)
    requires m.lock.Held? && m'.lock.Held?
  {
    var a, a' := m.lock.apply, m'.lock.apply;
    || (&& m'.main == m.main && m'.fallback == m.fallback
        && MainStored(a') == MainStored(a) && BothStored(a') == BothStored(a))
    || (!MainStored(a) && MainStored(a') && !BothStored(a') && m'.fallback == m.fallback)
    || (MainStored(a) && !BothStored(a) && MainStored(a') && BothStored(a') && m'.main == m.main)
  }

  lemma MoveSlotStep(m: Manager, move: Move)
    requires CanMove(m, move)
    ensures Moved(m, move).lock.Held? && SlotStep(m, Moved(m, move))
  {
    if move.Store? { StoreFields(m); }
  }

  lemma OtherSlotStep(s: State, step: Step, s': State)
    requires Next(s, step, s') && !step.Advance?
    requires s.mgr.lock.Held? && s'.mgr.lock.Held?
    ensures s'.mgr.lock == s.mgr.lock && s'.mgr.main == s.mgr.main && s'.mgr.fallback == s.mgr.fallback
  {
  }

  lemma HeldStep(s: State, step: Step, s': State)
    requires Next(s, step, s') && s.mgr.lock.Held? && s'.mgr.lock.Held?
    ensures SlotStep(s.mgr, s'.mgr)
  {
    if step.Advance? {
      MoveSlotStep(s.mgr, step.move);
    } else {
      OtherSlotStep(s, step, s');
    }
  }

  lemma TakenStep(s: State, step: Step, s': State)
    requires Next(s, step, s') && s.mgr.lock.Free? && s'.mgr.lock.Held?
    ensures s'.mgr.main == s.mgr.main && s'.mgr.fallback == s.mgr.fallback
    ensures !MainStored(s'.mgr.lock.apply) && !BothStored(s'.mgr.lock.apply)
  {
  }

  /** While an apply holds the lock each slot shows the old router, then the new one; main goes first. */
  lemma {:induction false} SwapOnce(states: seq<State>, steps: seq<Step>, a: nat, b: nat, t: TaskId)
    returns (km: nat, kf: nat)
    requires IsRun(states, steps) && HoldsThroughout(states, a, b, t)
    ensures SwitchesOnce(states, a, b, km, kf)
    ensures km <= b <==> MainStored(states[b].mgr.lock.apply)
    ensures kf <= b <==> BothStored(states[b].mgr.lock.apply)
    decreases b
  {
    if b == a + 1 {
      SwapStarts(states, steps, a, t);
      km, kf := b + 1, b + 1;
    } else {
      km, kf := SwapOnce(states, steps, a, b - 1, t);
      SwapGoesOn(states, steps, b);
      km, kf := ExtendSwap(states, a, b, km, kf);
    }
  }

  lemma SwapStarts(states: seq<State>, steps: seq<Step>, a: nat, t: TaskId)
    requires IsRun(states, steps) && HoldsThroughout(states, a, a + 1, t)
    ensures SwitchesOnce(states, a, a + 1, a + 2, a + 2)
    ensures !MainStored(states[a + 1].mgr.lock.apply) && !BothStored(states[a + 1].mgr.lock.apply)
  {
    RunNext(states, steps, a);
    TakenStep(states[a], steps[a], states[a + 1]);
  }

  lemma SwapGoesOn(states: seq<State>, steps: seq<Step>, b: nat)
    requires IsRun(states, steps) && 0 < b < |states|
    requires states[b - 1].mgr.lock.Held? && states[b].mgr.lock.Held?
    ensures SlotStep(states[b - 1].mgr, states[b].mgr)
  {
    RunNext(states, steps, b - 1);
    HeldStep(states[b - 1], steps[b - 1], states[b]);
  }

  lemma ExtendSwap(states: seq<State>, a: nat, b: nat, km0: nat, kf0: nat) returns (km: nat, kf: nat)
    requires a + 1 < b < |states| && SwitchesOnce(states, a, b - 1, km0, kf0)
    requires states[b - 1].mgr.lock.Held? && states[b].mgr.lock.Held?
    requires km0 <= b - 1 <==> MainStored(states[b - 1].mgr.lock.apply)
    requires kf0 <= b - 1 <==> BothStored(states[b - 1].mgr.lock.apply)
    requires SlotStep(states[b - 1].mgr, states[b].mgr)
    ensures SwitchesOnce(states, a, b, km, kf)
    ensures km <= b <==> MainStored(states[b].mgr.lock.apply)
    ensures kf <= b <==> BothStored(states[b].mgr.lock.apply)
  {
    var now := states[b].mgr.lock.apply;
    km := if km0 == b && !MainStored(now) then b + 1 else km0;
    kf := if kf0 == b && !BothStored(now) then b + 1 else kf0;
  }

  /** A slot with backends enabled before and after an apply is never None during it. */
  lemma SwapWithoutGap(states: seq<State>, steps: seq<Step>, a: nat, b: nat, t: TaskId, i: nat, slot: Slot)
    requires IsRun(states, steps) && HoldsThroughout(states, a, b, t) && a <= i <= b
    requires InSlot(states[a].mgr, slot).Some?
    requires SlotView(states[b].mgr.config, slot).Some?
    ensures InSlot(states[i].mgr, slot).Some?
  {
    var km, kf := SwapOnce(states, steps, a, b, t);
    RunInv(states, steps, b);
    var m := states[b].mgr;
    assert Current(m) in m.history && Planned(Current(m));
    assert Wanted(Current(m), slot) == SlotView(m.config, slot);
    assert (if slot == Main then km else kf) <= b ==> Agrees(m, slot) && HeldView(m, slot).Some?;
  }

  // ----- the wait

  ghost predicate WaitsFor(m: Manager, r: RouterId) {
    m.lock.Held? && m.lock.apply.stage.Waiting? && m.lock.apply.stage.made == r && r < |m.routers|
  }

  function Looks(steps: seq<Step>): nat {
    if steps == [] then 0
    else Looks(steps[..|steps| - 1]) + (if steps[|steps| - 1] == Advance(Observe) then 1 else 0)
  }

  function SeenBy(m: Manager): nat {
    if m.lock.Held? && m.lock.apply.stage.Waiting? then m.lock.apply.stage.seen else 0
  }

  /** While the wait goes on, only a look moves what has been seen, and it moves it forward. */
  lemma WaitStep(s: State, step: Step, s': State, r: RouterId)
    requires MgrInv(s.mgr) && Next(s, step, s') && WaitsFor(s.mgr, r) && WaitsFor(s'.mgr, r)
    ensures SeenBy(s'.mgr) >= SeenBy(s.mgr) + (if step == Advance(Observe) then 1 else 0)
  {
    assert StageOk(s.mgr, s.mgr.lock.apply);
    if !step.Advance? {
      OtherSlotStep(s, step, s');
    }
  }

  lemma WaitStepAt(states: seq<State>, steps: seq<Step>, b: nat, r: RouterId)
    requires IsRun(states, steps) && 0 < b < |states|
    requires WaitsFor(states[b - 1].mgr, r) && WaitsFor(states[b].mgr, r)
    ensures SeenBy(states[b].mgr) >= SeenBy(states[b - 1].mgr) + (if steps[b - 1] == Advance(Observe) then 1 else 0)
  {
    RunNext(states, steps, b - 1);
    RunInv(states, steps, b - 1);
    WaitStep(states[b - 1], steps[b - 1], states[b], r);
  }

  lemma {:induction false} LooksMoveOn(states: seq<State>, steps: seq<Step>, a: nat, b: nat, r: RouterId)
    requires IsRun(states, steps) && a <= b < |states|
    requires forall i :: a <= i <= b ==> WaitsFor(states[i].mgr, r)
    ensures SeenBy(states[a].mgr) + Looks(steps[a..b]) <= SeenBy(states[b].mgr)
    decreases b
  {
    if a < b {
      LooksMoveOn(states, steps, a, b - 1, r);
      WaitStepAt(states, steps, b, r);
      assert steps[a..b][..b - a - 1] == steps[a..b - 1];
    }
  }

  /** No busy waiting: the loop looks at most once for each version published since it last looked. */
  lemma LooksBounded(states: seq<State>, steps: seq<Step>, a: nat, b: nat, r: RouterId)
    requires IsRun(states, steps) && a <= b < |states|
    requires forall i :: a <= i <= b ==> WaitsFor(states[i].mgr, r)
    ensures WaitsFor(states[b].mgr, r)
            && Looks(steps[a..b]) <= states[b].mgr.routers[r].version - SeenBy(states[a].mgr)
  {
    LooksMoveOn(states, steps, a, b, r);
    RunInv(states, steps, b);
    assert StageOk(states[b].mgr, states[b].mgr.lock.apply);
  }

  /** Waiting for router r, with every state known and something published since the subscription */
  ghost predicate Opening(m: Manager, r: RouterId) {
    && WaitsFor(m, r) && m.routers[r].version > m.lock.apply.stage.from
    && forall n :: 0 <= n < |m.routers[r].health| ==> m.routers[r].health[n] != Unknown
  }

  /** Router r has been built, and nobody is about to wait or waiting for it. */
  ghost predicate WaitOver(m: Manager, r: RouterId) {
    && r < |m.routers|
    && (m.lock.Held? && (m.lock.apply.stage.Built? || m.lock.apply.stage.Waiting?) ==> m.lock.apply.stage.made != r)
  }

  lemma MoveOpening(m: Manager, move: Move, r: RouterId)
    requires CanMove(m, move) && (Opening(m, r) || WaitOver(m, r))
    ensures WaitOver(Moved(m, move), r)
  {
  }

  lemma ActOpening(s: State, t: TaskId, act: Act, r: RouterId)
    requires CanAct(s, t, act) && (Opening(s.mgr, r) || WaitOver(s.mgr, r))
    ensures (Opening(s.mgr, r) && Acted(s, t, act).mgr == s.mgr) || WaitOver(Acted(s, t, act).mgr, r)
  {
  }

  lemma ChangeOpening(s: State, change: Change, r: RouterId)
    requires CanChange(s, change)
    ensures Opening(s.mgr, r) ==> Opening(Changed(s, change).mgr, r)
    ensures WaitOver(s.mgr, r) ==> WaitOver(Changed(s, change).mgr, r)
  {
  }

  lemma OpeningStep(s: State, step: Step, s': State, r: RouterId)
    requires Next(s, step, s') && (Opening(s.mgr, r) || WaitOver(s.mgr, r))
    ensures WaitOver(s'.mgr, r) || (Opening(s.mgr, r) && Opening(s'.mgr, r))
  {
    match step
    case Admin(t, act) => ActOpening(s, t, act, r);
    case Advance(move) => MoveOpening(s.mgr, move, r);
    case Around(change) => ChangeOpening(s, change, r);
    case _ =>
  }

  /** A wait that has opened and is still going on can end with its next look. */
  lemma OpeningLooks(m: Manager, r: RouterId)
    requires MgrInv(m) && Opening(m, r)
    ensures CanMove(m, Observe) && Moved(m, Observe) == AtStage(m, Ready(Some(r)))
  {
    assert WakeupOk(m.routers[r], m.lock.apply.stage.from, m.lock.apply.stage.seen);
    assert HealthOk(m.routers[r]);
  }

  /**
   Once every backend is known and something was published after the subscription, then whatever
   else is published, closed or dropped: at every later moment either the wait is over, for good,
   or its next look is enabled and lets the router through.
   */
  lemma {:induction false} GateStaysOpen(states: seq<State>, steps: seq<Step>, a: nat, b: nat, r: RouterId)
    requires IsRun(states, steps) && a <= b < |states| && Opening(states[a].mgr, r)
    ensures var m := states[b].mgr;
            || WaitOver(m, r)
            || (Opening(m, r) && CanMove(m, Observe) && Moved(m, Observe) == AtStage(m, Ready(Some(r))))
    ensures forall i :: a <= i <= b && WaitOver(states[i].mgr, r) ==> WaitOver(states[b].mgr, r)
    decreases b
  {
    if a < b {
      GateStaysOpen(states, steps, a, b - 1, r);
      RunNext(states, steps, b - 1);
      OpeningStep(states[b - 1], steps[b - 1], states[b], r);
    }
    RunInv(states, steps, b);
    if !WaitOver(states[b].mgr, r) { OpeningLooks(states[b].mgr, r); }
  }

  lemma FromStep(s: State, step: Step, s': State, r: RouterId)
    requires Next(s, step, s') && WaitsFor(s.mgr, r) && WaitsFor(s'.mgr, r)
    ensures s'.mgr.lock.apply.stage.from == s.mgr.lock.apply.stage.from
  {
    if !step.Advance? {
      OtherSlotStep(s, step, s');
    }
  }

  /** Step k subscribed to router r, and the wait has been going on up to state i. */
  ghost predicate WaitsSince(states: seq<State>, steps: seq<Step>, k: nat, i: nat, r: RouterId) {
    && k < i < |states| && |steps| == |states| - 1 && steps[k] == Advance(Subscribe)
    && forall j :: k < j <= i ==> WaitsFor(states[j].mgr, r)
  }

  lemma SubscribeStep(s: State, s': State, r: RouterId)
    requires Next(s, Advance(Subscribe), s') && WaitsFor(s'.mgr, r)
    ensures s'.mgr.lock.apply.stage.from == s'.mgr.routers[r].version
  {
  }

  /** The version noted at the subscription is the number of publishes up to then. */
  lemma {:induction false} FromIsTimes(states: seq<State>, steps: seq<Step>, k: nat, i: nat, r: RouterId)
    requires IsRun(states, steps) && WaitsSince(states, steps, k, i, r)
    ensures states[i].mgr.lock.apply.stage.from == Times(states, steps, k + 1, Publishes, r)
    decreases i
  {
    RunNext(states, steps, i - 1);
    if i == k + 1 {
      SubscribeStep(states[k], states[i], r);
      RecordIsSteps(states, steps, i, r);
    } else {
      FromIsTimes(states, steps, k, i - 1, r);
      FromStep(states[i - 1], steps[i - 1], states[i], r);
    }
  }

  /**
   Told by the steps of the run: with every state known and the channel open, the wait gets
   through exactly when some step since the subscription has published for its router.
   */
  lemma GateOpensIffPublishStep(states: seq<State>, steps: seq<Step>, k: nat, i: nat, r: RouterId)
    requires IsRun(states, steps) && WaitsSince(states, steps, k, i, r) && !ClosedBefore(steps, i, r)
    requires forall n :: 0 <= n < |states[i].mgr.routers[r].health| ==> states[i].mgr.routers[r].health[n] != Unknown
    ensures CanMove(states[i].mgr, Observe) <==> exists j :: k < j < i && PublishesFor(steps[j], r)
    ensures CanMove(states[i].mgr, Observe) ==>
              Moved(states[i].mgr, Observe) == AtStage(states[i].mgr, Ready(Some(r)))
  {
    RunInv(states, steps, i);
    FromIsTimes(states, steps, k, i, r);
    RecordIsSteps(states, steps, i, r);
    ClosedIff(states, steps, i, r);
    PublishedBetween(states, steps, k + 1, i, r);
    GateOpensIffPublishedSince(states[i].mgr);
  }

  lemma PublishedBetween(states: seq<State>, steps: seq<Step>, a: nat, b: nat, r: RouterId)
    requires a <= b <= |steps| < |states|
    ensures Times(states, steps, b, Publishes, r) > Times(states, steps, a, Publishes, r) <==>
            exists j :: a <= j < b && PublishesFor(steps[j], r)
  {
    TimesGrow(states, steps, a, b, Publishes, r);
    if j :| a <= j < b && PublishesFor(steps[j], r) {
      assert Does(states[j], steps[j], Publishes, r);
    }
    if j :| a <= j < b && Does(states[j], steps[j], Publishes, r) {
      assert PublishesFor(steps[j], r);
    }
  }
}
