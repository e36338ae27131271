/**
 What the record kept of a router counts: its stores, its stops and its publishes are the steps
 of the run that store it, stop it and publish for it.
 */
module ProtocolLives {
  import opened Wrappers
  import opened Configs
  import opened Health
  import opened Protocol
  import opened ManagerInvariant
  import opened ProtocolInvariant

  /** What a step can do to one router */
  datatype Deed = Stores | CallsStop | EndsStop | Publishes | Closes

  predicate Does(s: State, step: Step, deed: Deed, r: RouterId) {
    match deed
    case Stores => step == Advance(Store) && s.mgr.lock.Held? && HasNext(s.mgr.lock.apply.stage, r)
    case CallsStop => step == Advance(CallStop) && s.mgr.lock.Held? && s.mgr.lock.apply.stage == Retiring(r)
    case EndsStop => step == Advance(FinishStop) && s.mgr.lock.Held? && s.mgr.lock.apply.stage == Stopping(r)
    case Publishes => PublishesFor(step, r)
    case Closes => step == Around(CloseWatch(r))
  }

  predicate PublishesFor(step: Step, r: RouterId) {
    step.Around? && step.change.Publish? && step.change.router == r
  }

  predicate HasNext(stage: Stage, r: RouterId) {
    stage.Loaded? && stage.next == Some(r)
  }

  /** How often the steps up to state i have done that to router r */
  function Times(states: seq<State>, steps: seq<Step>, i: nat, deed: Deed, r: RouterId): nat
    requires i <= |steps| < |states|
  {
    if i == 0 then 0
    else Times(states, steps, i - 1, deed, r) + (if Does(states[i - 1], steps[i - 1], deed, r) then 1 else 0)
  }

  /** The map published last for router r in the steps up to state i */
  function LastPublished(steps: seq<Step>, i: nat, r: RouterId): Option<seq<TargetState>>
    requires i <= |steps|
  {
    if i == 0 then None
    else if PublishesFor(steps[i - 1], r) then Some(steps[i - 1].change.health)
    else LastPublished(steps, i - 1, r)
  }

  function One(b: bool): nat {
    if b then 1 else 0
  }

  /** The record after a step, from the record before and what the step does to the router */
  ghost predicate Follows(o: Router, o': Router, s: State, step: Step, r: RouterId) {
    && o'.view == o.view
    && o'.installs == o.installs + One(Does(s, step, Stores, r))
    && o'.stopCalls == o.stopCalls + One(Does(s, step, CallsStop, r))
    && o'.stopped == (o.stopped || Does(s, step, EndsStop, r))
    && o'.version == o.version + One(Does(s, step, Publishes, r))
    && o'.closed == (o.closed || Does(s, step, Closes, r))
    && o'.health == if Does(s, step, Publishes, r) then step.change.health else o.health
  }

  lemma MoveFollows(s: State, move: Move, r: RouterId)
    requires CanMove(s.mgr, move) && r < |s.mgr.routers|
    ensures r < |Moved(s.mgr, move).routers|
    ensures Follows(s.mgr.routers[r], Moved(s.mgr, move).routers[r], s, Advance(move), r)
  {
    match move
    case Store => StoreFollows(s, r);
    case CallStop => StopFollows(s, move, r);
    case FinishStop => StopFollows(s, move, r);
    case _ => OtherFollows(s, move, r);
  }

  lemma StoreFollows(s: State, r: RouterId)
    requires CanMove(s.mgr, Store) && r < |s.mgr.routers|
    ensures |DoStore(s.mgr).routers| == |s.mgr.routers|
    ensures Follows(s.mgr.routers[r], DoStore(s.mgr).routers[r], s, Advance(Store), r)
  {
    StoreFields(s.mgr);
  }

  lemma StopFollows(s: State, move: Move, r: RouterId)
    requires CanMove(s.mgr, move) && (move.CallStop? || move.FinishStop?) && r < |s.mgr.routers|
    ensures |Moved(s.mgr, move).routers| == |s.mgr.routers|
    ensures Follows(s.mgr.routers[r], Moved(s.mgr, move).routers[r], s, Advance(move), r)
  {
  }

  lemma OtherFollows(s: State, move: Move, r: RouterId)
    requires CanMove(s.mgr, move) && !move.Store? && !move.CallStop? && !move.FinishStop? && r < |s.mgr.routers|
    ensures r < |Moved(s.mgr, move).routers|
    ensures Follows(s.mgr.routers[r], Moved(s.mgr, move).routers[r], s, Advance(move), r)
  {
  }

  lemma ChangeFollows(s: State, change: Change, r: RouterId)
    requires CanChange(s, change) && r < |s.mgr.routers|
    ensures r < |Changed(s, change).mgr.routers|
    ensures Follows(s.mgr.routers[r], Changed(s, change).mgr.routers[r], s, Around(change), r)
  {
  }

  lemma ActLeavesRouters(s: State, t: TaskId, act: Act)
    requires CanAct(s, t, act)
    ensures Acted(s, t, act).mgr.routers == s.mgr.routers
  {
  }

  lemma RouterStep(s: State, step: Step, s': State, r: RouterId)
    requires Next(s, step, s') && r < |s.mgr.routers|
    ensures r < |s'.mgr.routers| && Follows(s.mgr.routers[r], s'.mgr.routers[r], s, step, r)
  {
    match step
    case Admin(t, act) => ActLeavesRouters(s, t, act);
    case Advance(move) => MoveFollows(s, move, r);
    case Around(change) => ChangeFollows(s, change, r);
    case _ =>
  }

  ghost predicate Leaves(s: State, step: Step, r: RouterId) {
    forall deed :: !Does(s, step, deed, r)
  }

  /** Nothing is done to a router before it is built. */
  lemma UnbuiltStep(s: State, step: Step, s': State, r: RouterId)
    requires Next(s, step, s') && r >= |s.mgr.routers|
    ensures Leaves(s, step, r)
    ensures r < |s'.mgr.routers| ==> Fresh(s'.mgr.routers[r])
  {
    match step
    case Admin(t, act) => ActLeavesRouters(s, t, act);
    case Advance(move) => UnbuiltMove(s.mgr, move, r);
    case _ =>
  }

  lemma UnbuiltMove(m: Manager, move: Move, r: RouterId)
    requires CanMove(m, move) && r >= |m.routers|
    ensures r < |Moved(m, move).routers| ==> Fresh(Moved(m, move).routers[r])
  {
  }

  ghost predicate Fresh(o: Router) {
    && o.installs == 0 && o.stopCalls == 0 && !o.stopped && o.version == 0 && !o.closed
    && AllUnknown(o)
  }

  /** The record of router r is what the run has done to it. */
  ghost predicate Recorded(states: seq<State>, steps: seq<Step>, i: nat, r: RouterId, o: Router)
    requires i <= |steps| < |states|
  {
    && o.installs == Times(states, steps, i, Stores, r)
    && o.stopCalls == Times(states, steps, i, CallsStop, r)
    && (o.stopped <==> Times(states, steps, i, EndsStop, r) > 0)
    && o.version == Times(states, steps, i, Publishes, r)
    && (o.closed <==> Times(states, steps, i, Closes, r) > 0)
    && (match LastPublished(steps, i, r)
        case Some(health) => o.health == health
        case None => AllUnknown(o))
  }

  ghost predicate Untouched(states: seq<State>, steps: seq<Step>, i: nat, r: RouterId)
    requires i <= |steps| < |states|
  {
    (forall deed :: Times(states, steps, i, deed, r) == 0) && LastPublished(steps, i, r) == None
  }

  /**
   At every state of every run the record of a router counts the steps: it was stored, told to
   stop and published for as often as it says; it is stopped or closed if a step has made it so;
   and its health is what was published last, or all Unknown when nothing was.
   */
  lemma {:induction false} RecordIsSteps(states: seq<State>, steps: seq<Step>, i: nat, r: RouterId)
    requires IsRun(states, steps) && i < |states|
    ensures if r < |states[i].mgr.routers| then Recorded(states, steps, i, r, states[i].mgr.routers[r])
            else Untouched(states, steps, i, r)
  {
    if i > 0 {
      RecordIsSteps(states, steps, i - 1, r);
      RunNext(states, steps, i - 1);
      if r < |states[i - 1].mgr.routers| {
        RouterStep(states[i - 1], steps[i - 1], states[i], r);
        RecordedNext(states, steps, i, r, states[i - 1].mgr.routers[r], states[i].mgr.routers[r]);
      } else {
        UnbuiltStep(states[i - 1], steps[i - 1], states[i], r);
        UntouchedNext(states, steps, i, r);
      }
    }
  }

  lemma RecordedNext(states: seq<State>, steps: seq<Step>, i: nat, r: RouterId, o: Router, o': Router)
    requires 0 < i <= |steps| < |states| && Recorded(states, steps, i - 1, r, o)
    requires Follows(o, o', states[i - 1], steps[i - 1], r)
    ensures Recorded(states, steps, i, r, o')
  {
  }

  lemma UntouchedNext(states: seq<State>, steps: seq<Step>, i: nat, r: RouterId)
    requires 0 < i <= |steps| < |states| && Untouched(states, steps, i - 1, r)
    requires Leaves(states[i - 1], steps[i - 1], r)
    ensures Untouched(states, steps, i, r)
  {
    assert !Does(states[i - 1], steps[i - 1], Publishes, r);
    assert LastPublished(steps, i, r) == LastPublished(steps, i - 1, r);
    forall deed ensures Times(states, steps, i, deed, r) == 0 {
      assert !Does(states[i - 1], steps[i - 1], deed, r) && Times(states, steps, i - 1, deed, r) == 0;
    }
  }

  // ----- the steps behind a count

  /** Between two states the count grows by the steps in between, and only by them. */
  lemma {:induction false} TimesGrow(states: seq<State>, steps: seq<Step>, a: nat, b: nat, deed: Deed, r: RouterId)
    requires a <= b <= |steps| < |states|
    ensures Times(states, steps, a, deed, r) <= Times(states, steps, b, deed, r)
    ensures Times(states, steps, a, deed, r) < Times(states, steps, b, deed, r) <==>
            exists k :: a <= k < b && Does(states[k], steps[k], deed, r)
    decreases b
  {
    if a < b {
      TimesGrow(states, steps, a, b - 1, deed, r);
      if Does(states[b - 1], steps[b - 1], deed, r) {
        assert a <= b - 1 < b;
      }
    }
  }
}
