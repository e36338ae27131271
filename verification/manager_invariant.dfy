/** What every step of an apply keeps of the config, the two slots and the routers. */
module ManagerInvariant {
  import opened Wrappers
  import opened Configs
  import opened Health
  import opened Protocol

  // ----- what the slots hold

  ghost predicate Exists(m: Manager, r: Option<RouterId>) {
    r.Some? ==> r.value < |m.routers|
  }

  /** What the router in a slot was built from */
  function HeldView(m: Manager, slot: Slot): Option<View> {
    match InSlot(m, slot)
    case None => None
    case Some(r) => if r < |m.routers| then Some(m.routers[r].view) else None
  }

  function Current(m: Manager): Plan
    requires |m.history| > 0
  {
    m.history[|m.history| - 1]
  }

  /** The slot holds exactly what the current config asks for. */
  ghost predicate Agrees(m: Manager, slot: Slot)
    requires |m.history| > 0
  {
    HeldView(m, slot) == Wanted(Current(m), slot)
  }

  /** `cfg` has been the config at some moment. */
  ghost predicate WasCurrent(m: Manager, cfg: Config) {
    exists p :: p in m.history && p.cfg == cfg
  }

  /** The slot holds what some config of the past asked for. */
  ghost predicate OnceWanted(m: Manager, slot: Slot) {
    exists p :: p in m.history && Wanted(p, slot) == HeldView(m, slot)
  }

  /** A plan made from an accepted config */
  ghost predicate Planned(p: Plan) {
    p == PlanOf(p.cfg) && UniqueNames(p.cfg)
  }

  ghost predicate HistoryOk(m: Manager) {
    && |m.history| > 0 && Current(m).cfg == m.config
    && forall p {:trigger Planned(p)} :: p in m.history ==> Planned(p)
  }

  predicate MainStored(a: Apply) {
    a.slot == Fallback || a.stage.Retiring? || a.stage.Stopping? || a.stage.Finished?
  }

  /** How far the slots agree with the config, whoever holds the lock */
  ghost predicate SlotsOk(m: Manager) {
    && |m.history| > 0
    && OnceWanted(m, Main) && OnceWanted(m, Fallback)
    && (m.lock.Free? && !m.torn ==> Agrees(m, Main) && Agrees(m, Fallback))
    && (m.lock.Held? && MainStored(m.lock.apply) ==> Agrees(m, Main))
    && (m.lock.Held? && BothStored(m.lock.apply) ==> Agrees(m, Fallback))
  }

  /** The router about to be installed is the one the plan asks for. */
  ghost predicate NextOk(m: Manager, a: Apply, next: Option<RouterId>) {
    && Exists(m, next)
    && Wanted(a.plan, a.slot) == (if next.None? then None else Some(m.routers[next.value].view))
  }

  /** No publish after the subscription goes unseen: either one is still to be seen, or none has come. */
  ghost predicate WakeupOk(o: Router, from: nat, seen: nat) {
    && from <= seen <= o.version
    && (o.knownAt.Some? ==> seen < o.knownAt.value || (o.knownAt.value <= from && seen == from))
  }

  ghost predicate StageOk(m: Manager, a: Apply) {
    match a.stage
    case Built(r) => NextOk(m, a, Some(r))
    case Waiting(r, from, seen) => NextOk(m, a, Some(r)) && WakeupOk(m.routers[r], from, seen)
    case Ready(n) => NextOk(m, a, n)
    case Loaded(n, p) => NextOk(m, a, n) && p == InSlot(m, a.slot)
    case Finished => a.slot == Fallback
    case _ => true
  }

  ghost predicate HolderOk(m: Manager) {
    m.lock.Held? ==> |m.history| > 0 && m.lock.apply.plan == Current(m) && StageOk(m, m.lock.apply)
  }

  // ----- the lives of routers

  /** The router being prepared for the slot in work */
  function Prepared(lock: Lock): Option<RouterId> {
    if lock.Free? then None
    else
      match lock.apply.stage
      case Built(r) => Some(r)
      case Waiting(r, _, _) => Some(r)
      case Ready(n) => n
      case Loaded(n, _) => n
      case _ => None
  }

  /** The router just replaced, until its stop has been awaited */
  function Replaced(lock: Lock): Option<RouterId> {
    if lock.Free? then None
    else
      match lock.apply.stage
      case Retiring(r) => Some(r)
      case Stopping(r) => Some(r)
      case _ => None
  }

  datatype Role = Serving | Preparing | Retired | Ending | Adrift | Gone

  function RoleOf(m: Manager, r: RouterId): Role {
    if m.main == Some(r) || m.fallback == Some(r) then Serving
    else if Prepared(m.lock) == Some(r) then Preparing
    else if Replaced(m.lock) == Some(r) then (if m.lock.apply.stage.Retiring? then Retired else Ending)
    else if r in m.leaked then Adrift
    else Gone
  }

  /** The counters of a router are those of its role: stored once, then stopped once. */
  ghost predicate Fits(o: Router, role: Role) {
    match role
    case Serving => o.installs == 1 && o.stopCalls == 0 && !o.stopped
    case Preparing => o.installs == 0 && o.stopCalls == 0 && !o.stopped
    case Retired => o.installs == 1 && o.stopCalls == 0 && !o.stopped
    case Ending => o.installs == 1 && o.stopCalls == 1 && !o.stopped
    case Adrift => o.installs <= 1 && o.stopCalls == o.installs && !o.stopped
    case Gone => o.installs == 1 && o.stopCalls == 1 && o.stopped
  }

  /** No router has two roles. */
  ghost predicate RolesDiffer(m: Manager) {
    && Exists(m, m.main) && Exists(m, m.fallback) && Exists(m, Prepared(m.lock)) && Exists(m, Replaced(m.lock))
    && (m.main.Some? ==> m.main != m.fallback && m.main != Prepared(m.lock) && m.main != Replaced(m.lock)
                         && m.main.value !in m.leaked)
    && (m.fallback.Some? ==> m.fallback != Prepared(m.lock) && m.fallback != Replaced(m.lock)
                             && m.fallback.value !in m.leaked)
    && (Prepared(m.lock).Some? ==> Prepared(m.lock).value !in m.leaked)
    && (Replaced(m.lock).Some? ==> Replaced(m.lock).value !in m.leaked)
    && (forall r :: r in m.leaked ==> r < |m.routers|)
  }

  ghost predicate LivesOk(m: Manager) {
    && RolesDiffer(m)
    && forall r :: 0 <= r < |m.routers| ==> Fits(m.routers[r], RoleOf(m, r))
  }

  // ----- the health gate

  /** The router has passed wait_healthchecks. */
  predicate PastGate(m: Manager, r: RouterId) {
    || m.main == Some(r)
    || m.fallback == Some(r)
    || Replaced(m.lock) == Some(r)
    || (Prepared(m.lock) == Some(r) && !m.lock.apply.stage.Built? && !m.lock.apply.stage.Waiting?)
  }

  ghost predicate HealthOk(o: Router) {
    && |o.health| == |o.view.targets| > 0
    && (o.knownAt.Some? <==> AllKnown(o.health))
    && (o.knownAt.Some? ==> 0 < o.knownAt.value <= o.version)
  }

  /** Nothing is Unknown, unless the checker went away. */
  ghost predicate Vetted(o: Router) {
    AllKnown(o.health) || o.closed
  }

  ghost predicate GateOk(m: Manager) {
    && (forall r :: 0 <= r < |m.routers| ==> HealthOk(m.routers[r]))
    && (forall r :: 0 <= r < |m.routers| && PastGate(m, r) ==> Vetted(m.routers[r]))
  }

  ghost predicate MgrInv(m: Manager) {
    HistoryOk(m) && SlotsOk(m) && HolderOk(m) && LivesOk(m) && GateOk(m)
  }

  // ----- shared by the step lemmas

  lemma OnceWantedKept(m: Manager, m': Manager, slot: Slot)
    requires OnceWanted(m, slot) && HeldView(m', slot) == HeldView(m, slot)
    requires m.history <= m'.history
    ensures OnceWanted(m', slot)
  {
    var p :| p in m.history && Wanted(p, slot) == HeldView(m, slot);
    assert p in m'.history;
  }

  /** Building routers and counting on them does not change what the slots hold. */
  ghost predicate SameViews(m: Manager, m': Manager) {
    && m'.main == m.main && m'.fallback == m.fallback && m'.history == m.history && m'.config == m.config
    && |m.routers| <= |m'.routers|
    && forall r :: 0 <= r < |m.routers| ==> m'.routers[r].view == m.routers[r].view
  }

  lemma ViewsKept(m: Manager, m': Manager)
    requires SameViews(m, m') && Exists(m, m.main) && Exists(m, m.fallback)
    ensures HeldView(m', Main) == HeldView(m, Main) && HeldView(m', Fallback) == HeldView(m, Fallback)
  {
  }

  /** A step that leaves both slots alone and does not claim more about them keeps SlotsOk. */
  lemma SlotsKept(m: Manager, m': Manager)
    requires SlotsOk(m) && SameViews(m, m') && Exists(m, m.main) && Exists(m, m.fallback)
    requires m.lock.Held? && m'.lock.Held?
    requires MainStored(m'.lock.apply) ==> MainStored(m.lock.apply)
    requires BothStored(m'.lock.apply) ==> BothStored(m.lock.apply)
    ensures SlotsOk(m')
  {
    ViewsKept(m, m');
    OnceWantedKept(m, m', Main);
    OnceWantedKept(m, m', Fallback);
  }

  // ----- steps that only move the holder on

  ghost predicate MovesTo(m: Manager, stage: Stage) {
    && m.lock.Held?
    && var a := m.lock.apply.(stage := stage);
    && StageOk(m, a)
    && (MainStored(a) ==> MainStored(m.lock.apply))
    && (BothStored(a) ==> BothStored(m.lock.apply))
    && Prepared(AtStage(m, stage).lock) == Prepared(m.lock)
    && Replaced(AtStage(m, stage).lock) == Replaced(m.lock) == None
    && (Prepared(m.lock).Some? && !stage.Built? && !stage.Waiting? ==>
          Prepared(m.lock).value < |m.routers| && Vetted(m.routers[Prepared(m.lock).value]))
  }

  lemma MoveLives(m: Manager, stage: Stage)
    requires LivesOk(m) && MovesTo(m, stage)
    ensures LivesOk(AtStage(m, stage))
  {
    forall r | 0 <= r < |m.routers| ensures Fits(m.routers[r], RoleOf(AtStage(m, stage), r)) {
      assert RoleOf(AtStage(m, stage), r) == RoleOf(m, r);
    }
  }

  lemma MoveGate(m: Manager, stage: Stage)
    requires GateOk(m) && MovesTo(m, stage)
    ensures GateOk(AtStage(m, stage))
  {
    var m' := AtStage(m, stage);
    forall r | 0 <= r < |m.routers| && PastGate(m', r) ensures Vetted(m.routers[r]) {
      assert PastGate(m, r) || Prepared(m.lock) == Some(r);
    }
  }

  lemma MoveHolder(m: Manager, stage: Stage)
    requires HolderOk(m) && MovesTo(m, stage)
    ensures HolderOk(AtStage(m, stage))
  {
    var m' := AtStage(m, stage);
    assert StageOk(m, m'.lock.apply);
    assert InSlot(m', m.lock.apply.slot) == InSlot(m, m.lock.apply.slot);
  }

  lemma MoveKeeps(m: Manager, stage: Stage)
    requires MgrInv(m) && MovesTo(m, stage)
    ensures MgrInv(AtStage(m, stage))
  {
    SlotsKept(m, AtStage(m, stage));
    MoveHolder(m, stage);
    MoveLives(m, stage);
    MoveGate(m, stage);
  }

  lemma SubscribeKeeps(m: Manager)
    requires MgrInv(m) && m.lock.Held? && m.lock.apply.stage.Built?
    ensures m.lock.apply.stage.made < |m.routers| && MgrInv(DoSubscribe(m))
  {
    var r := m.lock.apply.stage.made;
    assert HealthOk(m.routers[r]);
    MoveKeeps(m, Waiting(r, m.routers[r].version, m.routers[r].version));
  }

  lemma ObserveKeeps(m: Manager)
    requires MgrInv(m) && m.lock.Held? && m.lock.apply.stage.Waiting?
    ensures m.lock.apply.stage.made < |m.routers| && MgrInv(DoObserve(m))
  {
    var w := m.lock.apply.stage;
    var r := m.routers[w.made];
    assert HealthOk(r);
    MoveKeeps(m, if AllKnown(r.health) then Ready(Some(w.made)) else w.(seen := r.version));
  }

  lemma HangUpKeeps(m: Manager)
    requires MgrInv(m) && m.lock.Held? && m.lock.apply.stage.Waiting? && m.lock.apply.stage.made < |m.routers|
    requires m.routers[m.lock.apply.stage.made].closed
    ensures MgrInv(AtStage(m, Ready(Some(m.lock.apply.stage.made))))
  {
    MoveKeeps(m, Ready(Some(m.lock.apply.stage.made)));
  }

  lemma LoadKeeps(m: Manager)
    requires MgrInv(m) && m.lock.Held? && m.lock.apply.stage.Ready?
    ensures MgrInv(DoLoad(m))
  {
    if Prepared(m.lock).Some? {
      assert PastGate(m, Prepared(m.lock).value);
    }
    MoveKeeps(m, Loaded(m.lock.apply.stage.next, InSlot(m, m.lock.apply.slot)));
  }

  // ----- building a router

  /** A wanted view has at least one target, so a new router starts with an Unknown. */
  lemma NewRouterHealth(m: Manager)
    requires HistoryOk(m) && m.lock.Held? && m.lock.apply.plan == Current(m)
    ensures var w := Wanted(m.lock.apply.plan, m.lock.apply.slot); w.Some? ==> HealthOk(NewRouter(w.value))
  {
    var a := m.lock.apply;
    var w := Wanted(a.plan, a.slot);
    assert a.plan in m.history && Planned(a.plan);
    assert w == SlotView(a.plan.cfg, a.slot);
    if w.Some? {
      assert NewRouter(w.value).health[0] == Unknown;
    }
  }

  lemma BuildLives(m: Manager)
    requires LivesOk(m) && m.lock.Held? && m.lock.apply.stage.Start?
    ensures LivesOk(DoBuild(m))
  {
    var m' := DoBuild(m);
    forall r | 0 <= r < |m'.routers| ensures Fits(m'.routers[r], RoleOf(m', r)) {
      assert r < |m.routers| ==> RoleOf(m', r) == RoleOf(m, r);
    }
  }

  lemma BuildGate(m: Manager)
    requires GateOk(m) && RolesDiffer(m) && m.lock.Held? && m.lock.apply.stage.Start?
    requires var w := Wanted(m.lock.apply.plan, m.lock.apply.slot); w.Some? ==> HealthOk(NewRouter(w.value))
    ensures GateOk(DoBuild(m))
  {
    var m' := DoBuild(m);
    forall r | 0 <= r < |m'.routers| && PastGate(m', r) ensures Vetted(m'.routers[r]) {
      assert PastGate(m, r);
    }
  }

  lemma BuildHolder(m: Manager)
    requires HolderOk(m) && m.lock.Held? && m.lock.apply.stage.Start?
    ensures HolderOk(DoBuild(m))
  {
    assert DoBuild(m).lock.apply.plan == m.lock.apply.plan;
  }

  lemma BuildKeeps(m: Manager)
    requires MgrInv(m) && m.lock.Held? && m.lock.apply.stage.Start?
    ensures MgrInv(DoBuild(m))
    ensures var wanted, routers := Wanted(m.lock.apply.plan, m.lock.apply.slot), DoBuild(m).routers;
            && m.routers <= routers && (wanted.None? ==> routers == m.routers)
            && (wanted.Some? ==>
                  && |routers| == |m.routers| + 1 && routers[|m.routers|].view == wanted.value
                  && routers[|m.routers|].installs == 0 && AllUnknown(routers[|m.routers|]))
  {
    SlotsKept(m, DoBuild(m));
    BuildHolder(m);
    BuildLives(m);
    NewRouterHealth(m);
    BuildGate(m);
  }

  ghost predicate AllUnknown(o: Router) {
    |o.health| == |o.view.targets| && forall i :: 0 <= i < |o.health| ==> o.health[i] == Unknown
  }

  // ----- storing a router

  ghost predicate AtStore(m: Manager) {
    m.lock.Held? && m.lock.apply.stage.Loaded? && Exists(m, m.lock.apply.stage.next)
  }

  function Other(slot: Slot): Slot {
    match slot
    case Main => Fallback
    case Fallback => Main
  }

  /** What a store changes, field by field */
  ghost predicate Stored(m: Manager, m': Manager)
    requires AtStore(m)
  {
    var a, l := m.lock.apply, m.lock.apply.stage;
    && m'.history == m.history && m'.config == m.config && m'.torn == m.torn && m'.leaked == m.leaked
    && m'.routers == Installed(m.routers, l.next)
    && InSlot(m', a.slot) == l.next && InSlot(m', Other(a.slot)) == InSlot(m, Other(a.slot))
    && m'.lock.Held? && m'.lock.apply.plan == a.plan
    && Prepared(m'.lock) == None && Replaced(m'.lock) == l.prev
    && (l.prev.Some? ==> m'.lock.apply.stage.Retiring?)
    && MainStored(m'.lock.apply) && (BothStored(m'.lock.apply) <==> a.slot == Fallback)
    && (m'.lock.apply.stage.Finished? ==> m'.lock.apply.slot == Fallback)
  }

  lemma StoreFields(m: Manager)
    requires AtStore(m)
    ensures Stored(m, DoStore(m))
  {
  }

  lemma StoreViews(m: Manager, m': Manager)
    requires AtStore(m) && Stored(m, m') && HolderOk(m) && RolesDiffer(m)
    ensures HeldView(m', m.lock.apply.slot) == Wanted(m.lock.apply.plan, m.lock.apply.slot)
    ensures HeldView(m', Other(m.lock.apply.slot)) == HeldView(m, Other(m.lock.apply.slot))
  {
    assert NextOk(m, m.lock.apply, m.lock.apply.stage.next);
  }

  lemma StoreSlots(m: Manager, m': Manager)
    requires AtStore(m) && Stored(m, m') && HolderOk(m) && RolesDiffer(m) && SlotsOk(m)
    ensures SlotsOk(m')
  {
    StoreViews(m, m');
    assert Current(m) in m.history;
    OnceWantedKept(m, m', Other(m.lock.apply.slot));
    assert OnceWanted(m', m.lock.apply.slot);
  }

  lemma StoreRoles(m: Manager, m': Manager)
    requires AtStore(m) && Stored(m, m') && HolderOk(m) && RolesDiffer(m)
    ensures RolesDiffer(m')
  {
    assert m.lock.apply.stage.prev == InSlot(m, m.lock.apply.slot);
    assert Prepared(m.lock) == m.lock.apply.stage.next;
  }

  lemma StoreLives(m: Manager, m': Manager)
    requires AtStore(m) && Stored(m, m') && HolderOk(m) && LivesOk(m)
    ensures LivesOk(m')
  {
    StoreRoles(m, m');
    forall r | 0 <= r < |m'.routers| ensures Fits(m'.routers[r], RoleOf(m', r)) {
      StoreLife(m, m', r);
    }
  }

  lemma StoreLife(m: Manager, m': Manager, r: RouterId)
    requires AtStore(m) && Stored(m, m') && HolderOk(m) && RolesDiffer(m) && RolesDiffer(m')
    requires r < |m.routers| && Fits(m.routers[r], RoleOf(m, r))
    ensures r < |m'.routers| && Fits(m'.routers[r], RoleOf(m', r))
  {
    var l := m.lock.apply.stage;
    assert l.prev == InSlot(m, m.lock.apply.slot) && Prepared(m.lock) == l.next;
    if l.next == Some(r) {
      assert RoleOf(m, r) == Preparing && RoleOf(m', r) == Serving;
    } else if l.prev == Some(r) {
      assert RoleOf(m, r) == Serving && RoleOf(m', r) == Retired;
    } else {
      assert RoleOf(m', r) == RoleOf(m, r);
    }
  }

  lemma StoreGate(m: Manager, m': Manager)
    requires AtStore(m) && Stored(m, m') && HolderOk(m) && RolesDiffer(m) && GateOk(m)
    ensures GateOk(m')
  {
    assert m.lock.apply.stage.prev == InSlot(m, m.lock.apply.slot);
    forall r | 0 <= r < |m'.routers| ensures HealthOk(m'.routers[r]) && (PastGate(m', r) ==> Vetted(m'.routers[r])) {
      assert HealthOk(m.routers[r]) && (PastGate(m', r) ==> PastGate(m, r));
    }
  }

  lemma StoreKeeps(m: Manager)
    requires MgrInv(m) && AtStore(m)
    ensures MgrInv(DoStore(m))
  {
    var m' := DoStore(m);
    StoreFields(m);
    StoreSlots(m, m');
    StoreLives(m, m');
    StoreGate(m, m');
    assert HolderOk(m');
  }

  // ----- stopping the old router

  /** A step that counts on one router and moves the holder on without preparing or storing anything */
  lemma CountLives(m: Manager, m': Manager, r: RouterId)
    requires LivesOk(m) && r < |m.routers| && |m'.routers| == |m.routers|
    requires m'.main == m.main && m'.fallback == m.fallback && m'.leaked == m.leaked
    requires Prepared(m.lock) == Prepared(m'.lock) == None && Replaced(m.lock) == Some(r)
    requires Replaced(m'.lock) == Some(r) || Replaced(m'.lock) == None
    requires forall q :: 0 <= q < |m.routers| && q != r ==> m'.routers[q] == m.routers[q]
    requires Fits(m'.routers[r], RoleOf(m', r))
    ensures LivesOk(m')
  {
    forall q | 0 <= q < |m'.routers| ensures Fits(m'.routers[q], RoleOf(m', q)) {
      assert Fits(m.routers[q], RoleOf(m, q));
      assert q != r ==> RoleOf(m', q) == RoleOf(m, q);
    }
  }

  lemma CountGate(m: Manager, m': Manager)
    requires GateOk(m) && |m'.routers| == |m.routers|
    requires forall q :: 0 <= q < |m.routers| ==>
               m'.routers[q].health == m.routers[q].health && m'.routers[q].view == m.routers[q].view
               && m'.routers[q].closed == m.routers[q].closed && m'.routers[q].version == m.routers[q].version
               && m'.routers[q].knownAt == m.routers[q].knownAt
    requires forall q :: PastGate(m', q) ==> PastGate(m, q)
    ensures GateOk(m')
  {
    forall q | 0 <= q < |m'.routers| ensures HealthOk(m'.routers[q]) {
      assert HealthOk(m.routers[q]);
    }
  }

  /** What calling or awaiting `stop` changes, field by field */
  ghost predicate Counted(m: Manager, m': Manager, r: RouterId) {
    && SameViews(m, m') && |m'.routers| == |m.routers| && m'.leaked == m.leaked
    && m.lock.Held? && MainStored(m.lock.apply) && Prepared(m.lock) == None && Replaced(m.lock) == Some(r)
    && m'.lock.Held? && m'.lock.apply.plan == m.lock.apply.plan && StageOk(m', m'.lock.apply)
    && (BothStored(m'.lock.apply) ==> BothStored(m.lock.apply))
    && Prepared(m'.lock) == None && (Replaced(m'.lock) == Some(r) || Replaced(m'.lock) == None)
    && forall q :: 0 <= q < |m.routers| ==>
         m'.routers[q] == if q == r
                          then m.routers[q].(stopCalls := m'.routers[q].stopCalls, stopped := m'.routers[q].stopped)
                          else m.routers[q]
  }

  lemma CountKeeps(m: Manager, m': Manager, r: RouterId)
    requires MgrInv(m) && r < |m.routers| && Counted(m, m', r)
    requires Fits(m'.routers[r], RoleOf(m', r))
    ensures MgrInv(m')
  {
    SlotsKept(m, m');
    CountLives(m, m', r);
    CountGate(m, m');
  }

  lemma CallStopKeeps(m: Manager)
    requires MgrInv(m) && m.lock.Held? && m.lock.apply.stage.Retiring?
    ensures m.lock.apply.stage.gone < |m.routers| && MgrInv(DoCallStop(m))
  {
    var r := m.lock.apply.stage.gone;
    assert Replaced(m.lock) == Some(r);
    assert Fits(m.routers[r], RoleOf(m, r));
    CallStopFields(m);
    CountKeeps(m, DoCallStop(m), r);
  }

  lemma CallStopFields(m: Manager)
    requires RolesDiffer(m) && m.lock.Held? && m.lock.apply.stage.Retiring? && m.lock.apply.stage.gone < |m.routers|
    ensures var m', r := DoCallStop(m), m.lock.apply.stage.gone;
            && Counted(m, m', r) && RoleOf(m', r) == Ending && RoleOf(m, r) == Retired
            && m'.routers[r].stopCalls == m.routers[r].stopCalls + 1 && m'.routers[r].stopped == m.routers[r].stopped
  {
    assert Replaced(m.lock) == Some(m.lock.apply.stage.gone);
  }

  lemma FinishStopFields(m: Manager)
    requires m.lock.Held? && m.lock.apply.stage.Stopping? && m.lock.apply.stage.gone < |m.routers|
    ensures Counted(m, DoFinishStop(m), m.lock.apply.stage.gone)
  {
  }

  lemma FinishStopRole(m: Manager)
    requires RolesDiffer(m) && m.lock.Held? && m.lock.apply.stage.Stopping? && m.lock.apply.stage.gone < |m.routers|
    ensures var m', r := DoFinishStop(m), m.lock.apply.stage.gone;
            && RoleOf(m', r) == Gone && RoleOf(m, r) == Ending
            && m'.routers[r].installs == m.routers[r].installs
            && m'.routers[r].stopCalls == m.routers[r].stopCalls && m'.routers[r].stopped
  {
    assert Replaced(m.lock) == Some(m.lock.apply.stage.gone);
  }

  lemma FinishStopKeeps(m: Manager)
    requires MgrInv(m) && m.lock.Held? && m.lock.apply.stage.Stopping?
    ensures m.lock.apply.stage.gone < |m.routers| && MgrInv(DoFinishStop(m))
  {
    var r := m.lock.apply.stage.gone;
    assert Replaced(m.lock) == Some(r);
    assert Fits(m.routers[r], RoleOf(m, r));
    FinishStopFields(m);
    FinishStopRole(m);
    CountKeeps(m, DoFinishStop(m), r);
  }

  // ----- taking, dropping and releasing the lock

  lemma LockLives(m: Manager, m': Manager)
    requires LivesOk(m) && m'.main == m.main && m'.fallback == m.fallback && m'.routers == m.routers
    requires Prepared(m'.lock) == None && Replaced(m'.lock) == None
    requires forall r :: r in m'.leaked <==> r in m.leaked || Prepared(m.lock) == Some(r) || Replaced(m.lock) == Some(r)
    requires Prepared(m.lock).Some? ==> m.lock.apply.stage.Waiting?
    requires Replaced(m.lock).Some? ==> m.lock.apply.stage.Stopping?
    ensures LivesOk(m')
  {
    forall r | 0 <= r < |m'.routers| ensures Fits(m'.routers[r], RoleOf(m', r)) {
      assert Fits(m.routers[r], RoleOf(m, r));
    }
  }

  lemma LockGate(m: Manager, m': Manager)
    requires GateOk(m) && m'.main == m.main && m'.fallback == m.fallback && m'.routers == m.routers
    requires Prepared(m'.lock) == None && Replaced(m'.lock) == None
    ensures GateOk(m')
  {
    forall r | 0 <= r < |m'.routers| && PastGate(m', r) ensures Vetted(m'.routers[r]) {
      assert PastGate(m, r);
    }
  }

  lemma StartApplyKeeps(m: Manager, t: TaskId, cfg: Config, persist: bool)
    requires MgrInv(m) && m.lock.Free? && UniqueNames(cfg)
    ensures MgrInv(StartApply(m, t, cfg, persist))
  {
    var m' := StartApply(m, t, cfg, persist);
    StartApplyHistory(m, t, cfg, persist);
    OnceWantedKept(m, m', Main);
    OnceWantedKept(m, m', Fallback);
    LockLives(m, m');
    LockGate(m, m');
  }

  lemma StartApplyHistory(m: Manager, t: TaskId, cfg: Config, persist: bool)
    requires HistoryOk(m) && UniqueNames(cfg)
    ensures HistoryOk(StartApply(m, t, cfg, persist))
  {
    var m' := StartApply(m, t, cfg, persist);
    forall p | p in m'.history ensures Planned(p) {
      assert p in m.history || p == PlanOf(cfg);
    }
  }

  lemma DropApplyKeeps(m: Manager)
    requires MgrInv(m) && m.lock.Held? && (m.lock.apply.stage.Waiting? || m.lock.apply.stage.Stopping?)
    ensures MgrInv(DropApply(m))
  {
    DropApplySlots(m);
    LockLives(m, DropApply(m));
    LockGate(m, DropApply(m));
  }

  lemma DropApplySlots(m: Manager)
    requires SlotsOk(m) && m.lock.Held? && (m.lock.apply.stage.Waiting? || m.lock.apply.stage.Stopping?)
    ensures SlotsOk(DropApply(m))
  {
    OnceWantedKept(m, DropApply(m), Main);
    OnceWantedKept(m, DropApply(m), Fallback);
  }

  /** Whatever was torn before, an apply that comes to its end leaves both slots as the config wants them. */
  lemma ReleaseKeeps(m: Manager)
    requires MgrInv(m) && m.lock.Held? && m.lock.apply.stage.Finished?
    ensures var m' := m.(lock := Free, torn := false);
            MgrInv(m') && Agrees(m', Main) && Agrees(m', Fallback)
  {
    var m' := m.(lock := Free, torn := false);
    OnceWantedKept(m, m', Main);
    OnceWantedKept(m, m', Fallback);
    LockLives(m, m');
    LockGate(m, m');
  }

  // ----- the environment

  /** One router's health, version or liveness changed, nothing else. */
  ghost predicate Outside(m: Manager, m': Manager, r: RouterId) {
    && r < |m.routers| == |m'.routers|
    && m' == m.(routers := m.routers[r := m'.routers[r]])
    && var o, o' := m.routers[r], m'.routers[r];
       && o' == o.(health := o'.health, version := o'.version, closed := o'.closed, knownAt := o'.knownAt)
       && HealthOk(o') && (Vetted(o) ==> Vetted(o'))
       && o.version <= o'.version
       && (o.knownAt.Some? ==> o'.knownAt == o.knownAt)
       && (o.knownAt.None? && o'.knownAt.Some? ==> o'.knownAt.value > o.version)
  }

  lemma OutsideHolder(m: Manager, m': Manager, r: RouterId)
    requires HolderOk(m) && Outside(m, m', r)
    ensures HolderOk(m')
  {
    if m.lock.Held? {
      var a := m.lock.apply;
      assert StageOk(m, a);
      assert forall n :: NextOk(m, a, n) ==> NextOk(m', a, n);
      assert InSlot(m', a.slot) == InSlot(m, a.slot);
    }
  }

  lemma OutsideSlots(m: Manager, m': Manager, r: RouterId)
    requires SlotsOk(m) && RolesDiffer(m) && Outside(m, m', r)
    ensures SlotsOk(m')
  {
    ViewsKept(m, m');
    OnceWantedKept(m, m', Main);
    OnceWantedKept(m, m', Fallback);
  }

  lemma OutsideLives(m: Manager, m': Manager, r: RouterId)
    requires LivesOk(m) && Outside(m, m', r)
    ensures LivesOk(m')
  {
    forall q | 0 <= q < |m'.routers| ensures Fits(m'.routers[q], RoleOf(m', q)) {
      assert Fits(m.routers[q], RoleOf(m, q)) && RoleOf(m', q) == RoleOf(m, q);
    }
  }

  lemma OutsideGate(m: Manager, m': Manager, r: RouterId)
    requires GateOk(m) && Outside(m, m', r)
    ensures GateOk(m')
  {
    forall q | 0 <= q < |m'.routers| && PastGate(m', q) ensures Vetted(m'.routers[q]) {
      assert PastGate(m, q) && Vetted(m.routers[q]);
    }
  }

  lemma OutsideKeeps(m: Manager, m': Manager, r: RouterId)
    requires MgrInv(m) && Outside(m, m', r)
    ensures MgrInv(m')
  {
    OutsideHolder(m, m', r);
    OutsideSlots(m, m', r);
    OutsideLives(m, m', r);
    OutsideGate(m, m', r);
  }

  lemma PublishKeeps(m: Manager, r: RouterId, health: seq<TargetState>)
    requires MgrInv(m) && r < |m.routers| && Evolves(m.routers[r].health, health)
    ensures MgrInv(DoPublish(m, r, health))
  {
    assert HealthOk(m.routers[r]);
    assert AllKnown(m.routers[r].health) ==> AllKnown(health);
    OutsideKeeps(m, DoPublish(m, r, health), r);
  }

  lemma CloseWatchKeeps(m: Manager, r: RouterId)
    requires MgrInv(m) && r < |m.routers|
    ensures MgrInv(DoCloseWatch(m, r))
  {
    assert HealthOk(m.routers[r]);
    OutsideKeeps(m, DoCloseWatch(m, r), r);
  }
}
