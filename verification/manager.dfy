/** The BackendManager as one caller at a time sees it: the methods, their effect on config, slots and file. */
module BackendManagers {
  import opened Wrappers
  import opened Configs
  import opened Health

  /** Config parsing and printing, left abstract; printing may fail. */
  datatype Codec = Codec(
    fromYaml: string -> Option<Config>,
    fromJson: string -> Option<Config>,
    toYaml: Config -> Option<string>)

  /** What is printed parses back to the same config. */
  ghost predicate RoundTrips(codec: Codec) {
    forall c: Config :: codec.toYaml(c).Some? ==> codec.fromYaml(codec.toYaml(c).value) == Some(c)
  }

  class LBRouter {
    const view: View
    // environment: the health maps its checker publishes before it goes away
    const versions: seq<seq<TargetState>>
    var health: seq<TargetState>
    var stopCalls: nat
    var stoppedInSlot: bool  // `Stop` was called while the slot still held this router

    constructor (view: View, versions: seq<seq<TargetState>>)
      ensures this.view == view && this.versions == versions && stopCalls == 0 && !stoppedInSlot
      ensures |health| == |view.targets| && forall i :: 0 <= i < |health| ==> health[i] == Unknown
    {
      this.view, this.versions := view, versions;
      health := seq(|view.targets|, _ => Unknown);
      stopCalls, stoppedInSlot := 0, false;
    }

    method Stop(slot: RouterSlot)
      modifies this`stopCalls, this`stoppedInSlot
      ensures stopCalls == old(stopCalls) + 1
      ensures stoppedInSlot == (old(stoppedInSlot) || slot.installed == this)
    {
      stopCalls := stopCalls + 1;
      stoppedInSlot := stoppedInSlot || slot.installed == this;
    }

    /** If its checker ever reports every state known, the router shows every state known. */
    ghost predicate Vetted()
      reads this
    {
      (exists i :: 0 <= i < |versions| && AllKnown(versions[i])) ==> AllKnown(health)
    }

    predicate SomeHealthy()
      reads this
    {
      exists i :: 0 <= i < |view.targets| && i < |health| && health[i] == Healthy
    }

    function GetHealthy(): (nodes: seq<Backend>)
      reads this
      ensures nodes == [] <==> !SomeHealthy()
    {
      var nodes := HealthyOf(view.targets, health);
      assert nodes != [] ==> nodes[0] in nodes;
      assert forall i :: 0 <= i < |view.targets| && i < |health| && health[i] == Healthy ==>
                           view.targets[i].backend in nodes;
      nodes
    }
  }

  /** The backends whose state is Healthy */
  function HealthyOf(targets: seq<Target>, health: seq<TargetState>): (nodes: seq<Backend>)
    ensures forall b :: b in nodes <==>
              exists i :: 0 <= i < |targets| && i < |health| && health[i] == Healthy && targets[i].backend == b
  {
    if targets == [] || health == [] then []
    else
      var rest := HealthyOf(targets[1..], health[1..]);
      assert forall i :: 1 <= i < |targets| && i < |health| ==>
          targets[i] == targets[1..][i - 1] && health[i] == health[1..][i - 1];
      assert forall i :: 0 <= i < |targets[1..]| && i < |health[1..]| ==>
          targets[1..][i] == targets[i + 1] && health[1..][i] == health[i + 1];
      if health[0] == Healthy then [targets[0].backend] + rest else rest
  }

  /** An atomically swappable place for a router */
  class RouterSlot {
    var installed: LBRouter?

    constructor ()
      ensures installed == null
    {
      installed := null;
    }
  }

  /** The file system as far as the config file is concerned; reads and whole-file writes may fail. */
  class Disk {
    var content: Option<string>
    var writable: bool

    method Write(text: string) returns (ok: bool)
      modifies this`content
      ensures ok == writable
      ensures content == if writable then Some(text) else old(content)
    {
      ok := writable;
      if writable {
        content := Some(text);
      }
    }
  }

  /** What the background task is woken by; a hangup comes with the file as it has been edited by then. */
  datatype Signal = Hangup(file: Option<string>) | Shutdown

  /** The config a reload finds in the file: there, parsing, and with unique names */
  function Loads(codec: Codec, file: Option<string>): (cfg: Option<Config>)
    ensures cfg.Some? <==>
            file.Some? && codec.fromYaml(file.value).Some? && UniqueNames(codec.fromYaml(file.value).value)
    ensures cfg.Some? ==> cfg == codec.fromYaml(file.value)
  {
    if file.None? then None
    else
      var parsed := codec.fromYaml(file.value);
      if parsed.None? then None
      else
        AcceptsIffNamesDiffer(parsed.value);
        if Accepts(parsed.value) then parsed else None
  }

  function AfterSignals(codec: Codec, c: Config, signals: seq<Signal>): Config
    decreases signals
  {
    if signals == [] || signals[0].Shutdown? then c
    else AfterSignals(codec, Loads(codec, signals[0].file).GetOr(c), signals[1..])
  }

  /** How many signals are heard: those before the first shutdown */
  function Heard(signals: seq<Signal>): (n: nat)
    ensures n <= |signals|
    ensures forall i :: 0 <= i < n ==> signals[i].Hangup?
    ensures n < |signals| ==> signals[n].Shutdown?
  {
    if signals == [] || signals[0].Shutdown? then 0 else 1 + Heard(signals[1..])
  }

  /** The file found at the i-th hangup is there, parses and has unique names. */
  ghost predicate LoadsAt(codec: Codec, signals: seq<Signal>, i: nat) {
    && i < |signals| && signals[i].Hangup? && signals[i].file.Some?
    && codec.fromYaml(signals[i].file.value).Some?
    && NamesDiffer(Everyone(codec.fromYaml(signals[i].file.value).value))
  }

  /** None of the hangups heard from the i-th on found a good file. */
  ghost predicate NoneLoads(codec: Codec, signals: seq<Signal>, i: nat) {
    forall j :: i <= j < Heard(signals) ==> !LoadsAt(codec, signals, j)
  }

  lemma NoneLoadsInRest(codec: Codec, signals: seq<Signal>, i: nat)
    requires signals != [] && signals[0].Hangup? && NoneLoads(codec, signals, i + 1)
    ensures NoneLoads(codec, signals[1..], i)
  {
    forall j | i <= j < Heard(signals[1..]) ensures !LoadsAt(codec, signals[1..], j) {
      assert !LoadsAt(codec, signals, j + 1);
    }
  }

  /** With no hangup heard that found a good file the config stays. */
  lemma {:induction false} NoGoodReload(codec: Codec, c: Config, signals: seq<Signal>)
    requires NoneLoads(codec, signals, 0)
    ensures AfterSignals(codec, c, signals) == c
    decreases |signals|
  {
    if signals != [] && signals[0].Hangup? {
      assert !LoadsAt(codec, signals, 0);
      LoadsAtFirst(codec, signals);
      NoneLoadsInRest(codec, signals, 0);
      NoGoodReload(codec, c, signals[1..]);
    }
  }

  /** Otherwise it is what the file held at the last hangup that found a good one; a later bad one leaves it. */
  lemma {:induction false} LastGoodReload(codec: Codec, c: Config, signals: seq<Signal>, i: nat)
    requires i < Heard(signals) && LoadsAt(codec, signals, i) && NoneLoads(codec, signals, i + 1)
    ensures Some(AfterSignals(codec, c, signals)) == codec.fromYaml(signals[i].file.value)
    decreases |signals|
  {
    var next := Loads(codec, signals[0].file).GetOr(c);
    NoneLoadsInRest(codec, signals, i);
    if i == 0 {
      LoadsAtFirst(codec, signals);
      NoGoodReload(codec, next, signals[1..]);
    } else {
      assert signals[1..][i - 1] == signals[i];
      LastGoodReload(codec, next, signals[1..], i - 1);
    }
  }

  lemma LoadsAtFirst(codec: Codec, signals: seq<Signal>)
    requires signals != [] && signals[0].Hangup?
    ensures LoadsAt(codec, signals, 0) <==> Loads(codec, signals[0].file).Some?
    ensures LoadsAt(codec, signals, 0) ==> Loads(codec, signals[0].file) == codec.fromYaml(signals[0].file.value)
  {
    if signals[0].file.Some? && codec.fromYaml(signals[0].file.value).Some? {
      NamesDifferIff(Everyone(codec.fromYaml(signals[0].file.value).value));
    }
  }

  /** What the admin can see between calls */
  datatype AdminView = AdminView(config: Config, file: Option<string>)

  class BackendManager {
    const codec: Codec
    const disk: Disk
    const mainSlot: RouterSlot
    const fallbackSlot: RouterSlot
    var config: Config
    // environment: what the checker of the n-th router publishes
    const published: nat -> seq<seq<TargetState>>
    var built: nat

    constructor (codec: Codec, disk: Disk, published: nat -> seq<seq<TargetState>>)
      ensures Valid() && fresh(mainSlot) && fresh(fallbackSlot)
      ensures config == DEFAULT_CONFIG && this.disk == disk && this.codec == codec
    {
      this.codec, this.disk, this.published := codec, disk, published;
      mainSlot := new RouterSlot();
      fallbackSlot := new RouterSlot();
      config := DEFAULT_CONFIG;
      built := 0;
    }

    function Holds(slot: RouterSlot): Option<View>
      reads slot, slot.installed
    {
      if slot.installed == null then None else Some(slot.installed.view)
    }

    /** Both slots hold what the config asks for, with two different routers, vetted and not stopped. */
    ghost predicate Valid()
      reads this, mainSlot, fallbackSlot, mainSlot.installed, fallbackSlot.installed
    {
      && UniqueNames(config)
      && mainSlot != fallbackSlot
      && Holds(mainSlot) == SlotView(config, Main)
      && Holds(fallbackSlot) == SlotView(config, Fallback)
      && (mainSlot.installed != null ==>
            && mainSlot.installed != fallbackSlot.installed
            && mainSlot.installed.stopCalls == 0 && mainSlot.installed.Vetted())
      && (fallbackSlot.installed != null ==>
            fallbackSlot.installed.stopCalls == 0 && fallbackSlot.installed.Vetted())
    }

    /** Each slot is empty exactly when nothing on its list is enabled, and otherwise goes by the list. */
    ghost predicate InStep()
      reads this, mainSlot, fallbackSlot, mainSlot.installed, fallbackSlot.installed
    {
      && (mainSlot.installed == null <==> forall i :: 0 <= i < |config.backends| ==> !config.backends[i].enabled)
      && (fallbackSlot.installed == null <==>
            config.fallback.None? || forall i :: 0 <= i < |config.fallback.value| ==> !config.fallback.value[i].enabled)
      && Reflects(Holds(mainSlot), config.strategy, config.backends)
      && Reflects(Holds(fallbackSlot), config.strategy, if config.fallback.Some? then config.fallback.value else [])
    }

    /** Both slots were given new routers or emptied; each router that stood there was stopped once, when out of it. */
    twostate predicate ReplacedOnce(main: LBRouter?, fallback: LBRouter?)
      reads this, mainSlot, fallbackSlot, mainSlot.installed, fallbackSlot.installed, main, fallback
    {
      && (mainSlot.installed != null ==> fresh(mainSlot.installed))
      && (fallbackSlot.installed != null ==> fresh(fallbackSlot.installed))
      && (main != null ==>
            main.stopCalls == old(main.stopCalls) + 1 && main.stoppedInSlot == old(main.stoppedInSlot))
      && (fallback != null ==>
            fallback.stopCalls == old(fallback.stopCalls) + 1 && fallback.stoppedInSlot == old(fallback.stoppedInSlot))
    }

    ghost function Now(): AdminView
      reads this, disk
    {
      AdminView(config, disk.content)
    }

    /** Watches until every state is known, or the checker is gone; `looks` is how many versions it saw. */
    method WaitHealthchecks(router: LBRouter) returns (looks: nat)
      modifies router`health
      ensures looks <= |router.versions|
      ensures router.health == if looks == 0 then old(router.health) else router.versions[looks - 1]
      ensures forall i :: 0 <= i < looks - 1 ==> !AllKnown(router.versions[i])
      ensures looks < |router.versions| ==> looks > 0 && AllKnown(router.versions[looks - 1])
    {
      looks := 0;
      while looks < |router.versions|
        invariant looks <= |router.versions|
        invariant router.health == if looks == 0 then old(router.health) else router.versions[looks - 1]
        invariant forall i :: 0 <= i < looks ==> !AllKnown(router.versions[i])
      {
        router.health := router.versions[looks];
        looks := looks + 1;
        if AllKnown(router.health) {
          return;
        }
      }
    }

    method UpdateRouter(slot: RouterSlot, backends: seq<BackendConf>, strategy: Strategy)
      modifies slot, slot.installed, this`built
      ensures Holds(slot) == if backends == [] then None else Some(View(strategy, Targets(backends)))
      ensures slot.installed != null ==>
                && fresh(slot.installed) && slot.installed.stopCalls == 0
                && slot.installed.versions == published(old(built)) && slot.installed.Vetted()
      ensures old(slot.installed) != null ==>
                && old(slot.installed).stopCalls == old(slot.installed.stopCalls) + 1
                && old(slot.installed).stoppedInSlot == old(slot.installed.stoppedInSlot)
                && old(slot.installed).health == old(slot.installed.health)
    {
      var next: LBRouter? := null;
      if backends != [] {
        var r := new LBRouter(View(strategy, Targets(backends)), published(built));
        var _ := WaitHealthchecks(r);
        built := built + 1;
        next := r;
      }
      var prev := slot.installed;
      slot.installed := next;
      if prev != null {
        prev.Stop(slot);
      }
    }

    /** Brings both slots in step with the config; what they held before has been stopped once more. */
    method Apply()
      requires UniqueNames(config) && mainSlot != fallbackSlot
      requires mainSlot.installed != null ==> mainSlot.installed != fallbackSlot.installed
      modifies mainSlot, fallbackSlot, mainSlot.installed, fallbackSlot.installed, this`built
      ensures Valid() && InStep()
      ensures ReplacedOnce(old(mainSlot.installed), old(fallbackSlot.installed))
    {
      var backendsEnabled := Enabled(config.backends);
      var fallbackEnabled := Enabled(config.fallback.GetOr([]));
      UpdateRouter(mainSlot, backendsEnabled, config.strategy);
      UpdateRouter(fallbackSlot, fallbackEnabled, config.strategy);
      SlotNoneIff(config);
      SlotsReflect(config);
    }

    method SetConfig(cfg: Config) returns (ok: bool)
      requires Valid()
      modifies this`config, this`built, mainSlot, fallbackSlot, mainSlot.installed, fallbackSlot.installed
      ensures Valid()
      ensures ok <==> UniqueNames(cfg)
      ensures config == if ok then cfg else old(config)
      ensures ok ==> InStep()
      ensures ok ==> ReplacedOnce(old(mainSlot.installed), old(fallbackSlot.installed))
      ensures !ok ==> unchanged(this) && unchanged(mainSlot) && unchanged(fallbackSlot)
    {
      AcceptsIffNamesDiffer(cfg);
      if !Accepts(cfg) {
        return false;
      }
      config := cfg;
      Apply();
      return true;
    }

    method SetBackendState(toggle: Toggle) returns (ok: bool)
      requires Valid()
      modifies this`config, this`built, mainSlot, fallbackSlot, mainSlot.installed, fallbackSlot.installed
      ensures Valid()
      ensures ok <==> exists b :: b in old(config).backends && b.name == toggle.name
      ensures config == ToggledAll(old(config), [toggle])
      ensures ok ==> FlagSet(old(config), config, toggle.name, toggle.enabled) && InStep()
      ensures ok ==> ReplacedOnce(old(mainSlot.installed), old(fallbackSlot.installed))
      ensures !ok ==> unchanged(this) && unchanged(mainSlot) && unchanged(fallbackSlot)
    {
      ToggleReplay(config, [toggle]);
      ToggledInFull(config, toggle);
      assert [toggle][..0] == [] && ToggledAll(config, []) == config;
      var at := Find(config.backends, toggle.name);
      if at.None? {
        return false;
      }
      assert config.backends[at.value] in config.backends;
      config := config.(backends := config.backends[at.value := config.backends[at.value].(enabled := toggle.enabled)]);
      Apply();
      return true;
    }

    method LoadConfig() returns (ok: bool)
      requires Valid()
      modifies this`config, this`built, mainSlot, fallbackSlot, mainSlot.installed, fallbackSlot.installed
      ensures Valid()
      ensures ok <==> Loads(codec, disk.content).Some?
      ensures config == Loads(codec, disk.content).GetOr(old(config))
      ensures ok ==> ReplacedOnce(old(mainSlot.installed), old(fallbackSlot.installed))
      ensures !ok ==> unchanged(this) && unchanged(mainSlot) && unchanged(fallbackSlot)
    {
      if disk.content.None? {
        return false;
      }
      var cfg := codec.fromYaml(disk.content.value);
      if cfg.None? {
        return false;
      }
      ok := SetConfig(cfg.value);
    }

    method PersistConfig() returns (ok: bool)
      requires Valid()
      modifies disk`content
      ensures ok <==> codec.toYaml(config).Some? && disk.writable
      ensures disk.content == if ok then codec.toYaml(config) else old(disk.content)
    {
      var yaml := codec.toYaml(config);
      if yaml.None? {
        return false;
      }
      ok := disk.Write(yaml.value);
    }

    /**
     The background task: each SIGHUP reloads the config from the file as it is then, until the
     task is cancelled; a reload that fails changes nothing.
     */
    method Run(signals: seq<Signal>)
      requires Valid()
      modifies this`config, this`built, disk`content
      modifies mainSlot, fallbackSlot, mainSlot.installed, fallbackSlot.installed
      ensures Valid()
      ensures config == AfterSignals(codec, old(config), signals)
    {
      var i := 0;
      while i < |signals|
        invariant 0 <= i <= |signals| && Valid()
        invariant mainSlot.installed != null ==>
                    mainSlot.installed == old(mainSlot.installed) || fresh(mainSlot.installed)
        invariant fallbackSlot.installed != null ==>
                    fallbackSlot.installed == old(fallbackSlot.installed) || fresh(fallbackSlot.installed)
        invariant AfterSignals(codec, config, signals[i..]) == AfterSignals(codec, old(config), signals)
      {
        assert signals[i..][1..] == signals[i + 1..];
        match signals[i] {
          case Shutdown =>
            return;
          case Hangup(edited) =>
            disk.content := edited;
            var _ := LoadConfig();
        }
        i := i + 1;
      }
    }

    /** The main router if it has healthy nodes, otherwise the fallback router, if any */
    function GetBackendRouter(): (r: LBRouter?)
      reads this, mainSlot, fallbackSlot, mainSlot.installed, fallbackSlot.installed
      ensures mainSlot.installed != null && mainSlot.installed.SomeHealthy() ==> r == mainSlot.installed
      ensures !(mainSlot.installed != null && mainSlot.installed.SomeHealthy()) ==> r == fallbackSlot.installed
    {
      if mainSlot.installed != null && mainSlot.installed.GetHealthy() != []
      then mainSlot.installed
      else fallbackSlot.installed
    }

    function GetHealthyNodes(): seq<Backend>
      reads this, mainSlot, mainSlot.installed
    {
      if mainSlot.installed == null then [] else mainSlot.installed.GetHealthy()
    }
  }
}
