/** The admin API on top of the manager, and what a put survives. */
module Api {
  import opened Wrappers
  import opened Configs
  import opened BackendManagers

  const OK := 200
  const NO_CONTENT := 204
  const BAD_REQUEST := 400
  const INTERNAL_SERVER_ERROR := 500
  const SERVICE_UNAVAILABLE := 503

  /** A config body is JSON, or failing that YAML. */
  function Parse(codec: Codec, body: string): Option<Config> {
    if codec.fromJson(body).Some? then codec.fromJson(body) else codec.fromYaml(body)
  }

  /** The view and the status after a put: a failed write still leaves the new config applied. */
  function AfterPut(codec: Codec, writable: bool, r: AdminView, body: string): (AdminView, nat) {
    var cfg := Parse(codec, body);
    if cfg.None? || !Accepts(cfg.value) then (r, BAD_REQUEST)
    else
      var yaml := codec.toYaml(cfg.value);
      if yaml.None? || !writable then (r.(config := cfg.value), INTERNAL_SERVER_ERROR)
      else (AdminView(cfg.value, yaml), OK)
  }

  /** A call of /backend/{name}/{action} */
  datatype Action = Action(name: string, verb: string)

  function AfterAction(r: AdminView, a: Action): (AdminView, nat) {
    if a.verb != "enable" && a.verb != "disable" then (r, BAD_REQUEST)
    else
      match Toggled(r.config, Toggle(a.name, a.verb == "enable"))
      case None => (r, BAD_REQUEST)
      case Some(cfg) => (r.(config := cfg), OK)
  }

  function AfterReload(codec: Codec, r: AdminView): (AdminView, nat) {
    match Loads(codec, r.file)
    case Some(cfg) => (r.(config := cfg), OK)
    case None => (r, INTERNAL_SERVER_ERROR)
  }

  function AfterActions(r: AdminView, actions: seq<Action>): AdminView {
    if actions == [] then r else AfterAction(AfterActions(r, actions[..|actions| - 1]), actions[|actions| - 1]).0
  }

  method ConfigPut(manager: BackendManager, body: string) returns (status: nat)
    requires manager.Valid()
    modifies manager`config, manager`built, manager.disk`content, manager.mainSlot, manager.fallbackSlot,
             manager.mainSlot.installed, manager.fallbackSlot.installed
    ensures manager.Valid()
    ensures (manager.Now(), status) == AfterPut(manager.codec, manager.disk.writable, old(manager.Now()), body)
  {
    ghost var before := manager.Now();
    ghost var after := AfterPut(manager.codec, manager.disk.writable, before, body);
    var cfg := Parse(manager.codec, body);
    if cfg.None? {
      assert after == (before, BAD_REQUEST);
      return BAD_REQUEST;
    }
    AcceptsIffUnique(cfg.value);
    var applied := manager.SetConfig(cfg.value);
    if !applied {
      assert after == (before, BAD_REQUEST);
      return BAD_REQUEST;
    }
    ghost var yaml := manager.codec.toYaml(cfg.value);
    var persisted := manager.PersistConfig();
    if !persisted {
      assert after == (before.(config := cfg.value), INTERNAL_SERVER_ERROR);
      return INTERNAL_SERVER_ERROR;
    }
    assert after == (AdminView(cfg.value, yaml), OK);
    return OK;
  }

  /** A body is read as JSON; only what is not JSON is read as YAML. */
  lemma JsonFirst(codec: Codec, body: string, cfg: Config)
    ensures Parse(codec, body) == Some(cfg) <==>
            codec.fromJson(body) == Some(cfg) || (codec.fromJson(body).None? && codec.fromYaml(body) == Some(cfg))
  {
  }

  /** A put that is refused changes nothing and answers 400. */
  lemma PutRefused(codec: Codec, writable: bool, r: AdminView, body: string)
    requires forall cfg ::
               codec.fromJson(body) == Some(cfg)
               || (codec.fromJson(body).None? && codec.fromYaml(body) == Some(cfg)) ==>
                 !NamesDiffer(Everyone(cfg))
    ensures AfterPut(codec, writable, r, body) == (r, 400)
  {
    if Parse(codec, body).Some? {
      AcceptsIffUnique(Parse(codec, body).value);
      NamesDifferIff(Everyone(Parse(codec, body).value));
    }
  }

  /** Any other put applies its config; it answers 200 if the printed config could be written too, else 500. */
  lemma PutTaken(codec: Codec, writable: bool, r: AdminView, body: string, cfg: Config)
    requires codec.fromJson(body) == Some(cfg) || (codec.fromJson(body).None? && codec.fromYaml(body) == Some(cfg))
    requires NamesDiffer(Everyone(cfg))
    ensures var (after, status) := AfterPut(codec, writable, r, body);
            && after.config == cfg
            && (writable && codec.toYaml(cfg).Some? ==> status == 200 && after.file == codec.toYaml(cfg))
            && (!writable || codec.toYaml(cfg).None? ==> status == 500 && after.file == r.file)
  {
    AcceptsIffUnique(cfg);
    NamesDifferIff(Everyone(cfg));
  }

  /** A reload leaves the file alone; it applies what that holds and answers 200, or nothing and answers 500. */
  lemma ReloadInFull(codec: Codec, r: AdminView)
    ensures var (after, status) := AfterReload(codec, r);
            && after.file == r.file
            && if r.file.Some? && codec.fromYaml(r.file.value).Some?
                  && NamesDiffer(Everyone(codec.fromYaml(r.file.value).value))
               then status == 200 && after.config == codec.fromYaml(r.file.value).value
               else status == 500 && after.config == r.config
  {
    if r.file.Some? && codec.fromYaml(r.file.value).Some? {
      NamesDifferIff(Everyone(codec.fromYaml(r.file.value).value));
    }
  }

  /** "enable" and "disable" of a known backend set its flag to that, and to nothing else: 200. */
  lemma ActionTaken(r: AdminView, a: Action)
    requires UniqueNames(r.config) && (a.verb == "enable" || a.verb == "disable")
    requires exists i :: 0 <= i < |r.config.backends| && r.config.backends[i].name == a.name
    ensures var (after, status) := AfterAction(r, a);
            status == 200 && after.file == r.file && FlagSet(r.config, after.config, a.name, a.verb == "enable")
  {
    ToggledInFull(r.config, Toggle(a.name, a.verb == "enable"));
  }

  /** Any other verb, and any other name, changes nothing: 400. */
  lemma ActionRefused(r: AdminView, a: Action)
    requires || (a.verb != "enable" && a.verb != "disable")
             || forall i :: 0 <= i < |r.config.backends| ==> r.config.backends[i].name != a.name
    ensures AfterAction(r, a) == (r, 400)
  {
  }

  method BackendAction(manager: BackendManager, a: Action) returns (status: nat)
    requires manager.Valid()
    modifies manager`config, manager`built, manager.mainSlot, manager.fallbackSlot,
             manager.mainSlot.installed, manager.fallbackSlot.installed
    ensures manager.Valid()
    ensures (manager.Now(), status) == AfterAction(old(manager.Now()), a)
    ensures manager.disk.content == old(manager.disk.content)
    ensures status == 200 <==> (a.verb == "enable" || a.verb == "disable")
                               && exists b :: b in old(manager.config).backends && b.name == a.name
    ensures status == 200 ==> FlagSet(old(manager.config), manager.config, a.name, a.verb == "enable")
    ensures status != 200 ==> status == 400 && manager.config == old(manager.config)
  {
    if a.verb == "enable" || a.verb == "disable" {
      var toggle := Toggle(a.name, a.verb == "enable");
      ghost var before := manager.config;
      var ok := manager.SetBackendState(toggle);
      OneToggle(before, toggle);
      if !ok {
        return BAD_REQUEST;
      }
      return OK;
    }
    return BAD_REQUEST;
  }

  lemma OneToggle(c: Config, toggle: Toggle)
    ensures ToggledAll(c, [toggle]) == Toggled(c, toggle).GetOr(c)
    ensures Toggled(c, toggle).Some? <==> exists b :: b in c.backends && b.name == toggle.name
  {
    assert [toggle][..0] == [] && ToggledAll(c, []) == c;
    var at := Find(c.backends, toggle.name);
    if at.Some? {
      assert c.backends[at.value] in c.backends;
    }
  }

  method ConfigReload(manager: BackendManager) returns (status: nat)
    requires manager.Valid()
    modifies manager`config, manager`built, manager.mainSlot, manager.fallbackSlot,
             manager.mainSlot.installed, manager.fallbackSlot.installed
    ensures manager.Valid()
    ensures (manager.Now(), status) == AfterReload(manager.codec, old(manager.Now()))
  {
    var ok := manager.LoadConfig();
    return if ok then OK else INTERNAL_SERVER_ERROR;
  }

  method HealthStatus(manager: BackendManager) returns (status: nat)
    ensures status == NO_CONTENT <==>
            var main := manager.mainSlot.installed;
            main != null && main.SomeHealthy()
    ensures status == NO_CONTENT || status == SERVICE_UNAVAILABLE
  {
    if manager.GetHealthyNodes() == [] {
      return SERVICE_UNAVAILABLE;
    }
    return NO_CONTENT;
  }

  lemma {:induction false} ActionsKeepFile(r: AdminView, actions: seq<Action>)
    ensures AfterActions(r, actions).file == r.file
  {
    if actions != [] {
      ActionsKeepFile(r, actions[..|actions| - 1]);
    }
  }

  /**
   With one admin at a time and a codec that round-trips: after a successful put, whatever is
   enabled or disabled since, a reload brings back exactly the config that was put.
   */
  lemma PutSurvivesActions(codec: Codec, r: AdminView, body: string, actions: seq<Action>)
    requires RoundTrips(codec)
    requires AfterPut(codec, true, r, body).1 == OK
    ensures var put := AfterPut(codec, true, r, body).0;
            && Parse(codec, body) == Some(put.config)
            && AfterReload(codec, AfterActions(put, actions)) == (put, OK)
  {
    var put := AfterPut(codec, true, r, body).0;
    AcceptsIffNamesDiffer(put.config);
    ActionsKeepFile(put, actions);
  }
}
