/**
 The backend configuration: what an admin uploads, what a toggle does to it,
 and the two lists of targets the routers are built from.
 */
module Configs {
  import opened Wrappers

  datatype Strategy = WeightedRoundRobin | LeastOutstandingRequests

  datatype Url = Url(scheme: string, authority: string, path: string)

  datatype Uri = Uri(scheme: Option<string>, authority: Option<string>, pathAndQuery: Option<string>)

  /** A backend as the config file spells it */
  datatype BackendConf = BackendConf(name: string, url: Url, enabled: bool, weight: nat)

  datatype Config = Config(strategy: Strategy, backends: seq<BackendConf>, fallback: Option<seq<BackendConf>>)

  /** A backend after preprocessing */
  datatype Backend = Backend(name: string, url: Url, uriHealth: Uri)

  datatype Target = Target(backend: Backend, weight: nat)

  /** Everything a router is built from */
  datatype View = View(strategy: Strategy, targets: seq<Target>)

  /** Routers are numbered in the order they are built. */
  type RouterId = nat

  /** The two places a router can be installed in */
  datatype Slot = Main | Fallback

  /** A request to enable or disable one backend */
  datatype Toggle = Toggle(name: string, enabled: bool)

  const DEFAULT_CONFIG := Config(LeastOutstandingRequests, [], None)

  // ----- names

  function Names(bs: seq<BackendConf>): (ns: seq<string>)
    ensures |ns| == |bs| && forall i :: 0 <= i < |bs| ==> ns[i] == bs[i].name
  {
    seq(|bs|, i requires 0 <= i < |bs| => bs[i].name)
  }

  /** The backends followed by the fallback backends, if any */
  function Everyone(c: Config): seq<BackendConf> {
    c.backends + c.fallback.GetOr([])
  }

  ghost predicate Distinct(ns: seq<string>) {
    forall i, j :: 0 <= i < j < |ns| ==> ns[i] != ns[j]
  }

  ghost predicate UniqueNames(c: Config) {
    Distinct(Names(Everyone(c)))
  }

  /** The single pass of `all_unique`: it remembers the names already seen. */
  predicate NoneSeenTwice(ns: seq<string>, seen: set<string>) {
    ns == [] || (ns[0] !in seen && NoneSeenTwice(ns[1..], seen + {ns[0]}))
  }

  /** The check `set_config` makes before it touches anything */
  predicate Accepts(c: Config) {
    NoneSeenTwice(Names(Everyone(c)), {})
  }

  lemma {:induction false} NoneSeenTwiceIsDistinct(ns: seq<string>, seen: set<string>)
    ensures NoneSeenTwice(ns, seen) <==>
            Distinct(ns) && forall i :: 0 <= i < |ns| ==> ns[i] !in seen
  {
    if ns != [] {
      var rest, seen' := ns[1..], seen + {ns[0]};
      NoneSeenTwiceIsDistinct(rest, seen');
      assert forall i :: 1 <= i < |ns| ==> ns[i] == rest[i - 1];
      assert forall i :: 0 <= i < |rest| ==> rest[i] == ns[i + 1];
      if NoneSeenTwice(ns, seen) {
        forall i, j | 0 <= i < j < |ns| ensures ns[i] != ns[j] {
          assert rest[j - 1] !in seen';
          if i > 0 { assert rest[i - 1] != rest[j - 1]; }
        }
        assert forall i :: 0 <= i < |ns| ==> ns[i] !in seen;
      }
    }
  }

  /** A config is accepted iff no two positions of backends followed by fallback share a name. */
  lemma AcceptsIffNamesDiffer(c: Config)
    ensures Accepts(c) <==>
            forall i, j :: 0 <= i < j < |Everyone(c)| ==> Everyone(c)[i].name != Everyone(c)[j].name
    ensures Accepts(c) <==> UniqueNames(c)
  {
    var all, ns := Everyone(c), Names(Everyone(c));
    NoneSeenTwiceIsDistinct(ns, {});
    if forall i, j :: 0 <= i < j < |all| ==> all[i].name != all[j].name {
      assert Distinct(ns);
    }
    if Distinct(ns) {
      forall i, j | 0 <= i < j < |all| ensures all[i].name != all[j].name {
        assert ns[i] != ns[j];
      }
    }
  }

  lemma AcceptsIffUnique(c: Config)
    ensures Accepts(c) <==> UniqueNames(c)
  {
    AcceptsIffNamesDiffer(c);
  }

  /** In full: no two main backends share a name, no two fallback backends do, and no main one shares one with those. */
  lemma AcceptsInFull(c: Config)
    ensures var main, fallback := c.backends, if c.fallback.Some? then c.fallback.value else [];
            Accepts(c) <==> NamesDiffer(main) && NamesDiffer(fallback) && NamesApart(main, fallback)
  {
    var main, fallback := c.backends, if c.fallback.Some? then c.fallback.value else [];
    AcceptsIffUnique(c);
    assert Names(Everyone(c)) == Names(main) + Names(fallback);
    DistinctInParts(Names(main), Names(fallback));
    NamesDifferIff(main);
    NamesDifferIff(fallback);
    assert NamesApart(main, fallback) <==> Apart(Names(main), Names(fallback)) by {
      if Apart(Names(main), Names(fallback)) {
        forall i, j | 0 <= i < |main| && 0 <= j < |fallback| ensures main[i].name != fallback[j].name {
          assert Names(main)[i] != Names(fallback)[j];
        }
      }
    }
  }

  ghost predicate NamesDiffer(bs: seq<BackendConf>) {
    forall i, j :: 0 <= i < j < |bs| ==> bs[i].name != bs[j].name
  }

  ghost predicate NamesApart(a: seq<BackendConf>, b: seq<BackendConf>) {
    forall i, j :: 0 <= i < |a| && 0 <= j < |b| ==> a[i].name != b[j].name
  }

  ghost predicate Apart(a: seq<string>, b: seq<string>) {
    forall i, j :: 0 <= i < |a| && 0 <= j < |b| ==> a[i] != b[j]
  }

  lemma NamesDifferIff(bs: seq<BackendConf>)
    ensures NamesDiffer(bs) <==> Distinct(Names(bs))
  {
    if Distinct(Names(bs)) {
      forall i, j | 0 <= i < j < |bs| ensures bs[i].name != bs[j].name {
        assert Names(bs)[i] != Names(bs)[j];
      }
    }
  }

  lemma DistinctInParts(a: seq<string>, b: seq<string>)
    ensures Distinct(a + b) <==> Distinct(a) && Distinct(b) && Apart(a, b)
  {
    if Distinct(a + b) {
      forall i, j | 0 <= i < j < |a| ensures a[i] != a[j] {
        assert (a + b)[i] != (a + b)[j];
      }
      forall i, j | 0 <= i < j < |b| ensures b[i] != b[j] {
        assert (a + b)[|a| + i] != (a + b)[|a| + j];
      }
      forall i, j | 0 <= i < |a| && 0 <= j < |b| ensures a[i] != b[j] {
        assert (a + b)[i] != (a + b)[|a| + j];
      }
    }
  }

  // ----- toggling one backend

  /** Position of the first backend with the given name */
  function Find(bs: seq<BackendConf>, name: string): (r: Option<nat>)
    ensures r.Some? ==> r.value < |bs| && bs[r.value].name == name
                        && forall j :: 0 <= j < r.value ==> bs[j].name != name
    ensures r.None? ==> forall j :: 0 <= j < |bs| ==> bs[j].name != name
  {
    if bs == [] then None
    else if bs[0].name == name then Some(0)
    else
      var r := Find(bs[1..], name);
      assert forall j :: 1 <= j < |bs| ==> bs[j] == bs[1..][j - 1];
      if r.None? then None else Some(r.value + 1)
  }

  /** The config after one toggle; None when no main backend has that name. */
  function Toggled(c: Config, t: Toggle): Option<Config> {
    var at := Find(c.backends, t.name);
    if at.None? then None
    else Some(c.(backends := c.backends[at.value := c.backends[at.value].(enabled := t.enabled)]))
  }

  /** A failed toggle leaves the config as it was. */
  function ToggledAll(c: Config, ts: seq<Toggle>): Config {
    if ts == [] then c
    else
      var before := ToggledAll(c, ts[..|ts| - 1]);
      Toggled(before, ts[|ts| - 1]).GetOr(before)
  }

  /** The backends with the flags of `flags` written over their own */
  function Flagged(bs: seq<BackendConf>, flags: map<string, bool>): (r: seq<BackendConf>)
    ensures |r| == |bs|
    ensures Names(r) == Names(bs)
  {
    seq(|bs|, i requires 0 <= i < |bs| =>
      bs[i].(enabled := if bs[i].name in flags then flags[bs[i].name] else bs[i].enabled))
  }

  /** For each toggled name, the value of its last toggle */
  function LastFlags(ts: seq<Toggle>): map<string, bool> {
    if ts == [] then map[] else LastFlags(ts[..|ts| - 1])[ts[|ts| - 1].name := ts[|ts| - 1].enabled]
  }

  lemma {:induction false} LastFlagsIsLast(ts: seq<Toggle>, i: nat)
    requires i < |ts|
    requires forall j :: i < j < |ts| ==> ts[j].name != ts[i].name
    ensures ts[i].name in LastFlags(ts) && LastFlags(ts)[ts[i].name] == ts[i].enabled
  {
    if i < |ts| - 1 {
      LastFlagsIsLast(ts[..|ts| - 1], i);
    }
  }

  lemma {:induction false} LastFlagsOnlyToggled(ts: seq<Toggle>, name: string)
    ensures name in LastFlags(ts) <==> exists i :: 0 <= i < |ts| && ts[i].name == name
  {
    if ts != [] {
      var init := ts[..|ts| - 1];
      LastFlagsOnlyToggled(init, name);
      if name in LastFlags(init) {
        var i :| 0 <= i < |init| && init[i].name == name;
        assert ts[i].name == name;
      } else if exists i :: 0 <= i < |ts| && ts[i].name == name {
        var i :| 0 <= i < |ts| && ts[i].name == name;
        if i < |ts| - 1 { assert init[i].name == name; }
      }
    }
  }

  /** The i-th toggle is the last one of that name. */
  ghost predicate IsLastOf(ts: seq<Toggle>, name: string, i: nat) {
    i < |ts| && ts[i].name == name && forall j :: i < j < |ts| ==> ts[j].name != name
  }

  lemma {:induction false} HasLast(ts: seq<Toggle>, name: string) returns (i: nat)
    requires exists j :: 0 <= j < |ts| && ts[j].name == name
    ensures IsLastOf(ts, name, i)
  {
    if ts[|ts| - 1].name == name {
      i := |ts| - 1;
    } else {
      var j :| 0 <= j < |ts| && ts[j].name == name;
      assert ts[..|ts| - 1][j].name == name;
      i := HasLast(ts[..|ts| - 1], name);
    }
  }

  /** `LastFlags` has a flag for exactly the toggled names, and it is that of the last toggle of the name. */
  lemma LastFlagsExact(ts: seq<Toggle>, name: string)
    ensures name in LastFlags(ts) <==> exists i :: 0 <= i < |ts| && ts[i].name == name
    ensures name in LastFlags(ts) ==> exists i: nat :: IsLastOf(ts, name, i) && LastFlags(ts)[name] == ts[i].enabled
  {
    LastFlagsOnlyToggled(ts, name);
    if name in LastFlags(ts) {
      var i := HasLast(ts, name);
      LastFlagsIsLast(ts, i);
      assert IsLastOf(ts, name, i);
    }
  }

  lemma ToggledFlagged(c: Config, flags: map<string, bool>, t: Toggle)
    requires Distinct(Names(c.backends))
    ensures var d := c.(backends := Flagged(c.backends, flags));
            Toggled(d, t).GetOr(d) == c.(backends := Flagged(c.backends, flags[t.name := t.enabled]))
  {
    var bs := Flagged(c.backends, flags);
    var bs' := Flagged(c.backends, flags[t.name := t.enabled]);
    var at := Find(bs, t.name);
    if at.None? {
      forall i | 0 <= i < |bs| ensures bs[i] == bs'[i] {
        assert bs[i].name != t.name;
      }
      assert bs == bs';
    } else {
      var ns := Names(c.backends);
      var upd := bs[at.value := bs[at.value].(enabled := t.enabled)];
      forall i | 0 <= i < |bs| ensures upd[i] == bs'[i] {
        assert ns[i] == bs[i].name && ns[at.value] == t.name;
      }
      assert upd == bs';
    }
  }

  /**
   After any sequence of toggles, successful or not, the config is the original with the last
   flag of every toggled name written in: the same as one upload with all flags folded in.
   */
  lemma {:induction false} ToggleReplay(c: Config, ts: seq<Toggle>)
    requires UniqueNames(c)
    ensures ToggledAll(c, ts) == c.(backends := Flagged(c.backends, LastFlags(ts)))
    ensures Names(Everyone(ToggledAll(c, ts))) == Names(Everyone(c))
    ensures UniqueNames(ToggledAll(c, ts))
  {
    MainNamesDistinct(c);
    if ts == [] {
      assert Flagged(c.backends, map[]) == c.backends;
    } else {
      ToggleReplay(c, ts[..|ts| - 1]);
      ToggledFlagged(c, LastFlags(ts[..|ts| - 1]), ts[|ts| - 1]);
    }
    var d := c.(backends := Flagged(c.backends, LastFlags(ts)));
    assert Names(Everyone(d)) == Names(Everyone(c)) by {
      assert Names(Everyone(d)) == Names(d.backends) + Names(d.fallback.GetOr([]));
      assert Names(Everyone(c)) == Names(c.backends) + Names(c.fallback.GetOr([]));
    }
  }

  lemma MainNamesDistinct(c: Config)
    requires UniqueNames(c)
    ensures Distinct(Names(c.backends))
  {
    forall i, j | 0 <= i < j < |c.backends| ensures Names(c.backends)[i] != Names(c.backends)[j] {
      assert Names(Everyone(c))[i] != Names(Everyone(c))[j];
    }
  }

  lemma LastFlagsOfTwo(s: Toggle, t: Toggle)
    ensures LastFlags([s, t]) == map[][s.name := s.enabled][t.name := t.enabled]
  {
    assert [s, t][..1] == [s];
    assert [s][..0] == [];
    assert LastFlags([s]) == LastFlags([])[s.name := s.enabled];
  }

  /** Toggles of different names commute. */
  lemma TogglesCommute(c: Config, s: Toggle, t: Toggle)
    requires UniqueNames(c) && s.name != t.name
    ensures ToggledAll(c, [s, t]) == ToggledAll(c, [t, s])
  {
    FlagsCommute(s, t);
    ToggleReplay(c, [s, t]);
    ToggleReplay(c, [t, s]);
  }

  lemma FlagsCommute(s: Toggle, t: Toggle)
    requires s.name != t.name
    ensures LastFlags([s, t]) == LastFlags([t, s])
  {
    LastFlagsOfTwo(s, t);
    LastFlagsOfTwo(t, s);
    assert map[][s.name := s.enabled][t.name := t.enabled] == map[][t.name := t.enabled][s.name := s.enabled];
  }

  // ----- what the routers are built from

  function FromConf(b: BackendConf): Backend {
    Backend(b.name, b.url, Uri(Some(b.url.scheme), Some(b.url.authority), Some("/health")))
  }

  function Enabled(bs: seq<BackendConf>): seq<BackendConf> {
    if bs == [] then []
    else if bs[0].enabled then [bs[0]] + Enabled(bs[1..])
    else Enabled(bs[1..])
  }

  function Targets(bs: seq<BackendConf>): (ts: seq<Target>)
    ensures |ts| == |bs|
  {
    seq(|bs|, i requires 0 <= i < |bs| => Target(FromConf(bs[i]), bs[i].weight))
  }

  function SlotBackends(c: Config, slot: Slot): seq<BackendConf> {
    match slot
    case Main => c.backends
    case Fallback => c.fallback.GetOr([])
  }

  /** What the slot must hold once `c` is applied: None iff its enabled list is empty. */
  function SlotView(c: Config, slot: Slot): Option<View> {
    var on := Enabled(SlotBackends(c, slot));
    if on == [] then None else Some(View(c.strategy, Targets(on)))
  }

  /** `ts` lists the entries of `bs` at the positions `at`, which are those of its enabled ones, in order. */
  ghost predicate ListsEnabled(bs: seq<BackendConf>, at: seq<nat>, ts: seq<Target>) {
    && |at| == |ts| && Increasing(at) && CoversEnabled(bs, at)
    && forall k :: 0 <= k < |at| ==> at[k] < |bs| && bs[at[k]].enabled && IsTargetOf(ts[k], bs[at[k]])
  }

  /** A slot goes by its list: nothing in it iff nothing is enabled, else one target for each enabled entry. */
  ghost predicate Reflects(v: Option<View>, strategy: Strategy, bs: seq<BackendConf>) {
    && (v.None? <==> forall i :: 0 <= i < |bs| ==> !bs[i].enabled)
    && (v.Some? ==> v.value.strategy == strategy && exists at :: ListsEnabled(bs, at, v.value.targets))
  }

  lemma {:induction false} EnabledSnoc(front: seq<BackendConf>, b: BackendConf)
    ensures Enabled(front + [b]) == Enabled(front) + (if b.enabled then [b] else [])
  {
    if front == [] {
      assert front + [b] == [b];
    } else {
      assert (front + [b])[1..] == front[1..] + [b];
      EnabledSnoc(front[1..], b);
    }
  }

  ghost predicate Increasing(at: seq<nat>) {
    forall j, k :: 0 <= j < k < |at| ==> at[j] < at[k]
  }

  /** `on` is what stands in `bs` at the positions `at`, all of them enabled. */
  ghost predicate Selects(bs: seq<BackendConf>, at: seq<nat>, on: seq<BackendConf>) {
    |at| == |on| && forall k :: 0 <= k < |at| ==> at[k] < |bs| && bs[at[k]].enabled && on[k] == bs[at[k]]
  }

  ghost predicate CoversEnabled(bs: seq<BackendConf>, at: seq<nat>) {
    forall i :: 0 <= i < |bs| && bs[i].enabled ==> i in at
  }

  lemma SelectionGrows(bs: seq<BackendConf>, at: seq<nat>, on: seq<BackendConf>, b: BackendConf) returns (at': seq<nat>)
    requires Selects(bs, at, on) && Increasing(at) && CoversEnabled(bs, at)
    ensures Increasing(at') && Selects(bs + [b], at', on + (if b.enabled then [b] else []))
    ensures CoversEnabled(bs + [b], at')
  {
    at' := if b.enabled then at + [|bs|] else at;
    forall i | 0 <= i < |bs + [b]| && (bs + [b])[i].enabled ensures i in at' {
      if i < |bs| {
        assert bs[i].enabled && i in at;
      } else {
        assert at'[|at|] == i;
      }
    }
  }

  /** The enabled list is the subsequence at the positions that are enabled, all of them, in order. */
  lemma {:induction false} EnabledPositions(bs: seq<BackendConf>) returns (at: seq<nat>)
    ensures Increasing(at) && Selects(bs, at, Enabled(bs)) && CoversEnabled(bs, at)
  {
    if bs == [] {
      at := [];
    } else {
      var n := |bs| - 1;
      var front := EnabledPositions(bs[..n]);
      EnabledSnoc(bs[..n], bs[n]);
      assert bs == bs[..n] + [bs[n]];
      at := SelectionGrows(bs[..n], front, Enabled(bs[..n]), bs[n]);
    }
  }

  /** The target keeps name, url and weight, and is probed on its own scheme and authority. */
  ghost predicate IsTargetOf(t: Target, b: BackendConf) {
    && t.backend.name == b.name && t.backend.url == b.url && t.weight == b.weight
    && t.backend.uriHealth == Uri(Some(b.url.scheme), Some(b.url.authority), Some("/health"))
  }

  /**
   What a slot must hold, entry by entry: one target for each enabled backend, in order,
   under the config's strategy.
   */
  lemma BuiltFromEnabled(c: Config, slot: Slot) returns (at: seq<nat>)
    requires SlotView(c, slot).Some?
    ensures var bs, v := SlotBackends(c, slot), SlotView(c, slot).value;
            && v.strategy == c.strategy && |at| == |v.targets| > 0
            && Increasing(at) && CoversEnabled(bs, at)
            && forall k :: 0 <= k < |at| ==> at[k] < |bs| && bs[at[k]].enabled && IsTargetOf(v.targets[k], bs[at[k]])
  {
    at := EnabledPositions(SlotBackends(c, slot));
  }

  /** A slot is empty iff every backend of its list is disabled. */
  lemma {:induction false} EnabledEmptyIff(bs: seq<BackendConf>)
    ensures Enabled(bs) == [] <==> forall i :: 0 <= i < |bs| ==> !bs[i].enabled
  {
    if bs != [] {
      EnabledEmptyIff(bs[1..]);
      assert forall i :: 1 <= i < |bs| ==> bs[i] == bs[1..][i - 1];
      if !bs[0].enabled && Enabled(bs[1..]) == [] {
        forall i | 0 <= i < |bs| ensures !bs[i].enabled {
          if i > 0 { assert !bs[1..][i - 1].enabled; }
        }
      }
    }
  }

  /** A slot is to be None exactly when its list is missing or has nothing enabled on it. */
  lemma SlotNoneIff(c: Config)
    ensures SlotView(c, Main).None? <==> forall i :: 0 <= i < |c.backends| ==> !c.backends[i].enabled
    ensures SlotView(c, Fallback).None? <==>
            c.fallback.None? || forall i :: 0 <= i < |c.fallback.value| ==> !c.fallback.value[i].enabled
  {
    EnabledEmptyIff(c.backends);
    EnabledEmptyIff(c.fallback.GetOr([]));
  }

  /** Both slots are to go by their lists. */
  lemma SlotsReflect(c: Config)
    ensures Reflects(SlotView(c, Main), c.strategy, c.backends)
    ensures Reflects(SlotView(c, Fallback), c.strategy, if c.fallback.Some? then c.fallback.value else [])
  {
    SlotNoneIff(c);
    if SlotView(c, Main).Some? {
      var at := BuiltFromEnabled(c, Main);
      assert ListsEnabled(c.backends, at, SlotView(c, Main).value.targets);
    }
    if SlotView(c, Fallback).Some? {
      var at := BuiltFromEnabled(c, Fallback);
      assert ListsEnabled(c.fallback.GetOr([]), at, SlotView(c, Fallback).value.targets);
    }
  }

  // ----- toggles, entry by entry

  /** `d` is `c` with the flag of the main backends of that name set, and nothing else changed. */
  ghost predicate FlagSet(c: Config, d: Config, name: string, enabled: bool) {
    && d.strategy == c.strategy && d.fallback == c.fallback && |d.backends| == |c.backends|
    && forall i :: 0 <= i < |c.backends| ==>
         d.backends[i] == if c.backends[i].name == name then c.backends[i].(enabled := enabled) else c.backends[i]
  }

  /** One toggle, entry by entry: it sets the flag of the one backend of that name, or there is none. */
  lemma ToggledInFull(c: Config, t: Toggle)
    requires UniqueNames(c)
    ensures Toggled(c, t).Some? <==> exists i :: 0 <= i < |c.backends| && c.backends[i].name == t.name
    ensures Toggled(c, t).Some? ==> FlagSet(c, Toggled(c, t).value, t.name, t.enabled)
  {
    MainNamesDistinct(c);
    var at := Find(c.backends, t.name);
    if at.Some? {
      var d := Toggled(c, t).value;
      forall i | 0 <= i < |c.backends|
        ensures d.backends[i] ==
                if c.backends[i].name == t.name then c.backends[i].(enabled := t.enabled) else c.backends[i]
      {
        var ns := Names(c.backends);
        assert ns[i] == c.backends[i].name && ns[at.value] == t.name;
      }
    }
  }
}
