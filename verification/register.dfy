/**
 The sequential register the mutex-guarded config must look like: one event for each time the
 mutex was taken, in lock order.
 */
module Register {
  import opened Wrappers
  import opened Configs

  datatype Event =
    | Wrote(cfg: Config)        // set_config replaced the config
    | Flipped(toggle: Toggle)   // set_backend_state found the backend and set its flag
    | Missed(toggle: Toggle)    // set_backend_state found no such main backend
    | Saw(cfg: Config)          // get_config or persist_config cloned the config

  function Effect(c: Config, e: Event): Config {
    match e
    case Wrote(cfg) => cfg
    case Flipped(t) => Toggled(c, t).GetOr(c)
    case Missed(_) => c
    case Saw(_) => c
  }

  /** What the sequential register answers in state `c` */
  ghost predicate Answers(c: Config, e: Event) {
    match e
    case Wrote(cfg) => UniqueNames(cfg)
    case Flipped(t) => Toggled(c, t).Some?
    case Missed(t) => forall b :: b in c.backends ==> b.name != t.name
    case Saw(cfg) => cfg == c
  }

  function After(log: seq<Event>): Config {
    if log == [] then DEFAULT_CONFIG else Effect(After(log[..|log| - 1]), log[|log| - 1])
  }

  ghost predicate AnsweredAt(log: seq<Event>, i: nat) {
    i < |log| && Answers(After(log[..i]), log[i])
  }

  /** Every event got the answer a sequential register would have given at its place. */
  ghost predicate Legal(log: seq<Event>) {
    forall i :: 0 <= i < |log| ==> AnsweredAt(log, i)
  }

  lemma AfterSnoc(log: seq<Event>, e: Event)
    ensures After(log + [e]) == Effect(After(log), e)
  {
    assert (log + [e])[..|log|] == log;
  }

  lemma LegalSnoc(log: seq<Event>, e: Event)
    requires Legal(log) && Answers(After(log), e)
    ensures Legal(log + [e])
  {
    var more := log + [e];
    forall i | 0 <= i < |more| ensures AnsweredAt(more, i) {
      if i < |log| {
        assert AnsweredAt(log, i);
        assert more[..i] == log[..i] && more[i] == log[i];
      } else {
        assert more[..i] == log;
      }
    }
  }

  /** The toggles of a stretch of log, answered or missed */
  function TogglesOf(log: seq<Event>): seq<Toggle> {
    if log == [] then []
    else
      var init, e := TogglesOf(log[..|log| - 1]), log[|log| - 1];
      if e.Flipped? || e.Missed? then init + [e.toggle] else init
  }

  /** Names stay unique along every legal log. */
  lemma {:induction false} LegalStaysUnique(log: seq<Event>)
    requires Legal(log)
    ensures UniqueNames(After(log))
  {
    if log != [] {
      var init, e := log[..|log| - 1], log[|log| - 1];
      LegalPrefix(log, |log| - 1);
      LegalStaysUnique(init);
      assert AnsweredAt(log, |log| - 1);
      if e.Flipped? {
        var one := [e.toggle];
        assert one[..0] == [];
        ToggleReplay(After(init), one);
        assert ToggledAll(After(init), []) == After(init);
        assert ToggledAll(After(init), one) == Effect(After(init), e);
      }
    }
  }

  lemma LegalPrefix(log: seq<Event>, n: nat)
    requires Legal(log) && n <= |log|
    ensures Legal(log[..n])
  {
    forall i | 0 <= i < n ensures AnsweredAt(log[..n], i) {
      assert AnsweredAt(log, i);
      assert log[..n][..i] == log[..i];
    }
  }

  /** A miss and a hit read the same in a replay of toggles. */
  lemma EventIsToggle(c: Config, e: Event)
    requires Answers(c, e) && (e.Flipped? || e.Missed?)
    ensures Effect(c, e) == Toggled(c, e.toggle).GetOr(c)
  {
    if e.Missed? {
      assert Find(c.backends, e.toggle.name).None?;
    }
  }

  lemma ToggledAllSnoc(c: Config, ts: seq<Toggle>, t: Toggle)
    ensures ToggledAll(c, ts + [t]) == Toggled(ToggledAll(c, ts), t).GetOr(ToggledAll(c, ts))
  {
    assert (ts + [t])[..|ts|] == ts;
  }

  /** A stretch without uploads does to the config what its toggles do. */
  lemma {:induction false} ToggleFold(front: seq<Event>, tail: seq<Event>)
    requires Legal(front + tail)
    requires forall e :: e in tail ==> !e.Wrote?
    ensures After(front + tail) == ToggledAll(After(front), TogglesOf(tail))
  {
    if tail == [] {
      assert front + tail == front;
    } else {
      var init, e := tail[..|tail| - 1], tail[|tail| - 1];
      assert front + tail == (front + init) + [e] && tail == init + [e];
      LegalSplit(front + init, e);
      ToggleFold(front, init);
      FoldOneMore(After(front + init), After(front), init, e);
    }
  }

  lemma LegalSplit(log: seq<Event>, e: Event)
    requires Legal(log + [e])
    ensures Legal(log) && Answers(After(log), e) && After(log + [e]) == Effect(After(log), e)
  {
    var more := log + [e];
    assert more[..|log|] == log && more[|log|] == e;
    LegalPrefix(more, |log|);
    assert AnsweredAt(more, |log|);
    AfterSnoc(log, e);
  }

  lemma FoldOneMore(before: Config, c: Config, tail: seq<Event>, e: Event)
    requires before == ToggledAll(c, TogglesOf(tail))
    requires Answers(before, e) && !e.Wrote?
    ensures Effect(before, e) == ToggledAll(c, TogglesOf(tail + [e]))
  {
    TogglesSnoc(tail, e);
    if !e.Saw? {
      EventIsToggle(before, e);
      ToggledAllSnoc(c, TogglesOf(tail), e.toggle);
    }
  }

  lemma TogglesSnoc(tail: seq<Event>, e: Event)
    ensures TogglesOf(tail + [e]) == TogglesOf(tail) + (if e.Flipped? || e.Missed? then [e.toggle] else [])
  {
    assert (tail + [e])[..|tail|] == tail;
  }

  /** The config with the last flag of every name toggled in `since` written in */
  function WithFlags(cfg: Config, since: seq<Event>): Config {
    cfg.(backends := Flagged(cfg.backends, LastFlags(TogglesOf(since))))
  }

  lemma UploadFold(before: seq<Event>, cfg: Config, since: seq<Event>)
    requires Legal(before + [Wrote(cfg)] + since)
    requires forall e :: e in since ==> !e.Wrote?
    ensures After(before + [Wrote(cfg)] + since) == WithFlags(cfg, since)
  {
    UploadUnique(before, cfg, since);
    ToggleFold(before + [Wrote(cfg)], since);
    AfterSnoc(before, Wrote(cfg));
    ToggleReplay(cfg, TogglesOf(since));
  }

  lemma UploadUnique(before: seq<Event>, cfg: Config, since: seq<Event>)
    requires Legal(before + [Wrote(cfg)] + since)
    ensures UniqueNames(cfg)
  {
    assert AnsweredAt(before + [Wrote(cfg)] + since, |before|);
  }

  /**
   The config at any point is the last uploaded one with the last flag of every name toggled
   since that upload written in.
   */
  lemma SinceLastUpload(log: seq<Event>, at: nat, cfg: Config)
    requires Legal(log) && at < |log| && log[at] == Wrote(cfg)
    requires forall e :: e in log[at + 1..] ==> !e.Wrote?
    ensures After(log) == cfg.(backends := Flagged(cfg.backends, LastFlags(TogglesOf(log[at + 1..]))))
  {
    SplitAt(log, at);
    UploadFoldAt(log, cfg, log[..at], log[at + 1..]);
  }

  lemma SplitAt(log: seq<Event>, at: nat)
    requires at < |log|
    ensures log == log[..at] + [log[at]] + log[at + 1..]
  {
  }

  lemma UploadFoldAt(log: seq<Event>, cfg: Config, before: seq<Event>, since: seq<Event>)
    requires Legal(log) && log == before + [Wrote(cfg)] + since
    requires forall e :: e in since ==> !e.Wrote?
    ensures After(log) == WithFlags(cfg, since)
  {
    UploadFold(before, cfg, since);
  }

  /** Place n is the last after `at` at which the flag of that name was set. */
  ghost predicate LastFlip(log: seq<Event>, at: nat, name: string, n: nat) {
    && at < n < |log| && log[n].Flipped? && log[n].toggle.name == name
    && forall m :: n < m < |log| ==> !(log[m].Flipped? && log[m].toggle.name == name)
  }

  ghost predicate NoFlip(log: seq<Event>, at: nat, name: string) {
    forall m :: at < m < |log| ==> !(log[m].Flipped? && log[m].toggle.name == name)
  }

  /** The entry is as it was uploaded, but for its flag, which is that of the last flip of its name. */
  ghost predicate FlippedLast(log: seq<Event>, at: nat, uploaded: BackendConf, b: BackendConf) {
    && b == uploaded.(enabled := b.enabled)
    && (NoFlip(log, at, uploaded.name) ==> b == uploaded)
    && (forall n: nat :: LastFlip(log, at, uploaded.name, n) ==> b.enabled == log[n].toggle.enabled)
  }

  ghost predicate FlippedSince(log: seq<Event>, at: nat, cfg: Config, now: Config) {
    && now.strategy == cfg.strategy && now.fallback == cfg.fallback && |now.backends| == |cfg.backends|
    && forall i :: 0 <= i < |cfg.backends| ==> FlippedLast(log, at, cfg.backends[i], now.backends[i])
  }

  /** Entry by entry: the register is the last upload with every flag as it was last set since. */
  lemma {:induction false} SinceUploadInFull(log: seq<Event>, at: nat, cfg: Config)
    requires Legal(log) && at < |log| && log[at] == Wrote(cfg)
    requires forall n :: at < n < |log| ==> !log[n].Wrote?
    ensures FlippedSince(log, at, cfg, After(log))
    decreases |log|
  {
    var front, e := log[..|log| - 1], log[|log| - 1];
    assert log == front + [e];
    LegalSplit(front, e);
    if at < |front| {
      SinceUploadInFull(front, at, cfg);
      if e.Flipped? {
        LegalStaysUnique(front);
        ToggledInFull(After(front), e.toggle);
      }
      FlippedOneMore(front, at, cfg, After(front), e, After(log));
    }
  }

  lemma FlippedOneMore(front: seq<Event>, at: nat, cfg: Config, c: Config, e: Event, d: Config)
    requires at < |front| && FlippedSince(front, at, cfg, c) && !e.Wrote?
    requires if e.Flipped? then FlagSet(c, d, e.toggle.name, e.toggle.enabled) else d == c
    ensures FlippedSince(front + [e], at, cfg, d)
  {
    forall i | 0 <= i < |cfg.backends| ensures FlippedLast(front + [e], at, cfg.backends[i], d.backends[i]) {
      EntryOneMore(front, at, cfg.backends[i], c.backends[i], e, d.backends[i]);
    }
  }

  lemma EntryOneMore(front: seq<Event>, at: nat, uploaded: BackendConf, b: BackendConf, e: Event, b': BackendConf)
    requires at < |front| && FlippedLast(front, at, uploaded, b)
    requires b' == if e.Flipped? && b.name == e.toggle.name then b.(enabled := e.toggle.enabled) else b
    ensures FlippedLast(front + [e], at, uploaded, b')
  {
    var log := front + [e];
    assert forall m :: 0 <= m < |front| ==> log[m] == front[m];
    assert log[|front|] == e;
    forall n: nat | LastFlip(log, at, uploaded.name, n) ensures b'.enabled == log[n].toggle.enabled {
      if n < |front| { assert LastFlip(front, at, uploaded.name, n); }
    }
    if NoFlip(log, at, uploaded.name) { assert NoFlip(front, at, uploaded.name); }
  }

  lemma NoneWritten(log: seq<Event>, at: nat)
    requires at < |log| && forall n :: at < n < |log| ==> !log[n].Wrote?
    ensures forall e :: e in log[at + 1..] ==> !e.Wrote?
  {
    forall e | e in log[at + 1..] ensures !e.Wrote? {
      var k :| 0 <= k < |log| - at - 1 && log[at + 1..][k] == e;
      assert log[at + 1 + k] == e;
    }
  }

  // ----- when changes cancel out

  /** Where the last upload stands, if there is one */
  function LastUpload(events: seq<Event>): (at: Option<nat>)
    ensures at.Some? ==> at.value < |events| && events[at.value].Wrote?
                         && forall e :: e in events[at.value + 1..] ==> !e.Wrote?
    ensures at.None? ==> forall e :: e in events ==> !e.Wrote?
  {
    if events == [] then None
    else if events[|events| - 1].Wrote? then Some(|events| - 1)
    else
      var at := LastUpload(events[..|events| - 1]);
      assert at.Some? ==> events[at.value + 1..] == events[..|events| - 1][at.value + 1..] + [events[|events| - 1]];
      at
  }

  /**
   The events leave a register that held `c` with `c`: without an upload among them, every main
   backend of `c` they toggle gets its own flag back in the end; otherwise the last upload, with
   the flags toggled since, is `c`.
   */
  ghost predicate CancelOut(c: Config, events: seq<Event>) {
    match LastUpload(events)
    case None =>
      var flags := LastFlags(TogglesOf(events));
      forall b :: b in c.backends && b.name in flags ==> flags[b.name] == b.enabled
    case Some(at) => c == WithFlags(events[at].cfg, events[at + 1..])
  }

  /** The register is back at what it held before the events exactly when they cancel out. */
  lemma BackIffCancelOut(front: seq<Event>, events: seq<Event>)
    requires Legal(front + events)
    ensures After(front + events) == After(front) <==> CancelOut(After(front), events)
  {
    match LastUpload(events)
    case None => TogglesCase(front, events);
    case Some(at) => UploadCase(front, events[..at], events[at], events[at + 1..], events);
  }

  lemma TogglesCase(front: seq<Event>, events: seq<Event>)
    requires Legal(front + events) && forall e :: e in events ==> !e.Wrote?
    ensures var c, flags := After(front), LastFlags(TogglesOf(events));
            After(front + events) == c <==>
            forall b :: b in c.backends && b.name in flags ==> flags[b.name] == b.enabled
  {
    var c := After(front);
    assert (front + events)[..|front|] == front;
    LegalPrefix(front + events, |front|);
    LegalStaysUnique(front);
    ToggleFold(front, events);
    ToggleReplay(c, TogglesOf(events));
    FlaggedSameIff(c.backends, LastFlags(TogglesOf(events)));
  }

  lemma UploadCase(front: seq<Event>, head: seq<Event>, e: Event, since: seq<Event>, events: seq<Event>)
    requires Legal(front + events) && events == head + [e] + since && e.Wrote?
    requires forall f :: f in since ==> !f.Wrote?
    ensures After(front + events) == WithFlags(e.cfg, since)
  {
    assert front + events == (front + head) + [e] + since;
    UploadFold(front + head, e.cfg, since);
  }

  lemma FlaggedSameIff(bs: seq<BackendConf>, flags: map<string, bool>)
    ensures Flagged(bs, flags) == bs <==> forall b :: b in bs && b.name in flags ==> flags[b.name] == b.enabled
  {
    if Flagged(bs, flags) == bs {
      forall b | b in bs && b.name in flags ensures flags[b.name] == b.enabled {
        var i :| 0 <= i < |bs| && bs[i] == b;
        assert Flagged(bs, flags)[i] == bs[i];
      }
    }
  }

  /** Among uploads and looks only the last upload counts. */
  lemma {:induction false} UploadsCancelOutIff(c: Config, events: seq<Event>)
    requires forall e :: e in events ==> e.Wrote? || e.Saw?
    ensures CancelOut(c, events) <==>
            LastUpload(events).None? || events[LastUpload(events).value].cfg == c
  {
    NoToggles(events);
    if LastUpload(events).Some? {
      var at := LastUpload(events).value;
      NoToggles(events[at + 1..]);
      assert Flagged(events[at].cfg.backends, map[]) == events[at].cfg.backends;
    }
  }

  lemma {:induction false} NoToggles(events: seq<Event>)
    requires forall e :: e in events ==> e.Wrote? || e.Saw?
    ensures TogglesOf(events) == []
  {
    if events != [] {
      assert events[|events| - 1] in events;
      NoToggles(events[..|events| - 1]);
    }
  }
}
