/** What the handler's outcome means: sleeps, replays, rewriting, and what the client gets back. */
module HandlerTheorems {
  import opened Wrappers
  import opened Configs
  import opened Http
  import opened Collector
  import opened Retry

  // ----- sleeps

  lemma {:induction false} FailuresSplit(w: World, path: string, n: nat)
    requires FirstOk(w, path, n) == n
    ensures Inners(w, path, n) + Vacants(w, path, n) == n
  {
    if n > 0 {
      assert !VerdictOf(w, n - 1, path).Ok?;
      FailuresSplit(w, path, n - 1);
    }
  }

  lemma SumSnoc(ds: seq<nat>, d: nat)
    ensures Sum(ds + [d]) == Sum(ds) + d
  {
    assert (ds + [d])[..|ds|] == ds;
  }

  /** Time slept after k backend errors and m attempts without a healthy node */
  function Backoff(s: Settings, k: nat, m: nat): int {
    s.retryInterval * (Pow2(k) - 1) + m * s.retryIntervalNoHealthyNodes
  }

  lemma BackoffNext(s: Settings, k: nat, m: nat)
    ensures Backoff(s, k, m + 1) == Backoff(s, k, m) + s.retryIntervalNoHealthyNodes
    ensures Backoff(s, k + 1, m) == Backoff(s, k, m) + s.retryInterval * Pow2(k)
  {
    Doubling(s.retryInterval, Pow2(k));
    Distribute(m, s.retryIntervalNoHealthyNodes);
  }

  lemma Doubling(u: int, p: int)
    ensures u * (2 * p - 1) == u * (p - 1) + u * p
  {
  }

  lemma Distribute(m: int, v: int)
    ensures (m + 1) * v == m * v + v
  {
  }

  /**
   n failed attempts, k of them backend errors and m without a healthy node, sleep
   retry_interval * (2^k - 1) + m * the other interval, in whatever order they came.
   */
  lemma {:induction false} BackoffClosedForm(w: World, s: Settings, path: string, n: nat)
    requires FirstOk(w, path, n) == n
    ensures Inners(w, path, n) + Vacants(w, path, n) == n
    ensures Sum(Sleeps(w, s, path, n)) == Backoff(s, Inners(w, path, n), Vacants(w, path, n))
  {
    FailuresSplit(w, path, n);
    if n == 0 {
      assert Pow2(0) == 1;
    } else {
      assert !VerdictOf(w, n - 1, path).Ok?;
      BackoffClosedForm(w, s, path, n - 1);
      BackoffNext(s, Inners(w, path, n - 1), Vacants(w, path, n - 1));
      LastSleep(w, s, path, n);
    }
  }

  lemma LastSleep(w: World, s: Settings, path: string, n: nat)
    requires n > 0
    ensures Sum(Sleeps(w, s, path, n)) ==
            Sum(Sleeps(w, s, path, n - 1))
            + (if VerdictOf(w, n - 1, path).NoNodes? then s.retryIntervalNoHealthyNodes
               else DelayAfter(w, s, path, n - 1))
  {
    SumSnoc(Sleeps(w, s, path, n - 1), Sleeps(w, s, path, n)[n - 1]);
  }

  /** The attempts before the n-th for which a backend was picked, and those for which there was none */
  ghost function PickedBefore(w: World, n: nat): set<nat> {
    set i: nat | i < n && w.turns(i).Picked?
  }

  ghost function VacantBefore(w: World, n: nat): set<nat> {
    set i: nat | i < n && w.turns(i).NoHealthyNodes?
  }

  lemma OneMoreTurn(w: World, n: nat)
    ensures w.turns(n).Picked? ==> |PickedBefore(w, n + 1)| == |PickedBefore(w, n)| + 1
                                   && VacantBefore(w, n + 1) == VacantBefore(w, n)
    ensures !w.turns(n).Picked? ==> |VacantBefore(w, n + 1)| == |VacantBefore(w, n)| + 1
                                    && PickedBefore(w, n + 1) == PickedBefore(w, n)
  {
    if w.turns(n).Picked? {
      assert PickedBefore(w, n + 1) == PickedBefore(w, n) + {n};
    } else {
      assert VacantBefore(w, n + 1) == VacantBefore(w, n) + {n};
    }
  }

  /** Among failed attempts the backend errors are those for which a backend was picked. */
  lemma {:induction false} FailuresByTurn(w: World, path: string, n: nat)
    requires FirstOk(w, path, n) == n
    ensures Inners(w, path, n) == |PickedBefore(w, n)| && Vacants(w, path, n) == |VacantBefore(w, n)|
  {
    if n == 0 {
      assert PickedBefore(w, 0) == {} && VacantBefore(w, 0) == {};
    } else {
      assert !VerdictOf(w, n - 1, path).Ok?;
      FailuresByTurn(w, path, n - 1);
      OneMoreTurn(w, n - 1);
    }
  }

  lemma {:induction false} SleepAt(w: World, s: Settings, path: string, n: nat, i: nat)
    requires i < n
    ensures Sleeps(w, s, path, n)[i] ==
            if VerdictOf(w, i, path).NoNodes? then s.retryIntervalNoHealthyNodes else DelayAfter(w, s, path, i)
    decreases n
  {
    if i < n - 1 { SleepAt(w, s, path, n - 1, i); }
  }

  lemma FailedPrefix(w: World, path: string, n: nat, i: nat)
    requires i <= FirstOk(w, path, n)
    ensures FirstOk(w, path, i) == i
  {
    assert FirstOk(w, path, i) < i ==> VerdictOf(w, FirstOk(w, path, i), path).Ok?;
  }

  /**
   Each sleep of a buffered request: after an attempt that found no backend the fixed interval,
   after a backend error retry_interval doubled once for each backend error before it.
   */
  lemma EachSleep(s: Settings, w: World, router: RouterId, r: Request, i: nat)
    requires s.Valid() && i < |Retried(s, w, router, r).slept|
    ensures Retried(s, w, router, r).slept[i] ==
            if w.turns(i).NoHealthyNodes? then s.retryIntervalNoHealthyNodes
            else s.retryInterval * Pow2(|PickedBefore(w, i)|)
  {
    var path, n := PathOf(r), s.retryAttempts as nat;
    var f := FirstOk(w, path, n);
    SleepAt(w, s, path, |Retried(s, w, router, r).slept|, i);
    FailedPrefix(w, path, n, i);
    FailuresByTurn(w, path, i);
    assert i < f && !VerdictOf(w, i, path).Ok?;
  }

  /** All the time a buffered request sleeps, for every stream of outcomes */
  lemma TotalSleep(s: Settings, w: World, router: RouterId, r: Request)
    requires s.Valid() && !Retried(s, w, router, r).result.Panicked?
    ensures var n := FirstOk(w, PathOf(r), s.retryAttempts as nat);
            var k, m := Inners(w, PathOf(r), n), Vacants(w, PathOf(r), n);
            && k + m == n <= s.retryAttempts as nat
            && k == |PickedBefore(w, n)| && m == |VacantBefore(w, n)|
            && Sum(Retried(s, w, router, r).slept) == Backoff(s, k, m)
  {
    var n := FirstOk(w, PathOf(r), s.retryAttempts as nat);
    FirstOkStable(w, PathOf(r), s.retryAttempts as nat);
    BackoffClosedForm(w, s, PathOf(r), n);
    FailuresByTurn(w, PathOf(r), n);
    assert Retried(s, w, router, r).slept == Sleeps(w, s, PathOf(r), n);
  }

  lemma FirstOkStable(w: World, path: string, n: nat)
    ensures FirstOk(w, path, FirstOk(w, path, n)) == FirstOk(w, path, n)
  {
    var f := FirstOk(w, path, n);
    assert FirstOk(w, path, f) < f ==> VerdictOf(w, FirstOk(w, path, f), path).Ok?;
  }

  // ----- overflow of the delay

  lemma {:induction false} DelayGrows(w: World, s: Settings, path: string, i: nat, n: nat)
    requires i <= n
    ensures DelayAfter(w, s, path, i) <= DelayAfter(w, s, path, n)
    decreases n - i
  {
    if i < n {
      DelayGrows(w, s, path, i, n - 1);
      var u, p := s.retryInterval, Pow2(Inners(w, path, n - 1));
      if VerdictOf(w, n - 1, path).Inner? {
        assert u * (2 * p) == 2 * (u * p);
      }
    }
  }

  /**
   The handler dies of an overflow exactly when the delay due after its failures does not fit a
   Duration; by then it has already completed one sleep of more than half the largest Duration.
   */
  lemma PanicsIffDelayOverflows(s: Settings, w: World, router: RouterId, r: Request)
    requires s.Valid()
    ensures var o := Retried(s, w, router, r);
            var f := FirstOk(w, PathOf(r), s.retryAttempts as nat);
            && (o.result.Panicked? <==> DelayAfter(w, s, PathOf(r), f) > DURATION_MAX)
            && (o.result.Panicked? ==> |o.slept| > 0 && 2 * o.slept[|o.slept| - 1] > DURATION_MAX)
  {
    var f := FirstOk(w, PathOf(r), s.retryAttempts as nat);
    var p := FirstOverflow(w, s, PathOf(r), f);
    if p < f {
      DelayGrows(w, s, PathOf(r), p + 1, f);
      assert DelayAfter(w, s, PathOf(r), p) <= DURATION_MAX;
      var u, q := s.retryInterval, Pow2(Inners(w, PathOf(r), p));
      assert VerdictOf(w, p, PathOf(r)).Inner?;
      assert u * (2 * q) == 2 * (u * q);
    }
  }

  lemma InnersBounded(w: World, path: string, n: nat)
    ensures Inners(w, path, n) <= n
  {
  }

  lemma {:induction false} Pow2Grows(k: nat, n: nat)
    requires k <= n
    ensures Pow2(k) <= Pow2(n)
    decreases n - k
  {
    if k < n { Pow2Grows(k, n - 1); }
  }

  lemma ProductGrows(u: nat, p: nat, q: nat)
    requires p <= q
    ensures u * p <= u * q
  {
  }

  /** Every attempt finds a backend that can be addressed, and is refused by it. */
  ghost predicate AllRefused(w: World, path: string) {
    forall i: nat :: VerdictOf(w, i, path).Inner?
  }

  lemma {:induction false} AllFail(w: World, path: string, n: nat)
    requires AllRefused(w, path)
    ensures FirstOk(w, path, n) == n && Inners(w, path, n) == n
  {
    if n > 0 {
      AllFail(w, path, n - 1);
      assert VerdictOf(w, n - 1, path).Inner?;
    }
  }

  /** A world in which one backend refuses every call */
  function RefusingWorld(b: Backend): World {
    World(_ => Some(""), (_, _, _) => true, h => h, _ => Picked(b, Refused("")))
  }

  /**
   Whatever the router and the backends do, a buffered request cannot die of an overflow exactly
   when the interval doubled after every allowed attempt still fits a Duration. Otherwise a
   backend that refuses every call brings it about.
   */
  lemma NeverPanicsIff(s: Settings, router: RouterId, r: Request)
    requires s.Valid()
    ensures (forall w: World :: !Retried(s, w, router, r).result.Panicked?) <==>
            s.retryInterval * Pow2(s.retryAttempts as nat) <= DURATION_MAX
  {
    var n, path := s.retryAttempts as nat, PathOf(r);
    if s.retryInterval * Pow2(n) <= DURATION_MAX {
      forall w: World ensures !Retried(s, w, router, r).result.Panicked? {
        StaysSmall(s, w, router, r);
      }
    } else {
      RefusalsPanic(s, router, r, Backend("", Url("", "", ""), Uri(None, None, None)));
    }
  }

  lemma StaysSmall(s: Settings, w: World, router: RouterId, r: Request)
    requires s.Valid() && s.retryInterval * Pow2(s.retryAttempts as nat) <= DURATION_MAX
    ensures !Retried(s, w, router, r).result.Panicked?
  {
    var n, path := s.retryAttempts as nat, PathOf(r);
    var f := FirstOk(w, path, n);
    PanicsIffDelayOverflows(s, w, router, r);
    InnersBounded(w, path, f);
    Pow2Grows(Inners(w, path, f), n);
    ProductGrows(s.retryInterval, Pow2(Inners(w, path, f)), Pow2(n));
  }

  /** The input that panics, for any settings whose last delay does not fit */
  lemma RefusalsPanic(s: Settings, router: RouterId, r: Request, b: Backend)
    requires s.Valid() && s.retryInterval * Pow2(s.retryAttempts as nat) > DURATION_MAX
    ensures Retried(s, RefusingWorld(b), router, r).result.Panicked?
  {
    var w := RefusingWorld(b);
    AllFail(w, PathOf(r), s.retryAttempts as nat);
    PanicsIffDelayOverflows(s, w, router, r);
  }

  /** An empty body, which is buffered under any settings that buffer at all */
  function EmptyRequest(): Request {
    Request(Uri(None, None, None), Http11, map[], Full([]))
  }

  /**
   The settings alone decide: no request of any kind, in any world, can make the handler die of an
   overflow exactly when they never buffer requests or the last doubled delay fits a Duration.
   */
  lemma HandlerNeverPanicsIff(s: Settings)
    requires s.Valid()
    ensures (forall w: World, router: Option<RouterId>, r: Request :: !Handled(s, w, router, r).result.Panicked?) <==>
            ((s.retryAttempts > 1 || s.requestBodyBuffer) ==>
               s.retryInterval * Pow2(s.retryAttempts as nat) <= DURATION_MAX)
  {
    if (s.retryAttempts > 1 || s.requestBodyBuffer) && s.retryInterval * Pow2(s.retryAttempts as nat) > DURATION_MAX {
      var b, r := Backend("", Url("", "", ""), Uri(None, None, None)), EmptyRequest();
      RefusalsPanic(s, 0, WithHost(r, "").(body := Full([])), b);
      assert CollectedOf(r.body.frames, s.requestBodySizeLimit) == Whole([]);
      assert Handled(s, RefusingWorld(b), Some(0), r).result.Panicked?;
    } else {
      forall w: World, router: Option<RouterId>, r: Request ensures !Handled(s, w, router, r).result.Panicked? {
        if ShouldBuffer(s, r) && w.authorityOf(r).Some? && router.Some? {
          var named := WithHost(r, w.authorityOf(r).value);
          match CollectedOf(r.body.frames, s.requestBodySizeLimit)
          case Whole(bytes) => StaysSmall(s, w, router.value, named.(body := Full(bytes)));
          case _ =>
        }
      }
    }
  }

  // ----- calls, replays and what each attempt carries

  /** The calls of the router: up to the first success, at most the allowed number. */
  lemma CallsAreFirstOk(s: Settings, w: World, router: RouterId, r: Request)
    requires s.Valid() && !Retried(s, w, router, r).result.Panicked?
    ensures var o := Retried(s, w, router, r);
            && 1 <= o.calls <= s.retryAttempts as nat
            && (forall i :: 0 <= i < o.calls - 1 ==> !VerdictOf(w, i, PathOf(r)).Ok?)
            && (o.calls < s.retryAttempts as nat ==> VerdictOf(w, o.calls - 1, PathOf(r)).Ok?)
            && (VerdictOf(w, o.calls - 1, PathOf(r)).Ok? ==>
                  o.result == Replied(Delivered(s, VerdictOf(w, o.calls - 1, PathOf(r)).response
                                                   .(retries := Some((o.calls - 1) as u8))).0))
            && (!VerdictOf(w, o.calls - 1, PathOf(r)).Ok? ==>
                  o.result == Replied(ErrorResponse(CauseOf(VerdictOf(w, o.calls - 1, PathOf(r))))))
  {
  }

  /** Every attempt that reaches the client carries the same thing, to the backend it names. */
  ghost predicate Carries(w: World, router: RouterId, r: Request, x: Sent) {
    && x.router == router
    && x.request.uri == Uri(Some(x.backend.url.scheme), Some(x.backend.url.authority), Some(PathOf(r)))
    && x.request.version == Http11
    && x.request.headers == w.strip(r.headers)
    && x.request.body == r.body
  }

  lemma {:induction false} SentCarries(w: World, router: RouterId, r: Request, n: nat, x: Sent)
    requires x in SentBy(w, router, r, n)
    ensures Carries(w, router, r, x)
    ensures exists i :: 0 <= i < n && w.turns(i).Picked? && w.turns(i).backend == x.backend
  {
    if x in SentBy(w, router, r, n - 1) {
      SentCarries(w, router, r, n - 1, x);
    } else {
      assert w.turns(n - 1).Picked? && w.turns(n - 1).backend == x.backend;
    }
  }

  /**
   Every request handed to the client went through the one router captured at entry, with the
   original path and query, "/" when there was none, the backend's scheme and authority, HTTP/1.1
   and the host it was asked for, unless its own connection field names that header; and so with
   every other header of the client.
   */
  lemma AttemptsAlike(s: Settings, w: World, router: RouterId, r: Request, x: Sent)
    requires s.Valid() && w.authorityOf(r).Some?
    requires x in Handled(s, w, Some(router), r).sent
    ensures var headers := r.headers[X_FORWARDED_HOST := [w.authorityOf(r).value]];
            && x.router == router
            && x.request.uri == Uri(Some(x.backend.url.scheme), Some(x.backend.url.authority),
                                    Some(r.uri.pathAndQuery.GetOr("/")))
            && x.request.version == Http11
            && x.request.headers == w.strip(headers)
            && (KeepsUnnamed(w) && !NamedByConnection(r.headers, X_FORWARDED_HOST) ==>
                  && X_FORWARDED_HOST in x.request.headers
                  && x.request.headers[X_FORWARDED_HOST] == [w.authorityOf(r).value])
            && (KeepsUnnamed(w) ==>
                  forall name :: name != X_FORWARDED_HOST && Unnamed(r.headers, name) ==>
                                   name in x.request.headers && x.request.headers[name] == r.headers[name])
  {
    var named := WithHost(r, w.authorityOf(r).value);
    if !ShouldBuffer(s, r) {
      SentCarries(w, router, named, 1, x);
    } else {
      var bytes := CollectedOf(r.body.frames, s.requestBodySizeLimit).bytes;
      var req := named.(body := Full(bytes));
      var n := Retried(s, w, router, req).calls;
      SentCarries(w, router, req, n, x);
    }
    SameConnection(r, w.authorityOf(r).value);
    forall name | name != X_FORWARDED_HOST && Unnamed(r.headers, name)
      ensures Unnamed(named.headers, name) && named.headers[name] == r.headers[name]
    {
      OthersUnnamed(r, w.authorityOf(r).value, name);
    }
  }

  /** Stripping keeps every field that is not hop-by-hop, by itself or because the connection field names it. */
  ghost predicate KeepsUnnamed(w: World) {
    forall h, name :: Unnamed(h, name) ==> name in w.strip(h) && w.strip(h)[name] == h[name]
  }

  predicate Unnamed(h: Headers, name: string) {
    name in h && name !in HOP_BY_HOP && !NamedByConnection(h, name)
  }

  /** Stripping to the letter of section 7.6.1 of RFC 9110 */
  function StripToTheLetter(h: Headers): Headers {
    map name | name in h && Unnamed(h, name) :: h[name]
  }

  /** Under such stripping the forwarded host arrives exactly when the client's connection field does not name it. */
  lemma HostArrivesIff(s: Settings, w: World, router: RouterId, r: Request, x: Sent)
    requires s.Valid() && w.authorityOf(r).Some? && w.strip == StripToTheLetter
    requires x in Handled(s, w, Some(router), r).sent
    ensures KeepsUnnamed(w)
    ensures X_FORWARDED_HOST in x.request.headers <==> !NamedByConnection(r.headers, X_FORWARDED_HOST)
  {
    AttemptsAlike(s, w, router, r, x);
    SameConnection(r, w.authorityOf(r).value);
  }

  lemma OthersUnnamed(r: Request, host: string, name: string)
    requires name != X_FORWARDED_HOST && Unnamed(r.headers, name)
    ensures Unnamed(WithHost(r, host).headers, name) && WithHost(r, host).headers[name] == r.headers[name]
  {
    assert |CONNECTION| != |X_FORWARDED_HOST|;
  }

  lemma SameConnection(r: Request, host: string)
    ensures NamedByConnection(WithHost(r, host).headers, X_FORWARDED_HOST) <==>
            NamedByConnection(r.headers, X_FORWARDED_HOST)
    ensures NamedByConnection(r.headers, X_FORWARDED_HOST) || Unnamed(WithHost(r, host).headers, X_FORWARDED_HOST)
  {
    assert |CONNECTION| != |X_FORWARDED_HOST|;
    assert forall name :: name in HOP_BY_HOP ==> |name| != |X_FORWARDED_HOST| || name[0] != X_FORWARDED_HOST[0];
  }

  /**
   A one-shot body is never replayed: an unbuffered request makes at most one call and passes its
   body on as it is; more than one call means the body was collected whole and every attempt
   carries its bytes.
   */
  lemma NeverReplayed(s: Settings, w: World, router: Option<RouterId>, r: Request)
    requires s.Valid()
    ensures var o := Handled(s, w, router, r);
            && |o.sent| <= o.calls
            && (!ShouldBuffer(s, r) ==>
                  && o.calls <= 1 && |o.sent| <= 1 && o.slept == []
                  && forall x :: x in o.sent ==> x.request.body == r.body)
            && (ShouldBuffer(s, r) && o.calls > 0 ==>
                  && Intact(r.body.frames) && |DataOf(r.body.frames)| <= s.requestBodySizeLimit
                  && forall x :: x in o.sent ==> x.request.body == Full(DataOf(r.body.frames)))
            && (o.calls > 1 ==> ShouldBuffer(s, r))
            && (o.context.requestBodyBuffered <==> ShouldBuffer(s, r) && o.calls > 0)
  {
    var o := Handled(s, w, router, r);
    if w.authorityOf(r).Some? && router.Some? {
      var named := WithHost(r, w.authorityOf(r).value);
      if !ShouldBuffer(s, r) {
        SentAtMost(w, router.value, named, 1);
        forall x | x in o.sent ensures x.request.body == r.body {
          SentCarries(w, router.value, named, 1, x);
        }
      } else if CollectedOf(r.body.frames, s.requestBodySizeLimit).Whole? {
        CollectedWhole(r.body.frames, s.requestBodySizeLimit);
        var req := named.(body := Full(DataOf(r.body.frames)));
        SentAtMost(w, router.value, req, o.calls);
        forall x | x in o.sent ensures x.request.body == req.body {
          SentCarries(w, router.value, req, o.calls, x);
        }
      }
    }
  }

  lemma {:induction false} SentAtMost(w: World, router: RouterId, r: Request, n: nat)
    ensures |SentBy(w, router, r, n)| <= n
  {
    if n > 0 { SentAtMost(w, router, r, n - 1); }
  }

  lemma CollectedWhole(frames: seq<Frame>, limit: nat)
    requires CollectedOf(frames, limit).Whole?
    ensures Intact(frames) && |DataOf(frames)| <= limit && CollectedOf(frames, limit) == Whole(DataOf(frames))
  {
  }

  /** The backend in the context is the one picked last, whatever the later attempts found. */
  lemma {:induction false} LastPickedIsLast(w: World, n: nat)
    ensures LastPicked(w, n).None? <==> forall i :: 0 <= i < n ==> w.turns(i).NoHealthyNodes?
    ensures LastPicked(w, n).Some? ==>
              exists i :: 0 <= i < n && w.turns(i).Picked? && LastPicked(w, n) == Some(w.turns(i).backend)
                          && forall j :: i < j < n ==> w.turns(j).NoHealthyNodes?
  {
    if n > 0 {
      LastPickedIsLast(w, n - 1);
      if w.turns(n - 1).NoHealthyNodes? && LastPicked(w, n - 1).Some? {
        var i :| 0 <= i < n - 1 && w.turns(i).Picked? && LastPicked(w, n - 1) == Some(w.turns(i).backend)
                 && forall j :: i < j < n - 1 ==> w.turns(j).NoHealthyNodes?;
        assert forall j :: i < j < n ==> w.turns(j).NoHealthyNodes?;
      }
    }
  }

  /** Whatever happens, the context names the backend picked last in the calls that were made. */
  lemma ContextNamesLastBackend(s: Settings, w: World, router: Option<RouterId>, r: Request)
    requires s.Valid()
    ensures Handled(s, w, router, r).context.backend == LastPicked(w, Handled(s, w, router, r).calls)
  {
  }

  // ----- what the client gets

  /** The data of a body, unless it breaks or stalls on the way */
  ghost predicate SameData(a: Response, b: Response) {
    a.status == b.status && a.headers == b.headers && DataOf(a.body.frames) == DataOf(b.body.frames)
  }

  lemma DataOfFull(bytes: Bytes)
    ensures DataOf(Full(bytes).frames) == bytes
  {
    if bytes != [] { assert [Data(bytes)][1..] == []; }
  }

  /**
   Response buffering is transparent for status, headers, extensions and data whenever the body
   arrives whole and within the limit; otherwise the response is replaced by the error that says why.
   */
  lemma ResponseTransparent(s: Settings, v: Response)
    ensures var d := Delivered(s, v).0;
            && (!BuffersResponse(s, v) ==> d == v)
            && (BuffersResponse(s, v) && Intact(v.body.frames) && |DataOf(v.body.frames)| <= s.responseBodySizeLimit ==>
                  SameData(d, v) && d.retries == v.retries && d.cause == v.cause && Delivered(s, v).1)
            && (BuffersResponse(s, v)
                && !(Intact(v.body.frames) && |DataOf(v.body.frames)| <= s.responseBodySizeLimit) ==>
                  && d.cause.Some? && d == ErrorResponse(d.cause.value) && d.retries.None? && !Delivered(s, v).1
                  && (d.cause.value.BackendTimeout? || d.cause.value.BackendBodyError?))
  {
    DataOfFull(DataOf(v.body.frames));
  }

  /** With a truthful size the limit never bites: an unbroken body always arrives. */
  lemma TruthfulResponse(s: Settings, v: Response)
    requires v.body.exact == Some(|DataOf(v.body.frames)|) && Intact(v.body.frames)
    ensures SameData(Delivered(s, v).0, v) && Delivered(s, v).1 == BuffersResponse(s, v)
  {
    ResponseTransparent(s, v);
  }

  /**
   Buffering keeps the data but not the trailers: the trailer frames of an intact response are
   delivered exactly when it is not buffered or had none.
   */
  lemma TrailersSurviveIff(s: Settings, v: Response)
    requires BuffersResponse(s, v) ==> CollectedOf(v.body.frames, s.responseBodySizeLimit).Whole?
    ensures TrailersOf(Delivered(s, v).0.body.frames) == TrailersOf(v.body.frames) <==>
            !BuffersResponse(s, v) || TrailersOf(v.body.frames) == []
  {
    if BuffersResponse(s, v) {
      FullHasNoTrailers(DataOf(v.body.frames));
    }
  }

  function TrailersOf(frames: seq<Frame>): seq<Headers> {
    if frames == [] then []
    else (if frames[0].Trailers? then [frames[0].fields] else []) + TrailersOf(frames[1..])
  }

  lemma FullHasNoTrailers(bytes: Bytes)
    ensures TrailersOf(Full(bytes).frames) == []
  {
    if bytes != [] { assert [Data(bytes)][1..] == []; }
  }
}
