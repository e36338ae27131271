/** The request handler as it runs: buffering, the retry loop, and the per-request context it updates on the way. */
module Handler {
  import opened Wrappers
  import opened Configs
  import opened Http
  import opened Collector
  import opened Retry

  /** The task-local context of one request */
  class RequestContext {
    var backend: Option<Backend>
    var requestBodyBuffered: bool
    var responseBodyBuffered: bool

    constructor ()
      ensures Value() == NO_CONTEXT
    {
      backend, requestBodyBuffered, responseBodyBuffered := None, false, false;
    }

    function Value(): Context
      reads this
    {
      Context(backend, requestBodyBuffered, responseBodyBuffered)
    }
  }

  /** What the outside sees of one request: calls of the router, requests handed to the client, sleeps */
  class Wire {
    var calls: nat
    var sent: seq<Sent>
    var slept: seq<nat>

    constructor ()
      ensures calls == 0 && sent == [] && slept == []
    {
      calls, sent, slept := 0, [], [];
    }

    method Sleep(d: Duration)
      modifies this`slept
      ensures slept == old(slept) + [d]
    {
      slept := slept + [d];
    }
  }

  /** RequestExecutor::execute: notes the backend, rewrites the request and hands it to the client. */
  method ExecuteOn(w: World, router: RouterId, b: Backend, reply: Reply, req: Request, ctx: RequestContext, wire: Wire)
    returns (v: Verdict)
    modifies ctx`backend, wire`sent
    ensures ctx.backend == Some(b)
    ensures wire.sent == old(wire.sent)
              + (if Builds(w, b, PathOf(req)) then [Sent(router, b, Rewritten(w, b, req))] else [])
    ensures Builds(w, b, PathOf(req)) ==> v == (match reply case Answered(r) => Ok(r) case Refused(e) => Inner(e))
    ensures !Builds(w, b, PathOf(req)) ==> v == Inner(INVALID_URI)
  {
    ctx.backend := Some(b);
    var path := req.uri.pathAndQuery.GetOr("/");
    if !w.buildable(b.url.scheme, b.url.authority, path) {
      return Inner(INVALID_URI);
    }
    var r := req;
    r := r.(uri := Uri(Some(b.url.scheme), Some(b.url.authority), Some(path)));
    r := r.(version := Http11);
    r := r.(headers := w.strip(r.headers));
    wire.sent := wire.sent + [Sent(router, b, r)];
    match reply {
      case Answered(response) => return Ok(response);
      case Refused(error) => return Inner(error);
    }
  }

  /** One call of the captured router, whose choices come from the world */
  method Execute(w: World, router: RouterId, req: Request, ctx: RequestContext, wire: Wire) returns (v: Verdict)
    modifies ctx`backend, wire`sent, wire`calls
    ensures wire.calls == old(wire.calls) + 1
    ensures v == VerdictOf(w, old(wire.calls), PathOf(req))
    ensures old(wire.sent) == SentBy(w, router, req, old(wire.calls)) ==>
              wire.sent == SentBy(w, router, req, wire.calls)
    ensures old(ctx.backend) == LastPicked(w, old(wire.calls)) ==> ctx.backend == LastPicked(w, wire.calls)
  {
    var turn := w.turns(wire.calls);
    wire.calls := wire.calls + 1;
    match turn {
      case NoHealthyNodes => return NoNodes;
      case Picked(b, reply) => v := ExecuteOn(w, router, b, reply, req, ctx, wire);
    }
  }

  method BufferResponse(s: Settings, response: Response, ctx: RequestContext) returns (r: Response)
    modifies ctx`responseBodyBuffered
    ensures r == Delivered(s, response).0
    ensures ctx.responseBodyBuffered == (old(ctx.responseBodyBuffered) || Delivered(s, response).1)
  {
    if !s.responseBodyBuffer {
      return response;
    }
    var bufferable := response.body.exact.Some? && response.body.exact.value <= s.responseBodySizeLimit;
    if !bufferable {
      return response;
    }
    var body := Collect(response.body.frames, s.responseBodySizeLimit);
    match body {
      case TimedOut => return ErrorResponse(BackendTimeout);
      case OverLimit => return ErrorResponse(BackendBodyError(TOO_LONG));
      case Failed(e) => return ErrorResponse(BackendBodyError(e));
      case Whole(bytes) =>
        ctx.responseBodyBuffered := true;
        return response.(body := Full(bytes));
    }
  }

  ghost predicate Untouched(ctx: RequestContext, wire: Wire)
    reads ctx, wire
  {
    ctx.Value() == NO_CONTEXT && wire.calls == 0 && wire.sent == [] && wire.slept == []
  }

  ghost predicate Shows(ctx: RequestContext, wire: Wire, result: Result, o: Outcome)
    reads ctx, wire
  {
    o == Outcome(result, wire.calls, wire.sent, wire.slept, ctx.Value())
  }

  lemma NextFailed(w: World, path: string, i: nat)
    requires FirstOk(w, path, i) == i && !VerdictOf(w, i, path).Ok?
    ensures FirstOk(w, path, i + 1) == i + 1
  {
  }

  lemma FoundOk(w: World, path: string, i: nat, n: nat)
    requires i < n && FirstOk(w, path, i) == i && VerdictOf(w, i, path).Ok?
    ensures FirstOk(w, path, n) == i
  {
  }

  /** An overflow after attempt i is the one the specification finds, whatever would have followed. */
  lemma FoundOverflow(w: World, s: Settings, path: string, i: nat, n: nat)
    requires i < n && FirstOk(w, path, i) == i && !VerdictOf(w, i, path).Ok?
    requires FirstOverflow(w, s, path, i) == i && DelayAfter(w, s, path, i + 1) > DURATION_MAX
    ensures var f := FirstOk(w, path, n); i < f && FirstOverflow(w, s, path, f) == i
  {
  }

  lemma DelayNext(w: World, s: Settings, path: string, i: nat)
    ensures VerdictOf(w, i, path).Inner? ==> DelayAfter(w, s, path, i + 1) == 2 * DelayAfter(w, s, path, i)
    ensures !VerdictOf(w, i, path).Inner? ==> DelayAfter(w, s, path, i + 1) == DelayAfter(w, s, path, i)
  {
  }

  lemma EndsWithOk(s: Settings, w: World, router: RouterId, r: Request, i: nat)
    requires s.Valid() && i < s.retryAttempts as nat
    requires FirstOk(w, PathOf(r), i) == i && FirstOverflow(w, s, PathOf(r), i) == i
    requires VerdictOf(w, i, PathOf(r)).Ok?
    ensures var d := Delivered(s, VerdictOf(w, i, PathOf(r)).response.(retries := Some(i as u8)));
            Retried(s, w, router, r) ==
            Outcome(Replied(d.0), i + 1, SentBy(w, router, r, i + 1), Sleeps(w, s, PathOf(r), i),
                    Context(LastPicked(w, i + 1), true, d.1))
  {
    FoundOk(w, PathOf(r), i, s.retryAttempts as nat);
  }

  lemma EndsInPanic(s: Settings, w: World, router: RouterId, r: Request, i: nat)
    requires s.Valid() && i < s.retryAttempts as nat
    requires FirstOk(w, PathOf(r), i) == i && FirstOverflow(w, s, PathOf(r), i) == i
    requires !VerdictOf(w, i, PathOf(r)).Ok? && DelayAfter(w, s, PathOf(r), i + 1) > DURATION_MAX
    ensures Retried(s, w, router, r) ==
            Outcome(Panicked, i + 1, SentBy(w, router, r, i + 1), Sleeps(w, s, PathOf(r), i + 1),
                    Context(LastPicked(w, i + 1), true, false))
  {
    FoundOverflow(w, s, PathOf(r), i, s.retryAttempts as nat);
  }

  lemma EndsExhausted(s: Settings, w: World, router: RouterId, r: Request)
    requires s.Valid()
    requires var n := s.retryAttempts as nat;
             FirstOk(w, PathOf(r), n) == n && FirstOverflow(w, s, PathOf(r), n) == n
    ensures var n := s.retryAttempts as nat;
            && !VerdictOf(w, n - 1, PathOf(r)).Ok?
            && Retried(s, w, router, r) ==
               Outcome(Replied(ErrorResponse(CauseOf(VerdictOf(w, n - 1, PathOf(r))))), n, SentBy(w, router, r, n),
                       Sleeps(w, s, PathOf(r), n), Context(LastPicked(w, n), true, false))
  {
  }

  /** Where the loop stands after the failures so far */
  ghost predicate AllFailedSoFar(s: Settings, w: World, router: RouterId, req: Request, ctx: RequestContext, wire: Wire)
    reads ctx, wire
  {
    && FirstOk(w, PathOf(req), wire.calls) == wire.calls
    && FirstOverflow(w, s, PathOf(req), wire.calls) == wire.calls
    && Progress(s, w, router, req, ctx, wire, wire.calls)
  }

  /** The sleep after a failed attempt, and the doubling after a backend error; None when it overflows */
  method AfterFailure(s: Settings, ghost w: World, ghost path: string, ghost i: nat, v: Verdict,
                      delay: Duration, wire: Wire)
    returns (next: Option<Duration>)
    requires v == VerdictOf(w, i, path) && !v.Ok? && delay == DelayAfter(w, s, path, i)
    requires wire.slept == Sleeps(w, s, path, i)
    modifies wire`slept
    ensures wire.slept == Sleeps(w, s, path, i + 1)
    ensures next.None? <==> DelayAfter(w, s, path, i + 1) > DURATION_MAX
    ensures next.Some? ==> next.value == DelayAfter(w, s, path, i + 1)
  {
    DelayNext(w, s, path, i);
    if v.NoNodes? {
      wire.Sleep(s.retryIntervalNoHealthyNodes);
      return Some(delay);
    }
    wire.Sleep(delay);
    if delay > DURATION_MAX / 2 {
      return None;
    }
    return Some(2 * delay);
  }

  /** A success ends the loop: it is numbered with the failures before it and delivered. */
  method Succeed(s: Settings, ghost w: World, ghost router: RouterId, ghost req: Request,
                 retries: u8, response: Response,
                 ctx: RequestContext, ghost wire: Wire)
    returns (result: Result)
    requires s.Valid() && 1 <= retries <= s.retryAttempts
    requires wire.calls == s.retryAttempts as nat - retries as nat + 1
    requires VerdictOf(w, wire.calls - 1, PathOf(req)) == Ok(response)
    requires Progress(s, w, router, req, ctx, wire, wire.calls - 1)
    requires var i := wire.calls - 1;
             FirstOk(w, PathOf(req), i) == i && FirstOverflow(w, s, PathOf(req), i) == i
    modifies ctx`responseBodyBuffered
    ensures Shows(ctx, wire, result, Retried(s, w, router, req))
  {
    EndsWithOk(s, w, router, req, wire.calls - 1);
    var numbered := response.(retries := Some(s.retryAttempts - retries));
    var delivered := BufferResponse(s, numbered, ctx);
    result := Replied(delivered);
  }

  /** All calls so far have failed, and so many sleeps are done. */
  ghost predicate Progress(s: Settings, w: World, router: RouterId, req: Request,
                           ctx: RequestContext, wire: Wire, slept: nat)
    reads ctx, wire
  {
    && wire.sent == SentBy(w, router, req, wire.calls)
    && wire.slept == Sleeps(w, s, PathOf(req), slept)
    && ctx.Value() == Context(LastPicked(w, wire.calls), true, false)
  }

  lemma PanicShown(s: Settings, w: World, router: RouterId, req: Request, ctx: RequestContext, wire: Wire, i: nat)
    requires s.Valid() && i < s.retryAttempts as nat && wire.calls == i + 1
    requires Progress(s, w, router, req, ctx, wire, i + 1)
    requires FirstOk(w, PathOf(req), i) == i && FirstOverflow(w, s, PathOf(req), i) == i
    requires !VerdictOf(w, i, PathOf(req)).Ok? && DelayAfter(w, s, PathOf(req), i + 1) > DURATION_MAX
    ensures Shows(ctx, wire, Panicked, Retried(s, w, router, req))
  {
    EndsInPanic(s, w, router, req, i);
  }

  lemma ExhaustedShown(s: Settings, w: World, router: RouterId, req: Request, ctx: RequestContext, wire: Wire)
    requires s.Valid() && wire.calls == s.retryAttempts as nat
    requires Progress(s, w, router, req, ctx, wire, wire.calls)
    requires FirstOk(w, PathOf(req), wire.calls) == wire.calls
    requires FirstOverflow(w, s, PathOf(req), wire.calls) == wire.calls
    ensures var v := VerdictOf(w, wire.calls - 1, PathOf(req));
            !v.Ok? && Shows(ctx, wire, Replied(ErrorResponse(CauseOf(v))), Retried(s, w, router, req))
  {
    EndsExhausted(s, w, router, req);
  }

  /** A failure sleeps, doubles the delay and ends the loop when it overflows or was the last one allowed. */
  method Fail(s: Settings, ghost w: World, ghost router: RouterId, ghost req: Request, retries: u8, delay: Duration,
              v: Verdict, ghost ctx: RequestContext, wire: Wire)
    returns (end: Option<Result>, next: Duration)
    requires s.Valid() && 1 <= retries <= s.retryAttempts
    requires wire.calls == s.retryAttempts as nat - retries as nat + 1
    requires v == VerdictOf(w, wire.calls - 1, PathOf(req)) && !v.Ok?
    requires Progress(s, w, router, req, ctx, wire, wire.calls - 1)
    requires var i := wire.calls - 1;
             && FirstOk(w, PathOf(req), i) == i && FirstOverflow(w, s, PathOf(req), i) == i
             && delay == DelayAfter(w, s, PathOf(req), i)
    modifies wire`slept
    ensures end.Some? ==> Shows(ctx, wire, end.value, Retried(s, w, router, req))
    ensures end.None? ==> retries > 1 && AllFailedSoFar(s, w, router, req, ctx, wire)
                          && next == DelayAfter(w, s, PathOf(req), wire.calls)
  {
    ghost var i := wire.calls - 1;
    var doubled := AfterFailure(s, w, PathOf(req), i, v, delay, wire);
    if doubled.None? {
      PanicShown(s, w, router, req, ctx, wire, i);
      return Some(Panicked), delay;
    }
    NextFailed(w, PathOf(req), i);
    if retries - 1 == 0 {
      ExhaustedShown(s, w, router, req, ctx, wire);
      return Some(Replied(ErrorResponse(CauseOf(v)))), delay;
    }
    return None, doubled.value;
  }

  /** The loop over a buffered request: a countdown, a doubling delay, one sleep for each failure */
  method RetryLoop(s: Settings, w: World, router: RouterId, req: Request, ctx: RequestContext, wire: Wire)
    returns (result: Result)
    requires s.Valid()
    requires ctx.Value() == Context(None, true, false)
    requires wire.calls == 0 && wire.sent == [] && wire.slept == []
    modifies ctx, wire
    ensures Shows(ctx, wire, result, Retried(s, w, router, req))
  {
    var retries := s.retryAttempts;
    var delay: Duration := s.retryInterval;
    while true
      invariant 1 <= retries <= s.retryAttempts
      invariant wire.calls == s.retryAttempts as nat - retries as nat
      invariant AllFailedSoFar(s, w, router, req, ctx, wire)
      invariant delay == DelayAfter(w, s, PathOf(req), wire.calls)
      decreases retries
    {
      var v := Execute(w, router, req, ctx, wire);
      if v.Ok? {
        result := Succeed(s, w, router, req, retries, v.response, ctx, wire);
        return;
      }
      var end, next := Fail(s, w, router, req, retries, delay, v, ctx, wire);
      if end.Some? {
        return end.value;
      }
      delay := next;
      retries := retries - 1;
    }
  }

  /** The handler: `router` is what get_backend_router gave at entry, used for every attempt. */
  method Handle(s: Settings, w: World, router: Option<RouterId>, request: Request, ctx: RequestContext, wire: Wire)
    returns (result: Result)
    requires s.Valid() && Untouched(ctx, wire)
    modifies ctx, wire
    ensures Shows(ctx, wire, result, Handled(s, w, router, request))
  {
    var host := w.authorityOf(request);
    if host.None? {
      return Replied(ErrorResponse(NoAuthority));
    }
    if router.None? {
      return Replied(ErrorResponse(ServiceNotReady));
    }
    var req := request;
    req := req.(headers := req.headers[X_FORWARDED_HOST := [host.value]]);

    var bufferable := req.body.exact.Some? && req.body.exact.value <= s.requestBodySizeLimit;
    if !(bufferable && (s.retryAttempts > 1 || s.requestBodyBuffer)) {
      var v := Execute(w, router.value, req, ctx, wire);
      match v {
        case NoNodes => return Replied(ErrorResponse(NoHealthyBackends));
        case Inner(e) => return Replied(ErrorResponse(BackendRequestError(e)));
        case Ok(response) =>
          var delivered := BufferResponse(s, response, ctx);
          return Replied(delivered);
      }
    }

    var body := Collect(req.body.frames, s.requestBodySizeLimit);
    if !body.Whole? {
      return Replied(ErrorResponse(RequestBodyBufferTimeout));
    }
    ctx.requestBodyBuffered := true;
    result := RetryLoop(s, w, router.value, req.(body := Full(body.bytes)), ctx, wire);
  }
}
