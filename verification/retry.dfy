/** What the request handler must do: first success among the first N attempts, with a closed form for the sleeps. */
module Retry {
  import opened Wrappers
  import opened Configs
  import opened Http
  import opened Collector

  // ----- the world around one request

  const DURATION_MAX: nat := 0x1_0000_0000_0000_0000 * 1_000_000_000 - 1  // nanoseconds

  type Duration = d: nat | d <= DURATION_MAX

  /** What a backend's client call comes back with */
  datatype Reply = Answered(response: Response) | Refused(error: string)

  /** What the router does the n-th time it is asked: pick any healthy backend, or find none */
  datatype Turn = NoHealthyNodes | Picked(backend: Backend, reply: Reply)

  /**
   Foreign code as functions: the authority of a request, whether a scheme, authority and path
   make a URI, and header stripping; `turns` is the router's whole future.
   */
  datatype World = World(
    authorityOf: Request -> Option<string>,
    buildable: (string, string, string) -> bool,
    strip: Headers -> Headers,
    turns: nat -> Turn)

  datatype Settings = Settings(
    requestBodyBuffer: bool,
    requestBodySizeLimit: nat,
    responseBodyBuffer: bool,
    responseBodySizeLimit: nat,
    retryAttempts: u8,
    retryInterval: Duration,
    retryIntervalNoHealthyNodes: Duration)
  {
    /** The command line takes no retry count below 1. */
    predicate Valid() {
      retryAttempts >= 1
    }
  }

  /** A request as it was handed to the HTTP client */
  datatype Sent = Sent(router: RouterId, backend: Backend, request: Request)

  datatype Context = Context(backend: Option<Backend>, requestBodyBuffered: bool, responseBodyBuffered: bool)

  const NO_CONTEXT := Context(None, false, false)

  /** The handler answers, or the doubling of the delay overflows and the process aborts. */
  datatype Result = Replied(response: Response) | Panicked

  /** All that one request brings about */
  datatype Outcome = Outcome(result: Result, calls: nat, sent: seq<Sent>, slept: seq<nat>, context: Context)

  // ----- one attempt

  datatype Verdict = Ok(response: Response) | NoNodes | Inner(error: string)

  const INVALID_URI := "invalid format"

  function PathOf(r: Request): string {
    r.uri.pathAndQuery.GetOr("/")
  }

  function Builds(w: World, b: Backend, path: string): bool {
    w.buildable(b.url.scheme, b.url.authority, path)
  }

  function VerdictOf(w: World, i: nat, path: string): Verdict {
    match w.turns(i)
    case NoHealthyNodes => NoNodes
    case Picked(b, reply) =>
      if !Builds(w, b, path) then Inner(INVALID_URI)
      else
        match reply
        case Answered(response) => Ok(response)
        case Refused(error) => Inner(error)
  }

  /** The request a backend receives */
  function Rewritten(w: World, b: Backend, r: Request): Request {
    Request(Uri(Some(b.url.scheme), Some(b.url.authority), Some(PathOf(r))), Http11, w.strip(r.headers), r.body)
  }

  function CauseOf(v: Verdict): ErrorCause
    requires !v.Ok?
  {
    match v
    case NoNodes => NoHealthyBackends
    case Inner(e) => BackendRequestError(e)
  }

  // ----- the first n attempts

  /** Index of the first success among the first n attempts, n when there is none */
  function FirstOk(w: World, path: string, n: nat): (f: nat)
    ensures f <= n
    ensures f < n ==> VerdictOf(w, f, path).Ok?
    ensures forall j :: 0 <= j < f ==> !VerdictOf(w, j, path).Ok?
  {
    if n == 0 then 0
    else
      var f := FirstOk(w, path, n - 1);
      if f < n - 1 || VerdictOf(w, n - 1, path).Ok? then f else n
  }

  /** How many of the first n attempts failed in the backend, not for want of one */
  function Inners(w: World, path: string, n: nat): nat {
    if n == 0 then 0 else Inners(w, path, n - 1) + (if VerdictOf(w, n - 1, path).Inner? then 1 else 0)
  }

  function Vacants(w: World, path: string, n: nat): nat {
    if n == 0 then 0 else Vacants(w, path, n - 1) + (if VerdictOf(w, n - 1, path).NoNodes? then 1 else 0)
  }

  function Pow2(n: nat): (p: nat)
    ensures p >= 1
  {
    if n == 0 then 1 else 2 * Pow2(n - 1)
  }

  /** The delay after n attempts, were it unbounded */
  function DelayAfter(w: World, s: Settings, path: string, n: nat): nat {
    s.retryInterval * Pow2(Inners(w, path, n))
  }

  /** The sleeps of n failed attempts */
  function Sleeps(w: World, s: Settings, path: string, n: nat): (ds: seq<nat>)
    ensures |ds| == n
  {
    if n == 0 then []
    else
      Sleeps(w, s, path, n - 1)
      + [if VerdictOf(w, n - 1, path).NoNodes? then s.retryIntervalNoHealthyNodes else DelayAfter(w, s, path, n - 1)]
  }

  function Sum(ds: seq<nat>): nat {
    if ds == [] then 0 else Sum(ds[..|ds| - 1]) + ds[|ds| - 1]
  }

  /** What reaches the client in the first n attempts */
  function SentBy(w: World, router: RouterId, r: Request, n: nat): seq<Sent> {
    if n == 0 then []
    else
      SentBy(w, router, r, n - 1)
      + match w.turns(n - 1)
        case NoHealthyNodes => []
        case Picked(b, _) => if Builds(w, b, PathOf(r)) then [Sent(router, b, Rewritten(w, b, r))] else []
  }

  /** The backend selected last in the first n attempts */
  function LastPicked(w: World, n: nat): Option<Backend> {
    if n == 0 then None
    else
      match w.turns(n - 1)
      case NoHealthyNodes => LastPicked(w, n - 1)
      case Picked(b, _) => Some(b)
  }

  /** The first of n failed attempts after which doubling the delay does not fit, n when all fit */
  function FirstOverflow(w: World, s: Settings, path: string, n: nat): (p: nat)
    ensures p <= n
    ensures p < n ==> DelayAfter(w, s, path, p + 1) > DURATION_MAX
    ensures forall j: nat :: j <= p ==> DelayAfter(w, s, path, j) <= DURATION_MAX
  {
    if n == 0 then 0
    else
      var p := FirstOverflow(w, s, path, n - 1);
      if p < n - 1 || DelayAfter(w, s, path, n) > DURATION_MAX then p else n
  }

  // ----- the whole request

  function ShouldBuffer(s: Settings, r: Request): bool {
    && r.body.exact.Some? && r.body.exact.value <= s.requestBodySizeLimit
    && (s.retryAttempts > 1 || s.requestBodyBuffer)
  }

  function BuffersResponse(s: Settings, v: Response): bool {
    s.responseBodyBuffer && v.body.exact.Some? && v.body.exact.value <= s.responseBodySizeLimit
  }

  const TOO_LONG := "length limit exceeded"

  /** The response after buffering, and whether its body was buffered */
  ghost function Delivered(s: Settings, v: Response): (Response, bool) {
    if !BuffersResponse(s, v) then (v, false)
    else
      match CollectedOf(v.body.frames, s.responseBodySizeLimit)
      case Whole(bytes) => (v.(body := Full(bytes)), true)
      case TimedOut => (ErrorResponse(BackendTimeout), false)
      case OverLimit => (ErrorResponse(BackendBodyError(TOO_LONG)), false)
      case Failed(e) => (ErrorResponse(BackendBodyError(e)), false)
  }

  function WithHost(r: Request, host: string): Request {
    r.(headers := r.headers[X_FORWARDED_HOST := [host]])
  }

  /** An unbuffered request: one attempt, no sleep */
  ghost function Direct(s: Settings, w: World, router: RouterId, r: Request): Outcome {
    var sent, picked := SentBy(w, router, r, 1), LastPicked(w, 1);
    match VerdictOf(w, 0, PathOf(r))
    case Ok(v) =>
      var (response, buffered) := Delivered(s, v);
      Outcome(Replied(response), 1, sent, [], Context(picked, false, buffered))
    case NoNodes => Outcome(Replied(ErrorResponse(NoHealthyBackends)), 1, sent, [], Context(picked, false, false))
    case Inner(e) => Outcome(Replied(ErrorResponse(BackendRequestError(e))), 1, sent, [], Context(picked, false, false))
  }

  /** A buffered request: the first success among the allowed attempts, or the error of the last one */
  ghost function Retried(s: Settings, w: World, router: RouterId, r: Request): Outcome
    requires s.Valid()
  {
    var n, path := s.retryAttempts as nat, PathOf(r);
    var f := FirstOk(w, path, n);
    var p := FirstOverflow(w, s, path, f);
    if p < f then
      Outcome(Panicked, p + 1, SentBy(w, router, r, p + 1), Sleeps(w, s, path, p + 1),
              Context(LastPicked(w, p + 1), true, false))
    else if f < n then
      var (response, buffered) := Delivered(s, VerdictOf(w, f, path).response.(retries := Some(f as u8)));
      Outcome(Replied(response), f + 1, SentBy(w, router, r, f + 1), Sleeps(w, s, path, f),
              Context(LastPicked(w, f + 1), true, buffered))
    else
      Outcome(Replied(ErrorResponse(CauseOf(VerdictOf(w, n - 1, path)))), n, SentBy(w, router, r, n),
              Sleeps(w, s, path, n), Context(LastPicked(w, n), true, false))
  }

  ghost function Handled(s: Settings, w: World, router: Option<RouterId>, r: Request): Outcome
    requires s.Valid()
  {
    var host := w.authorityOf(r);
    if host.None? then Outcome(Replied(ErrorResponse(NoAuthority)), 0, [], [], NO_CONTEXT)
    else if router.None? then Outcome(Replied(ErrorResponse(ServiceNotReady)), 0, [], [], NO_CONTEXT)
    else
      var named := WithHost(r, host.value);
      if !ShouldBuffer(s, r) then Direct(s, w, router.value, named)
      else
        match CollectedOf(r.body.frames, s.requestBodySizeLimit)
        case Whole(bytes) => Retried(s, w, router.value, named.(body := Full(bytes)))
        case _ => Outcome(Replied(ErrorResponse(RequestBodyBufferTimeout)), 0, [], [], NO_CONTEXT)
  }
}
