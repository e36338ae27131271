/**
 What the client is answered and what reaches the backends, told by the settings, the request and
 the router's turns alone.
 */
module HandlerAnswers {
  import opened Wrappers
  import opened Configs
  import opened Http
  import opened Collector
  import opened Retry
  import opened HandlerTheorems

  // ----- turns

  /** At its i-th turn the router picks a backend, and its scheme and authority make a URI with the path. */
  ghost predicate Reaches(w: World, path: string, i: nat) {
    && w.turns(i).Picked?
    && w.buildable(w.turns(i).backend.url.scheme, w.turns(i).backend.url.authority, path)
  }

  ghost predicate Succeeds(w: World, path: string, i: nat) {
    Reaches(w, path, i) && w.turns(i).reply.Answered?
  }

  /** A response that is an error of the handler, with its cause for the metrics and its text */
  ghost predicate Says(v: Response, status: nat, cause: ErrorCause, text: string) {
    && v.status == status && v.cause == Some(cause) && v.retries.None?
    && v.headers == map["content-type" := ["text/plain; charset=utf-8"]]
    && v.body.exact == Some(|text|) && DataOf(v.body.frames) == text && Intact(v.body.frames)
  }

  lemma ErrorSays(cause: ErrorCause)
    ensures Says(ErrorResponse(cause), StatusOf(cause), cause, TextOf(cause))
  {
    DataOfFull(TextOf(cause));
  }

  /** The error that tells how turn i failed */
  ghost predicate TellsFailure(w: World, path: string, i: nat, v: Response) {
    match w.turns(i)
    case NoHealthyNodes => Says(v, 503, NoHealthyBackends, "No healthy backends available")
    case Picked(_, reply) =>
      if !Reaches(w, path, i)
      then Says(v, 502, BackendRequestError("invalid format"), "Backend request error: " + "invalid format")
      else reply.Refused? && Says(v, 502, BackendRequestError(reply.error), "Backend request error: " + reply.error)
  }

  lemma VerdictTells(w: World, path: string, i: nat)
    ensures VerdictOf(w, i, path).Ok? <==> Succeeds(w, path, i)
    ensures Succeeds(w, path, i) ==> VerdictOf(w, i, path).response == w.turns(i).reply.response
    ensures !Succeeds(w, path, i) ==> TellsFailure(w, path, i, ErrorResponse(CauseOf(VerdictOf(w, i, path))))
  {
    var v := VerdictOf(w, i, path);
    if !v.Ok? { ErrorSays(CauseOf(v)); }
  }

  // ----- what is handed to the client

  /** The k-th request handed over belongs to the at[k]-th call; each call that reaches a backend hands over one. */
  ghost predicate HandedOver(w: World, path: string, calls: nat, at: seq<nat>, sent: seq<Sent>) {
    && |at| == |sent| && Increasing(at)
    && (forall k :: 0 <= k < |at| ==>
          at[k] < calls && Reaches(w, path, at[k]) && sent[k].backend == w.turns(at[k]).backend)
    && (forall i :: 0 <= i < calls && Reaches(w, path, i) ==> i in at)
  }

  lemma {:induction false} SentPositions(w: World, router: RouterId, r: Request, n: nat) returns (at: seq<nat>)
    ensures HandedOver(w, PathOf(r), n, at, SentBy(w, router, r, n))
  {
    at := [];
    if n > 0 {
      var front := SentPositions(w, router, r, n - 1);
      at := if Reaches(w, PathOf(r), n - 1) then front + [n - 1] else front;
      forall i | 0 <= i < n && Reaches(w, PathOf(r), i) ensures i in at {
        if i < n - 1 { assert i in front; } else { assert at[|front|] == i; }
      }
    }
  }

  /**
   Each call of the router that picks an addressable backend hands exactly one request to the
   client, to that backend, in the order of the calls; no other call hands over any.
   */
  lemma HandOffs(s: Settings, w: World, router: Option<RouterId>, r: Request) returns (at: seq<nat>)
    requires s.Valid()
    ensures var path := if r.uri.pathAndQuery.Some? then r.uri.pathAndQuery.value else "/";
            HandedOver(w, path, Handled(s, w, router, r).calls, at, Handled(s, w, router, r).sent)
  {
    var o := Handled(s, w, router, r);
    at := [];
    if w.authorityOf(r).Some? && router.Some? {
      var named := WithHost(r, w.authorityOf(r).value);
      if !ShouldBuffer(s, r) {
        at := SentPositions(w, router.value, named, 1);
      } else if CollectedOf(r.body.frames, s.requestBodySizeLimit).Whole? {
        var req := named.(body := Full(CollectedOf(r.body.frames, s.requestBodySizeLimit).bytes));
        at := SentPositions(w, router.value, req, o.calls);
      }
    }
  }

  // ----- what is collected before the first call

  /** Its size is announced and within the limit, and a replay may be wanted or buffering was asked for. */
  predicate WantsCollecting(s: Settings, r: Request) {
    && r.body.exact.Some? && r.body.exact.value <= s.requestBodySizeLimit
    && (s.retryAttempts as nat > 1 || s.requestBodyBuffer)
  }

  /** A request body is collected exactly when it should be and can be, and the request gets as far. */
  lemma CollectedIff(s: Settings, w: World, router: Option<RouterId>, r: Request)
    requires s.Valid()
    ensures Handled(s, w, router, r).context.requestBodyBuffered <==>
            && w.authorityOf(r).Some? && router.Some? && WantsCollecting(s, r)
            && Intact(r.body.frames) && |DataOf(r.body.frames)| <= s.requestBodySizeLimit
  {
    var o := Handled(s, w, router, r);
    if CollectedOf(r.body.frames, s.requestBodySizeLimit).Whole? {
      CollectedWhole(r.body.frames, s.requestBodySizeLimit);
    }
  }

  // ----- refusals before the first call

  /** The request was refused before any backend was looked for. */
  ghost predicate RefusedEarly(o: Outcome, status: nat, cause: ErrorCause, text: string) {
    && o.result.Replied? && Says(o.result.response, status, cause, text)
    && o.calls == 0 && o.sent == [] && o.slept == [] && o.context == NO_CONTEXT
  }

  /** No authority: 400. No router: 503. A body to be collected that is too long, breaks or stalls: 408. */
  lemma EarlyRefusals(s: Settings, w: World, router: Option<RouterId>, r: Request)
    requires s.Valid()
    ensures var o := Handled(s, w, router, r);
            && (w.authorityOf(r).None? ==> RefusedEarly(o, 400, NoAuthority, "No authority"))
            && (w.authorityOf(r).Some? && router.None? ==>
                  RefusedEarly(o, 503, ServiceNotReady, "Service not ready"))
            && (w.authorityOf(r).Some? && router.Some? && WantsCollecting(s, r)
                && !(Intact(r.body.frames) && |DataOf(r.body.frames)| <= s.requestBodySizeLimit) ==>
                  RefusedEarly(o, 408, RequestBodyBufferTimeout, "Timed out buffering the request body"))
            && (o.calls == 0 ==>
                  || w.authorityOf(r).None? || router.None?
                  || (WantsCollecting(s, r)
                      && !(Intact(r.body.frames) && |DataOf(r.body.frames)| <= s.requestBodySizeLimit)))
  {
    ErrorSays(NoAuthority);
    ErrorSays(ServiceNotReady);
    ErrorSays(RequestBodyBufferTimeout);
    if CollectedOf(r.body.frames, s.requestBodySizeLimit).Whole? {
      CollectedWhole(r.body.frames, s.requestBodySizeLimit);
    }
  }

  // ----- answers

  /**
   A request that is not collected makes one call: what the backend answers is passed on, and
   otherwise the error tells how the call failed.
   */
  lemma UnbufferedAnswer(s: Settings, w: World, router: RouterId, r: Request)
    requires s.Valid() && w.authorityOf(r).Some? && !WantsCollecting(s, r)
    ensures var o := Handled(s, w, Some(router), r);
            var path := if r.uri.pathAndQuery.Some? then r.uri.pathAndQuery.value else "/";
            && o.result.Replied? && o.calls == 1 && o.slept == []
            && (Succeeds(w, path, 0) ==> o.result.response == Delivered(s, w.turns(0).reply.response).0)
            && (!Succeeds(w, path, 0) ==> TellsFailure(w, path, 0, o.result.response))
            && (o.context.responseBodyBuffered <==>
                  Succeeds(w, path, 0) && Delivered(s, w.turns(0).reply.response).1)
  {
    VerdictTells(w, PathOf(r), 0);
  }

  /**
   A collected request that gets an answer: all calls but the last have failed; if the last came
   through, its response is passed on with the number of failures, otherwise as many calls were
   made as are allowed and the error tells how the last one failed.
   */
  lemma BufferedAnswer(s: Settings, w: World, router: RouterId, r: Request)
    requires s.Valid() && w.authorityOf(r).Some? && WantsCollecting(s, r)
    requires Intact(r.body.frames) && |DataOf(r.body.frames)| <= s.requestBodySizeLimit
    requires Handled(s, w, Some(router), r).result.Replied?
    ensures var o := Handled(s, w, Some(router), r);
            var path := if r.uri.pathAndQuery.Some? then r.uri.pathAndQuery.value else "/";
            && 1 <= o.calls <= s.retryAttempts as nat && AnswersLast(s, w, path, o.calls - 1, o.result.response)
            && |o.slept| == (if Succeeds(w, path, o.calls - 1) then o.calls - 1 else o.calls)
            && (o.context.responseBodyBuffered <==>
                  Succeeds(w, path, o.calls - 1) && Delivered(s, w.turns(o.calls - 1).reply.response).1)
  {
    var req := WithHost(r, w.authorityOf(r).value).(body := Full(DataOf(r.body.frames)));
    assert Handled(s, w, Some(router), r) == Retried(s, w, router, req);
    RetriedAnswer(s, w, router, req);
  }

  /** All turns before the last one failed, and the response is what the last one makes of it. */
  ghost predicate AnswersLast(s: Settings, w: World, path: string, last: nat, v: Response)
    requires last < s.retryAttempts as nat
  {
    && (forall i :: 0 <= i < last ==> !Succeeds(w, path, i))
    && (Succeeds(w, path, last) ==>
          v == Delivered(s, w.turns(last).reply.response.(retries := Some(last as u8))).0)
    && (!Succeeds(w, path, last) ==> last + 1 == s.retryAttempts as nat && TellsFailure(w, path, last, v))
  }

  lemma RetriedAnswer(s: Settings, w: World, router: RouterId, r: Request)
    requires s.Valid() && Retried(s, w, router, r).result.Replied?
    ensures var o := Retried(s, w, router, r);
            && 1 <= o.calls <= s.retryAttempts as nat && AnswersLast(s, w, PathOf(r), o.calls - 1, o.result.response)
            && |o.slept| == (if Succeeds(w, PathOf(r), o.calls - 1) then o.calls - 1 else o.calls)
            && (o.context.responseBodyBuffered <==>
                  Succeeds(w, PathOf(r), o.calls - 1) && Delivered(s, w.turns(o.calls - 1).reply.response).1)
  {
    CallsAreFirstOk(s, w, router, r);
    var last := Retried(s, w, router, r).calls - 1;
    forall i | 0 <= i < last ensures !Succeeds(w, PathOf(r), i) {
      VerdictTells(w, PathOf(r), i);
    }
    VerdictTells(w, PathOf(r), last);
  }

  // ----- delivery

  /** Buffering is on, and the size is announced and within the limit. */
  predicate WantsBuffering(s: Settings, v: Response) {
    s.responseBodyBuffer && v.body.exact.Some? && v.body.exact.value <= s.responseBodySizeLimit
  }

  /** The error for the frame at which a response body could not be read on */
  ghost predicate TellsStop(frame: Frame, v: Response) {
    match frame
    case Stalled => Says(v, 504, BackendTimeout, "Backend timeout")
    case Broken(e) => Says(v, 502, BackendBodyError(e), "Backend body error: " + e)
    case _ => Says(v, 502, BackendBodyError("length limit exceeded"), "Backend body error: " + "length limit exceeded")
  }

  /**
   A response is passed on as it is, or with its body collected, or replaced by the error that
   tells at which frame collecting stopped: a stall, a break, or one too many bytes.
   */
  lemma DeliveredInFull(s: Settings, v: Response)
    ensures !WantsBuffering(s, v) ==> Delivered(s, v) == (v, false)
    ensures WantsBuffering(s, v) && Intact(v.body.frames) && |DataOf(v.body.frames)| <= s.responseBodySizeLimit ==>
              Delivered(s, v) == (v.(body := Full(DataOf(v.body.frames))), true)
    ensures WantsBuffering(s, v) && !(Intact(v.body.frames) && |DataOf(v.body.frames)| <= s.responseBodySizeLimit) ==>
              exists i: nat :: StopsAt(v.body.frames, s.responseBodySizeLimit, i)
                               && TellsStop(v.body.frames[i], Delivered(s, v).0) && !Delivered(s, v).1
  {
    var frames, limit := v.body.frames, s.responseBodySizeLimit;
    if WantsBuffering(s, v) && !(Intact(frames) && |DataOf(frames)| <= limit) {
      assert frames[..|frames|] == frames;
      StopExists(frames, limit, |frames|);
      var i: nat :| StopsAt(frames, limit, i);
      StopTold(s, v, i);
    }
  }

  lemma StopTold(s: Settings, v: Response, i: nat)
    requires WantsBuffering(s, v) && StopsAt(v.body.frames, s.responseBodySizeLimit, i)
    ensures TellsStop(v.body.frames[i], Delivered(s, v).0) && !Delivered(s, v).1
  {
    CollectedAtStop(v.body.frames, s.responseBodySizeLimit, i);
    match v.body.frames[i]
    case Stalled => ErrorSays(BackendTimeout);
    case Broken(e) => ErrorSays(BackendBodyError(e));
    case _ => ErrorSays(BackendBodyError(TOO_LONG));
  }
}
