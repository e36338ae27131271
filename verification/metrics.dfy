/**
 Request accounting: the request future, which may be dropped at any await, and the logger task
 it spawned, joined by a oneshot channel, over any number of concurrent requests.
 */
module Metrics {
  import opened Wrappers
  import opened Configs
  import opened Http
  import opened Collector
  import opened Retry
  import opened Handler
  import opened HandlerTheorems

  // ----- what is recorded

  /** What the request future sends to its logger */
  datatype Meta = Meta(context: Context, status: nat, cause: Option<ErrorCause>, retries: u8)

  const REQUEST_TIMEOUT := 408

  /** What the logger assumes when the sender was dropped */
  const DEFAULT_META := Meta(NO_CONTEXT, REQUEST_TIMEOUT, None, 0)

  function MetaOf(response: Response, context: Context): Meta {
    Meta(context, response.status, response.cause, response.retries.GetOr(0))
  }

  /** The labels known before the request runs */
  datatype Origin = Origin(tls: string, method_: string, http: string)

  datatype Labels = Labels(origin: Origin, status: nat, backend: string, retried: bool)

  function LabelsOf(origin: Origin, meta: Meta): Labels {
    Labels(origin, meta.status,
           match meta.context.backend case None => "unknown" case Some(b) => b.name,
           meta.retries > 0)
  }

  /** The end of the middleware: takes the two extensions off the response and sums it up. */
  method FinishRequest(response: Response, ctx: RequestContext) returns (meta: Meta, out: Response)
    ensures meta == MetaOf(response, ctx.Value())
    ensures meta.status == response.status && meta.cause == response.cause && meta.context == ctx.Value()
    ensures meta.retries == if response.retries.Some? then response.retries.value else 0
    ensures out == response.(retries := None, cause := None)
  {
    out := response;
    var retries := out.retries.GetOr(0);
    out := out.(retries := None);
    var cause := out.cause;
    out := out.(cause := None);
    meta := Meta(ctx.Value(), response.status, cause, retries);
  }

  // ----- the step system

  type RequestId = nat

  /** The oneshot channel: open while the request runs, then sent into or dropped */
  datatype Channel = Open | Holding(meta: Meta) | Hungup

  /** The logger task: waits on the channel, then counts, then observes */
  datatype Logger = Waiting | Received(labels: Labels) | Counted(labels: Labels) | Done(labels: Labels)

  datatype Tracked = Tracked(origin: Origin, channel: Channel, logger: Logger)

  /** The two metric families, one multiplicity for each label tuple, and every request so far */
  datatype State = State(requests: map<RequestId, Tracked>, counter: multiset<Labels>, histogram: multiset<Labels>)

  const INIT := State(map[], multiset{}, multiset{})

  datatype Step =
    | Spawn(id: RequestId, origin: Origin)
    | Complete(id: RequestId, meta: Meta)  // the request ran to its end and sent
    | Drop(id: RequestId)                  // the request future was dropped at an await
    | Receive(id: RequestId)
    | Count(id: RequestId)
    | Observe(id: RequestId)

  predicate CanTake(s: State, step: Step) {
    match step
    case Spawn(id, _) => id !in s.requests
    case Complete(id, _) => id in s.requests && s.requests[id].channel.Open?
    case Drop(id) => id in s.requests && s.requests[id].channel.Open?
    case Receive(id) => id in s.requests && !s.requests[id].channel.Open? && s.requests[id].logger.Waiting?
    case Count(id) => id in s.requests && s.requests[id].logger.Received?
    case Observe(id) => id in s.requests && s.requests[id].logger.Counted?
  }

  function Put(s: State, id: RequestId, r: Tracked): State {
    s.(requests := s.requests[id := r])
  }

  function Do(s: State, step: Step): State
    requires CanTake(s, step)
  {
    match step
    case Spawn(id, origin) => Put(s, id, Tracked(origin, Open, Waiting))
    case Complete(id, meta) => Put(s, id, s.requests[id].(channel := Holding(meta)))
    case Drop(id) => Put(s, id, s.requests[id].(channel := Hungup))
    case Receive(id) =>
      var r := s.requests[id];
      var meta := match r.channel case Holding(m) => m case _ => DEFAULT_META;
      Put(s, id, r.(logger := Received(LabelsOf(r.origin, meta))))
    case Count(id) =>
      var r := s.requests[id];
      Put(s, id, r.(logger := Counted(r.logger.labels))).(counter := s.counter + multiset{r.logger.labels})
    case Observe(id) =>
      var r := s.requests[id];
      Put(s, id, r.(logger := Done(r.logger.labels))).(histogram := s.histogram + multiset{r.logger.labels})
  }

  ghost predicate NextAt(states: seq<State>, steps: seq<Step>, i: nat) {
    i < |steps| < |states| && CanTake(states[i], steps[i]) && states[i + 1] == Do(states[i], steps[i])
  }

  ghost predicate IsRun(states: seq<State>, steps: seq<Step>) {
    && |states| == |steps| + 1 && states[0] == INIT
    && forall i :: 0 <= i < |steps| ==> NextAt(states, steps, i)
  }

  // ----- the invariant

  /** The labels a request deserves: those of what it sent, or of a cancelled request */
  function Due(r: Tracked): Labels {
    LabelsOf(r.origin, match r.channel case Holding(m) => m case _ => DEFAULT_META)
  }

  predicate IsCounted(r: Tracked) {
    r.logger.Counted? || r.logger.Done?
  }

  ghost function CountedWith(s: State, l: Labels): set<RequestId> {
    set id | id in s.requests && IsCounted(s.requests[id]) && s.requests[id].logger.labels == l
  }

  ghost function ObservedWith(s: State, l: Labels): set<RequestId> {
    set id | id in s.requests && s.requests[id].logger.Done? && s.requests[id].logger.labels == l
  }

  ghost function CountedAll(s: State): set<RequestId> {
    set id | id in s.requests && IsCounted(s.requests[id])
  }

  ghost function ObservedAll(s: State): set<RequestId> {
    set id | id in s.requests && s.requests[id].logger.Done?
  }

  ghost predicate LoggersOk(s: State) {
    forall id :: id in s.requests ==>
      var r := s.requests[id];
      r.logger.Waiting? || (!r.channel.Open? && r.logger.labels == Due(r))
  }

  ghost predicate TalliesOk(s: State) {
    && (forall l :: s.counter[l] == |CountedWith(s, l)|)
    && (forall l :: s.histogram[l] == |ObservedWith(s, l)|)
    && |s.counter| == |CountedAll(s)|
    && |s.histogram| == |ObservedAll(s)|
  }

  ghost predicate Inv(s: State) {
    LoggersOk(s) && TalliesOk(s)
  }

  /** A request that stays uncounted and unobserved, or stays counted and unobserved with its labels */
  lemma CountedSame(s: State, id: RequestId, r: Tracked, l: Labels)
    requires if id in s.requests then IsCounted(s.requests[id]) == IsCounted(r) else !IsCounted(r)
    requires id in s.requests && IsCounted(r) ==> s.requests[id].logger.labels == r.logger.labels
    ensures CountedWith(Put(s, id, r), l) == CountedWith(s, l)
    ensures CountedAll(Put(s, id, r)) == CountedAll(s)
  {
  }

  lemma ObservedSame(s: State, id: RequestId, r: Tracked, l: Labels)
    requires id in s.requests ==> !s.requests[id].logger.Done?
    requires !r.logger.Done?
    ensures ObservedWith(Put(s, id, r), l) == ObservedWith(s, l)
    ensures ObservedAll(Put(s, id, r)) == ObservedAll(s)
  {
  }

  lemma CountedMore(s: State, id: RequestId, r: Tracked, l: Labels)
    requires id in s.requests && !IsCounted(s.requests[id]) && IsCounted(r)
    ensures CountedWith(Put(s, id, r), l) == CountedWith(s, l) + (if l == r.logger.labels then {id} else {})
    ensures CountedAll(Put(s, id, r)) == CountedAll(s) + {id}
    ensures id !in CountedWith(s, l) && id !in CountedAll(s)
  {
  }

  lemma ObservedMore(s: State, id: RequestId, r: Tracked, l: Labels)
    requires id in s.requests && !s.requests[id].logger.Done? && r.logger.Done?
    ensures ObservedWith(Put(s, id, r), l) == ObservedWith(s, l) + (if l == r.logger.labels then {id} else {})
    ensures ObservedAll(Put(s, id, r)) == ObservedAll(s) + {id}
    ensures id !in ObservedWith(s, l) && id !in ObservedAll(s)
  {
  }

  /** A step that moves one request without counting or observing it leaves the tallies right. */
  lemma QuietStep(s: State, id: RequestId, r: Tracked)
    requires TalliesOk(s) && !IsCounted(r)
    requires id in s.requests ==> !IsCounted(s.requests[id])
    ensures TalliesOk(Put(s, id, r))
  {
    var s' := Put(s, id, r);
    forall l ensures s'.counter[l] == |CountedWith(s', l)| {
      CountedSame(s, id, r, l);
    }
    forall l ensures s'.histogram[l] == |ObservedWith(s', l)| {
      ObservedSame(s, id, r, l);
    }
    CountedSame(s, id, r, Due(r));
    ObservedSame(s, id, r, Due(r));
  }

  lemma CountStep(s: State, id: RequestId)
    requires TalliesOk(s) && CanTake(s, Count(id))
    ensures TalliesOk(Do(s, Count(id)))
  {
    var s', r := Do(s, Count(id)), Do(s, Count(id)).requests[id];
    CountAddsOne(s, id, r, s');
    CountLeavesHistogram(s, id, r, s');
  }

  lemma CountAddsOne(s: State, id: RequestId, r: Tracked, s': State)
    requires TalliesOk(s) && id in s.requests && !IsCounted(s.requests[id]) && IsCounted(r)
    requires s'.requests == Put(s, id, r).requests && s'.counter == s.counter + multiset{r.logger.labels}
    ensures forall l :: s'.counter[l] == |CountedWith(s', l)|
    ensures |s'.counter| == |CountedAll(s')|
  {
    SameRequests(Put(s, id, r), s');
    forall l ensures s'.counter[l] == |CountedWith(s', l)| {
      CountedMore(s, id, r, l);
    }
    CountedMore(s, id, r, r.logger.labels);
  }

  lemma CountLeavesHistogram(s: State, id: RequestId, r: Tracked, s': State)
    requires TalliesOk(s) && id in s.requests && !s.requests[id].logger.Done? && !r.logger.Done?
    requires s'.requests == Put(s, id, r).requests && s'.histogram == s.histogram
    ensures forall l :: s'.histogram[l] == |ObservedWith(s', l)|
    ensures |s'.histogram| == |ObservedAll(s')|
  {
    SameRequests(Put(s, id, r), s');
    forall l ensures s'.histogram[l] == |ObservedWith(s', l)| {
      ObservedSame(s, id, r, l);
    }
    ObservedSame(s, id, r, Due(r));
  }

  lemma ObserveStep(s: State, id: RequestId)
    requires TalliesOk(s) && CanTake(s, Observe(id))
    ensures TalliesOk(Do(s, Observe(id)))
  {
    var s', r := Do(s, Observe(id)), Do(s, Observe(id)).requests[id];
    ObserveAddsOne(s, id, r, s');
    ObserveLeavesCounter(s, id, r, s');
  }

  lemma ObserveAddsOne(s: State, id: RequestId, r: Tracked, s': State)
    requires TalliesOk(s) && id in s.requests && !s.requests[id].logger.Done? && r.logger.Done?
    requires s'.requests == Put(s, id, r).requests && s'.histogram == s.histogram + multiset{r.logger.labels}
    ensures forall l :: s'.histogram[l] == |ObservedWith(s', l)|
    ensures |s'.histogram| == |ObservedAll(s')|
  {
    SameRequests(Put(s, id, r), s');
    forall l ensures s'.histogram[l] == |ObservedWith(s', l)| {
      ObservedMore(s, id, r, l);
    }
    ObservedMore(s, id, r, r.logger.labels);
  }

  lemma ObserveLeavesCounter(s: State, id: RequestId, r: Tracked, s': State)
    requires TalliesOk(s) && id in s.requests && IsCounted(s.requests[id]) && IsCounted(r)
    requires s.requests[id].logger.labels == r.logger.labels
    requires s'.requests == Put(s, id, r).requests && s'.counter == s.counter
    ensures forall l :: s'.counter[l] == |CountedWith(s', l)|
    ensures |s'.counter| == |CountedAll(s')|
  {
    SameRequests(Put(s, id, r), s');
    forall l ensures s'.counter[l] == |CountedWith(s', l)| {
      CountedSame(s, id, r, l);
    }
    CountedSame(s, id, r, Due(r));
  }

  lemma SameRequests(s: State, s': State)
    requires s.requests == s'.requests
    ensures CountedAll(s) == CountedAll(s') && ObservedAll(s) == ObservedAll(s')
    ensures forall l :: CountedWith(s, l) == CountedWith(s', l) && ObservedWith(s, l) == ObservedWith(s', l)
  {
  }

  lemma LoggersStep(s: State, step: Step)
    requires LoggersOk(s) && CanTake(s, step)
    ensures LoggersOk(Do(s, step))
  {
  }

  lemma StepKeeps(s: State, step: Step)
    requires Inv(s) && CanTake(s, step)
    ensures Inv(Do(s, step))
  {
    LoggersStep(s, step);
    match step
    case Count(id) => CountStep(s, id);
    case Observe(id) => ObserveStep(s, id);
    case _ => QuietStep(s, step.id, Do(s, step).requests[step.id]);
  }

  lemma {:induction false} RunInv(states: seq<State>, steps: seq<Step>, i: nat)
    requires IsRun(states, steps) && i < |states|
    ensures Inv(states[i])
  {
    if i == 0 {
      assert CountedAll(INIT) == {} && ObservedAll(INIT) == {};
      forall l ensures CountedWith(INIT, l) == {} && ObservedWith(INIT, l) == {} {
      }
    } else {
      RunInv(states, steps, i - 1);
      assert NextAt(states, steps, i - 1);
      StepKeeps(states[i - 1], steps[i - 1]);
    }
  }

  // ----- conservation

  /** Requests whose logger has not counted them yet */
  ghost function Pending(s: State): set<RequestId> {
    set id | id in s.requests && !IsCounted(s.requests[id])
  }

  /** The requests counted so far that are due to be counted under `l` */
  ghost function DueUnder(s: State, l: Labels): set<RequestId> {
    set id | id in s.requests && IsCounted(s.requests[id]) && Due(s.requests[id]) == l
  }

  lemma CountedAreDue(s: State, l: Labels)
    requires LoggersOk(s)
    ensures CountedWith(s, l) == DueUnder(s, l)
  {
  }

  /**
   In every run, cancellations included: the sum of the counter over all label tuples plus the
   loggers still to count is the number of requests, and each tuple counts exactly the requests
   that are due under it.
   */
  lemma ExactlyOnce(states: seq<State>, steps: seq<Step>, i: nat)
    requires IsRun(states, steps) && i < |states|
    ensures var s := states[i];
            && |s.counter| + |Pending(s)| == |s.requests|
            && (forall l :: s.counter[l] == |DueUnder(s, l)|)
            && (forall l :: s.histogram[l] <= s.counter[l])
  {
    RunInv(states, steps, i);
    var s := states[i];
    assert s.requests.Keys == CountedAll(s) + Pending(s);
    assert |s.requests| == |s.requests.Keys|;
    forall l ensures s.counter[l] == |DueUnder(s, l)| && s.histogram[l] <= s.counter[l] {
      CountedAreDue(s, l);
      assert ObservedWith(s, l) <= CountedWith(s, l);
      SubsetCard(ObservedWith(s, l), CountedWith(s, l));
    }
  }

  /** Once every logger is done, each request has been counted and observed once, under the same labels. */
  lemma AllDone(states: seq<State>, steps: seq<Step>, i: nat)
    requires IsRun(states, steps) && i < |states|
    requires forall id :: id in states[i].requests ==> states[i].requests[id].logger.Done?
    ensures states[i].histogram == states[i].counter && |states[i].counter| == |states[i].requests|
  {
    RunInv(states, steps, i);
    ExactlyOnce(states, steps, i);
    var s := states[i];
    forall l ensures s.histogram[l] == s.counter[l] {
      assert ObservedWith(s, l) == CountedWith(s, l);
    }
    assert Pending(s) == {};
  }

  lemma SubsetCard(a: set<RequestId>, b: set<RequestId>)
    requires a <= b
    ensures |a| <= |b|
  {
    assert b == a + (b - a);
  }

  // ----- the steps behind the state

  ghost predicate Happens(steps: seq<Step>, i: nat, step: Step) {
    i <= |steps| && exists k :: 0 <= k < i && steps[k] == step
  }

  /** What is known of a request is what the steps have done with it. */
  ghost predicate Traced(steps: seq<Step>, i: nat, id: RequestId, r: Tracked) {
    && (forall origin :: Happens(steps, i, Spawn(id, origin)) <==> origin == r.origin)
    && (forall meta :: Happens(steps, i, Complete(id, meta)) <==> r.channel == Holding(meta))
    && (Happens(steps, i, Drop(id)) <==> r.channel == Hungup)
    && (Happens(steps, i, Count(id)) <==> IsCounted(r))
    && (Happens(steps, i, Observe(id)) <==> r.logger.Done?)
  }

  ghost predicate Unheard(steps: seq<Step>, i: nat, id: RequestId) {
    forall step :: Happens(steps, i, step) ==> step.id != id
  }

  lemma HappensNext(steps: seq<Step>, i: nat, step: Step)
    requires 0 < i <= |steps|
    ensures Happens(steps, i, step) <==> Happens(steps, i - 1, step) || steps[i - 1] == step
  {
    if k :| 0 <= k < i - 1 && steps[k] == step {
      assert 0 <= k < i;
    }
  }

  /** In every run the requests are those spawned, completed, dropped, counted and observed by its steps. */
  lemma {:induction false} StateIsSteps(states: seq<State>, steps: seq<Step>, i: nat, id: RequestId)
    requires IsRun(states, steps) && i < |states|
    ensures if id in states[i].requests then Traced(steps, i, id, states[i].requests[id]) else Unheard(steps, i, id)
  {
    if i > 0 {
      StateIsSteps(states, steps, i - 1, id);
      assert NextAt(states, steps, i - 1);
      forall step ensures Happens(steps, i, step) <==> Happens(steps, i - 1, step) || steps[i - 1] == step {
        HappensNext(steps, i, step);
      }
      TraceNext(states[i - 1], steps, i, id);
    }
  }

  lemma TraceNext(s: State, steps: seq<Step>, i: nat, id: RequestId)
    requires 0 < i <= |steps| && CanTake(s, steps[i - 1])
    requires forall step :: Happens(steps, i, step) <==> Happens(steps, i - 1, step) || steps[i - 1] == step
    requires if id in s.requests then Traced(steps, i - 1, id, s.requests[id]) else Unheard(steps, i - 1, id)
    ensures var s' := Do(s, steps[i - 1]);
            if id in s'.requests then Traced(steps, i, id, s'.requests[id]) else Unheard(steps, i, id)
  {
    if steps[i - 1].id == id {
      TraceOwn(s, steps, i, id, steps[i - 1]);
    }
  }

  lemma TraceOwn(s: State, steps: seq<Step>, i: nat, id: RequestId, last: Step)
    requires 0 < i <= |steps| && CanTake(s, last) && last.id == id
    requires forall step :: Happens(steps, i, step) <==> Happens(steps, i - 1, step) || last == step
    requires if id in s.requests then Traced(steps, i - 1, id, s.requests[id]) else Unheard(steps, i - 1, id)
    ensures id in Do(s, last).requests && Traced(steps, i, id, Do(s, last).requests[id])
  {
  }

  /** The labels, one by one */
  ghost predicate Tells(labels: Labels, origin: Origin, meta: Meta) {
    && labels.origin == origin
    && labels.status == meta.status
    && (meta.context.backend.Some? ==> labels.backend == meta.context.backend.value.name)
    && (meta.context.backend.None? ==> labels.backend == "unknown")
    && (labels.retried <==> meta.retries as int > 0)
  }

  lemma LabelsTell(origin: Origin, meta: Meta)
    ensures Tells(LabelsOf(origin, meta), origin, meta)
  {
  }

  /**
   What a request is counted as, told by the steps of the run: when it was completed, its own
   status and context with the labels it was spawned with; when it was dropped, 408, "unknown"
   and not retried. One of the two has happened by then, and not both.
   */
  lemma CountedAs(states: seq<State>, steps: seq<Step>, i: nat, id: RequestId, origin: Origin)
    requires IsRun(states, steps) && i < |states|
    requires Happens(steps, i, Spawn(id, origin)) && Happens(steps, i, Count(id))
    ensures id in states[i].requests && IsCounted(states[i].requests[id])
    ensures var labels := states[i].requests[id].logger.labels;
            && states[i].counter[labels] > 0
            && (forall meta :: Happens(steps, i, Complete(id, meta)) ==> Tells(labels, origin, meta))
            && (Happens(steps, i, Drop(id)) ==> labels == Labels(origin, 408, "unknown", false))
    ensures Happens(steps, i, Drop(id)) <==> !exists meta :: Happens(steps, i, Complete(id, meta))
  {
    RunInv(states, steps, i);
    StateIsSteps(states, steps, i, id);
    assert id in states[i].requests by {
      assert Count(id).id == id;
    }
    var r := states[i].requests[id];
    assert r.origin == origin && !r.channel.Open? && r.logger.labels == Due(r);
    assert id in CountedWith(states[i], r.logger.labels);
    assert r.channel.Holding? ==> Happens(steps, i, Complete(id, r.channel.meta));
    if r.channel.Holding? { LabelsTell(origin, r.channel.meta); }
  }

  // ----- the "retried" label, end to end

  /** Responses of backends carry neither of the handler's own extensions. */
  ghost predicate Plain(w: World) {
    forall i: nat :: w.turns(i).Picked? && w.turns(i).reply.Answered? ==>
      w.turns(i).reply.response.retries == None && w.turns(i).reply.response.cause == None
  }

  lemma PlainVerdict(w: World, i: nat, path: string)
    requires Plain(w) && VerdictOf(w, i, path).Ok?
    ensures VerdictOf(w, i, path).response.retries == None
  {
  }

  /** Buffered, failed at least once, then succeeded, and the response was not replaced while buffering it */
  ghost predicate RetriedAndDelivered(s: Settings, w: World, router: Option<RouterId>, r: Request)
    requires s.Valid()
  {
    && w.authorityOf(r).Some? && router.Some? && ShouldBuffer(s, r)
    && CollectedOf(r.body.frames, s.requestBodySizeLimit).Whole?
    && var f := FirstOk(w, PathOf(r), s.retryAttempts as nat);
       && 0 < f < s.retryAttempts as nat
       && var v := VerdictOf(w, f, PathOf(r)).response;
          BuffersResponse(s, v) ==> CollectedOf(v.body.frames, s.responseBodySizeLimit).Whole?
  }

  /** The extension a buffered request comes back with */
  lemma RetriesExtension(s: Settings, w: World, router: RouterId, r: Request)
    requires s.Valid() && Retried(s, w, router, r).result.Replied?
    ensures var f := FirstOk(w, PathOf(r), s.retryAttempts as nat);
            var response := Retried(s, w, router, r).result.response;
            response.retries ==
            if f < s.retryAttempts as nat
               && (BuffersResponse(s, VerdictOf(w, f, PathOf(r)).response) ==>
                     CollectedOf(VerdictOf(w, f, PathOf(r)).response.body.frames, s.responseBodySizeLimit).Whole?)
            then Some(f as u8) else None
  {
    var f := FirstOk(w, PathOf(r), s.retryAttempts as nat);
    if f < s.retryAttempts as nat {
      var v := VerdictOf(w, f, PathOf(r)).response.(retries := Some(f as u8));
      ResponseTransparent(s, v);
    }
  }

  /**
   The label is "yes" exactly for a buffered request that failed at least once and then came
   through with its own response; the number recorded is the calls made minus one, below the
   allowed attempts, and 0 in every other case.
   */
  lemma RetriedLabel(s: Settings, w: World, router: Option<RouterId>, r: Request, origin: Origin)
    requires s.Valid() && Plain(w) && Handled(s, w, router, r).result.Replied?
    ensures var o := Handled(s, w, router, r);
            var meta := MetaOf(o.result.response, o.context);
            && (LabelsOf(origin, meta).retried <==> RetriedAndDelivered(s, w, router, r))
            && (RetriedAndDelivered(s, w, router, r) ==>
                  meta.retries as nat == o.calls - 1 <= s.retryAttempts as nat - 1)
            && (!RetriedAndDelivered(s, w, router, r) ==> meta.retries == 0)
  {
    if w.authorityOf(r).Some? && router.Some? {
      var named := WithHost(r, w.authorityOf(r).value);
      if !ShouldBuffer(s, r) {
        if VerdictOf(w, 0, PathOf(named)).Ok? {
          PlainVerdict(w, 0, PathOf(named));
          ResponseTransparent(s, VerdictOf(w, 0, PathOf(named)).response);
        }
      } else if CollectedOf(r.body.frames, s.requestBodySizeLimit).Whole? {
        var bytes := CollectedOf(r.body.frames, s.requestBodySizeLimit).bytes;
        var req := named.(body := Full(bytes));
        assert PathOf(req) == PathOf(r);
        RetriesExtension(s, w, router.value, req);
      }
    }
  }

  /**
   What a request that gets an answer is counted under when it completes: the status of that
   answer, and the name of the backend picked last in the calls made, "unknown" if there was none.
   */
  lemma HandledIsCountedAs(s: Settings, w: World, router: Option<RouterId>, r: Request, origin: Origin)
    requires s.Valid() && Handled(s, w, router, r).result.Replied?
    ensures var o := Handled(s, w, router, r);
            var labels := LabelsOf(origin, MetaOf(o.result.response, o.context));
            && labels.origin == origin && labels.status == o.result.response.status
            && ((forall i :: 0 <= i < o.calls ==> w.turns(i).NoHealthyNodes?) ==> labels.backend == "unknown")
            && (forall i :: 0 <= i < o.calls && w.turns(i).Picked?
                            && (forall j :: i < j < o.calls ==> w.turns(j).NoHealthyNodes?) ==>
                              labels.backend == w.turns(i).backend.name)
  {
    var o := Handled(s, w, router, r);
    ContextNamesLastBackend(s, w, router, r);
    LastPickedIsLast(w, o.calls);
    LabelsTell(origin, MetaOf(o.result.response, o.context));
  }
}
