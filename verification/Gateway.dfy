/** The gateway's request lifecycle as an interleaved protocol: any number of submitters, one batcher
    goroutine, and cancellations.  Each mutex section and each channel operation is one atomic step. */
module Gateway {
  import opened Admission
  import opened Sums

  datatype Reason =
    | AdmissionRejected | RequestCancelled | QueueFull | WorkerUnavailable | WorkerTimeout | WorkerFailed | MissingResponse

  datatype Outcome = Result(text: string) | Error(reason: Reason)

  datatype Response = Response(id: nat, outcome: Outcome)

  /** Where a submitter stands: it has an id; it holds a lease; it waits for its response; it has returned. */
  datatype Phase = Named | Leased | Waiting | Returned(response: Response)

  /** The one-slot response channel. */
  datatype Slot = Empty | Full(response: Response)

  datatype Request = Request(tokens: int, released: bool, phase: Phase, slot: Slot)

  datatype Item = Item(id: nat, text: string)

  /** What the worker call of a flush came to. */
  datatype Verdict = CircuitOpen | CallFailed(reason: Reason) | Answered(items: seq<Item>)

  /** The batcher inside `flush`: separating cancelled requests from active ones, then replying. */
  datatype Flush = Idle | Sorting(todo: seq<nat>, active: seq<nat>) | Replying(todo: seq<nat>, verdict: Verdict)

  /** Inside `deliverResponse`, after the lease is released and before the response is sent. */
  datatype Hand = Free | Holding(response: Response)

  /** What the worker call of one flush came to, for the requests that were still active. */
  datatype Ruling = Ruling(flush: nat, ids: seq<nat>, verdict: Verdict)

  datatype Gateway = Gateway(
    policy: Policy,
    counters: Counters,
    requests: seq<Request>,
    capacity: nat,
    queue: seq<nat>,
    maxBatch: int,
    batch: seq<nat>,
    timerActive: bool,
    flush: Flush,
    hand: Hand,
    enqueued: seq<nat>,
    flushes: seq<seq<nat>>,
    rulings: seq<Ruling>,
    deliveries: seq<Response>)

  function Init(policy: Policy, capacity: nat, maxBatch: int): Gateway {
    Gateway(policy, Counters(0, 0, 0, 0, 0), [], capacity, [], maxBatch, [], false, Idle, Free, [], [], [], [])
  }

  // --------------------------------------------------------------- the steps

  /** Ids are positions in `requests`; `GenerateID` hands them out in order. */
  datatype Step =
    | GenerateID
    | TryAcquire(id: nat, tokens: int)
    | CancelBeforeQueue(id: nat)
    | Enqueue(id: nat)
    | FindQueueFull(id: nat)
    | TakeResponse(id: nat)
    | GiveUp(id: nat)
    | Receive(policyFlushes: bool)
    | HandOver(id: nat, policyFlushes: bool)
    | TimerFires
    | Sort(cancelled: bool)
    | Decide(verdict: Verdict)
    | Reply
    | Send

  predicate InPhase(g: Gateway, id: nat, phase: Phase) {
    id < |g.requests| && g.requests[id].phase == phase
  }

  predicate AtLoopHead(g: Gateway) {
    g.flush == Idle && g.hand == Free
  }

  predicate Enabled(g: Gateway, step: Step) {
    match step
    case GenerateID => true
    case TryAcquire(id, tokens) => InPhase(g, id, Named) && tokens >= 1
    case CancelBeforeQueue(id) => InPhase(g, id, Leased)
    case Enqueue(id) => InPhase(g, id, Leased) && |g.queue| < g.capacity
    case FindQueueFull(id) => InPhase(g, id, Leased) && |g.queue| >= g.capacity
    case TakeResponse(id) => InPhase(g, id, Waiting) && g.requests[id].slot.Full?
    case GiveUp(id) => InPhase(g, id, Waiting)
    case Receive(_) => AtLoopHead(g) && g.queue != []
    case HandOver(id, _) => InPhase(g, id, Leased) && AtLoopHead(g) && g.queue == []
    case TimerFires => AtLoopHead(g) && g.timerActive
    case Sort(_) => g.hand == Free && g.flush.Sorting? && g.flush.todo != [] && g.flush.todo[0] < |g.requests|
    case Decide(_) => g.hand == Free && g.flush.Sorting? && g.flush.todo == []
    case Reply => g.hand == Free && g.flush.Replying? && g.flush.todo != [] && g.flush.todo[0] < |g.requests|
    case Send => g.hand.Holding? && g.hand.response.id < |g.requests|
  }

  function SetPhase(g: Gateway, id: nat, phase: Phase): Gateway
    requires id < |g.requests|
  {
    g.(requests := g.requests[id := g.requests[id].(phase := phase)])
  }

  function Return(g: Gateway, id: nat, outcome: Outcome): Gateway
    requires id < |g.requests|
  {
    SetPhase(g, id, Returned(Response(id, outcome)))
  }

  /** `AdmissionLease.Release`: only the first call gives tokens back. */
  function ReleaseLease(g: Gateway, id: nat): (r: Gateway)
    requires id < |g.requests|
    ensures |r.requests| == |g.requests|
  {
    var q := g.requests[id];
    if q.released then g
    else g.(counters := GiveBack(g.counters, q.tokens), requests := g.requests[id := q.(released := true)])
  }

  function Admit(g: Gateway, id: nat, tokens: int): Gateway
    requires id < |g.requests|
  {
    var (counters, held, admitted) := Acquire(g.policy, g.counters, tokens);
    var metered := g.(counters := counters);
    if admitted then metered.(requests := g.requests[id := g.requests[id].(tokens := held, phase := Leased)])
    else Return(metered, id, Error(AdmissionRejected))
  }

  function Push(g: Gateway, id: nat): Gateway
    requires id < |g.requests|
  {
    SetPhase(g, id, Waiting).(queue := g.queue + [id], enqueued := g.enqueued + [id])
  }

  function StartFlush(g: Gateway, batch: seq<nat>): Gateway {
    g.(batch := [], timerActive := false, flush := Sorting(batch, []), flushes := g.flushes + [batch])
  }

  /** The receive arm of `run`: the policy must flush a full batch and may flush earlier. */
  function Pull(g: Gateway, policyFlushes: bool): Gateway
    requires g.queue != []
  {
    var batch := g.batch + [g.queue[0]];
    var pulled := g.(queue := g.queue[1..]);
    if policyFlushes || |batch| >= g.maxBatch then StartFlush(pulled, batch)
    else pulled.(batch := batch, timerActive := g.timerActive || |batch| == 1)
  }

  /** The first half of `deliverResponse`. */
  function Deliver(g: Gateway, response: Response): Gateway
    requires response.id < |g.requests|
  {
    ReleaseLease(g, response.id).(hand := Holding(response))
  }

  /** The worker's answer for `id`: of several with that id, the last. */
  function Lookup(items: seq<Item>, id: nat): (r: seq<Item>)
    ensures |r| <= 1 && forall i | 0 <= i < |r| :: r[i].id == id && r[i] in items
  {
    if items == [] then []
    else if items[|items| - 1].id == id then [items[|items| - 1]]
    else Lookup(items[..|items| - 1], id)
  }

  function ReplyTo(id: nat, verdict: Verdict): (r: Response)
    ensures r.id == id
  {
    match verdict
    case CircuitOpen => Response(id, Error(WorkerUnavailable))
    case CallFailed(reason) => Response(id, Error(reason))
    case Answered(items) =>
      var found := Lookup(items, id);
      if found == [] then Response(id, Error(MissingResponse)) else Response(found[0].id, Result(found[0].text))
  }

  /** The worker call: none when every request of the flush was cancelled. */
  function Rule(g: Gateway, verdict: Verdict): Gateway
    requires g.flush.Sorting?
  {
    if g.flush.active == [] then g.(flush := Idle)
    else
      g.(flush := Replying(g.flush.active, verdict),
         rulings := g.rulings + [Ruling(if g.flushes == [] then 0 else |g.flushes| - 1, g.flush.active, verdict)])
  }

  /** The second half of `deliverResponse`: a send that is dropped when the slot is taken. */
  function SendResponse(g: Gateway): Gateway
    requires g.hand.Holding? && g.hand.response.id < |g.requests|
  {
    var response := g.hand.response;
    var q := g.requests[response.id];
    if q.slot.Full? then g.(hand := Free)
    else g.(hand := Free, requests := g.requests[response.id := q.(slot := Full(response))],
            deliveries := g.deliveries + [response])
  }

  function Apply(g: Gateway, step: Step): Gateway
    requires Enabled(g, step)
  {
    match step
    case GenerateID => g.(requests := g.requests + [Request(0, false, Named, Empty)])
    case TryAcquire(id, tokens) => Admit(g, id, tokens)
    case CancelBeforeQueue(id) => Return(ReleaseLease(g, id), id, Error(RequestCancelled))
    case Enqueue(id) => Push(g, id)
    case FindQueueFull(id) => Return(ReleaseLease(g, id), id, Error(QueueFull))
    case TakeResponse(id) =>
      var q := g.requests[id];
      g.(requests := g.requests[id := q.(phase := Returned(q.slot.response), slot := Empty)])
    case GiveUp(id) => Return(ReleaseLease(g, id), id, Error(RequestCancelled))
    case Receive(policyFlushes) => Pull(g, policyFlushes)
    case HandOver(id, policyFlushes) => Pull(Push(g, id), policyFlushes)
    case TimerFires => if g.batch == [] then g.(timerActive := false) else StartFlush(g, g.batch)
    case Sort(cancelled) =>
      var id, rest := g.flush.todo[0], g.flush.todo[1..];
      if cancelled then Deliver(g.(flush := Sorting(rest, g.flush.active)), Response(id, Error(RequestCancelled)))
      else g.(flush := Sorting(rest, g.flush.active + [id]))
    case Decide(verdict) => Rule(g, verdict)
    case Reply =>
      var id, rest := g.flush.todo[0], g.flush.todo[1..];
      Deliver(g.(flush := if rest == [] then Idle else Replying(rest, g.flush.verdict)), ReplyTo(id, g.flush.verdict))
    case Send => SendResponse(g)
  }

  /** The state after a sequence of steps, of which those that are not enabled do not happen. */
  function After(g: Gateway, steps: seq<Step>): Gateway {
    if steps == [] then g
    else
      var before := After(g, steps[..|steps| - 1]);
      var step := steps[|steps| - 1];
      if Enabled(before, step) then Apply(before, step) else before
  }

  // ------------------------------------------------------------- invariants

  /** Tokens a request's lease still accounts for. */
  function Held(q: Request): int {
    if q.released then 0 else q.tokens
  }

  /** In-flight tokens are exactly the unreleased leases, and never exceed a positive limit. */
  ghost predicate Metered(g: Gateway) {
    && g.counters.inFlightTokens == Sum(g.requests, Held)
    && (forall i: nat | i < |g.requests| :: g.requests[i].tokens >= 0)
    && (g.policy.maxInFlightTokens > 0 ==> g.counters.inFlightTokens <= g.policy.maxInFlightTokens)
  }

  function Flat(flushes: seq<seq<nat>>): seq<nat> {
    if flushes == [] then [] else Flat(flushes[..|flushes| - 1]) + flushes[|flushes| - 1]
  }

  predicate Distinct(ids: seq<nat>) {
    forall i, j | 0 <= i < j < |ids| :: ids[i] != ids[j]
  }

  /** Enqueued requests leave the queue in order, batch by batch; the timer runs exactly while the
      batch is non-empty. */
  predicate Ordered(g: Gateway) {
    && g.maxBatch > 0
    && Flat(g.flushes) + g.batch + g.queue == g.enqueued
    && (forall k | 0 <= k < |g.flushes| :: 1 <= |g.flushes[k]| <= g.maxBatch)
    && |g.batch| < g.maxBatch
    && (g.timerActive <==> g.batch != [])
    && (!AtLoopHead(g) ==> g.batch == [])
    && (forall id | id in g.enqueued :: id < |g.requests| && (g.requests[id].phase == Waiting || g.requests[id].phase.Returned?))
    && Distinct(g.enqueued)
  }

  function Ids(responses: seq<Response>): (r: seq<nat>)
    ensures |r| == |responses|
  {
    if responses == [] then [] else Ids(responses[..|responses| - 1]) + [responses[|responses| - 1].id]
  }

  /** Flushed requests whose response has not been sent yet. */
  function Unsent(g: Gateway): seq<nat> {
    (match g.flush
     case Idle => []
     case Sorting(todo, active) => todo + active
     case Replying(todo, _) => todo)
    + (if g.hand.Holding? then [g.hand.response.id] else [])
  }

  function Bag(ids: seq<nat>): multiset<nat> {
    multiset(ids)
  }

  /** Every flushed request has been sent its response, or still waits for it in the current flush. */
  predicate Delivered(g: Gateway) {
    Bag(Ids(g.deliveries)) + Bag(Unsent(g)) == Bag(Flat(g.flushes))
  }

  predicate Answers(g: Gateway, id: nat)
    requires id < |g.requests|
  {
    var q := g.requests[id];
    && (q.phase == Named ==> q.tokens == 0 && !q.released)
    && (q.phase.Returned? ==> q.phase.response.id == id && (q.released || q.tokens == 0))
    && (q.slot.Full? ==> q.slot.response.id == id && id in Ids(g.deliveries))
    && (id in Ids(g.deliveries) ==> q.released)
    && (g.hand.Holding? && g.hand.response.id == id ==> q.released)
  }

  ghost predicate Inv(g: Gateway) {
    Metered(g) && Ordered(g) && Delivered(g) && forall id: nat | id < |g.requests| :: Answers(g, id)
  }
}
