/** No request is stranded: work left over always has a step that can do it, and it runs out. */
module GatewayProgress {
  import opened Admission
  import opened Gateway
  import opened GatewayTheorems
  import opened Sums

  // ------------------------------------------------------- waiting requests

  /** A request that waits has been queued, and once its response is sent its slot holds it. */
  predicate Waits(g: Gateway, id: nat)
    requires id < |g.requests|
  {
    g.requests[id].phase == Waiting ==>
      id in g.enqueued && (id in Ids(g.deliveries) ==> g.requests[id].slot.Full?)
  }

  lemma EnqueuedGrows(g: Gateway, step: Step, id: nat)
    requires Enabled(g, step) && id in g.enqueued
    ensures id in Apply(g, step).enqueued
  {
    hide Acquire, GiveBack, Lookup;
  }

  lemma PushShape(g: Gateway, step: Step, id: nat)
    requires Enabled(g, step) && (step.Enqueue? || step.HandOver?) && id == step.id
    ensures var after := Apply(g, step);
            && id < |g.requests| == |after.requests| && !Enqueued(g.requests[id])
            && after.enqueued == g.enqueued + [id] && after.deliveries == g.deliveries
  {
    hide AtLoopHead;
  }

  lemma NewlyWaits(b: Gateway, enqueued: seq<nat>, id: nat)
    requires id < |b.requests| && b.enqueued == enqueued + [id] && id !in Ids(b.deliveries)
    ensures Waits(b, id)
  {
    hide Ids;
    assert b.enqueued[|enqueued|] == id;
  }

  lemma PushedWaits(g: Gateway, step: Step, id: nat)
    requires Inv(g) && Enabled(g, step) && (step.Enqueue? || step.HandOver?) && id == step.id
    ensures id < |Apply(g, step).requests| && Waits(Apply(g, step), id)
  {
    hide *;
    PushShape(g, step, id);
    UndeliveredWhenNotEnqueued(g, id);
    NewlyWaits(Apply(g, step), g.enqueued, id);
  }

  lemma SendWaits(g: Gateway, id: nat)
    requires Inv(g) && Enabled(g, Send) && id < |g.requests| && Waits(g, id)
    ensures id < |Apply(g, Send).requests| && Waits(Apply(g, Send), id)
  {
    hide Bag;
    SendKeepsDelivered(g);
    SameDeliveries(g, Send);
    hide Inv, Ids;
  }

  /** Every other step leaves a waiting request's slot and the deliveries alone. */
  /** A waiting request that a step did not touch. */
  lemma SameWaits(a: Gateway, b: Gateway, id: nat)
    requires id < |a.requests| && Waits(a, id)
    requires id < |b.requests|
    requires b.requests[id].phase == Waiting ==> a.requests[id].phase == Waiting && b.requests[id].slot == a.requests[id].slot
    requires b.deliveries == a.deliveries && (id in a.enqueued ==> id in b.enqueued)
    ensures Waits(b, id)
  {
    hide Ids;
  }

  lemma SubmitterLeavesSlot(g: Gateway, step: Step, id: nat)
    requires Enabled(g, step) && BySubmitter(step) && id < |g.requests|
    requires (step.Enqueue? || step.HandOver?) ==> id != step.id
    ensures var after := Apply(g, step);
            && id < |after.requests|
            && (after.requests[id].phase == Waiting ==>
                  g.requests[id].phase == Waiting && after.requests[id].slot == g.requests[id].slot)
  {
    hide Acquire, GiveBack, AtLoopHead;
  }

  lemma BatcherLeavesSlot(g: Gateway, step: Step, id: nat)
    requires Enabled(g, step) && !BySubmitter(step) && !step.Send? && id < |g.requests|
    ensures var after := Apply(g, step);
            && id < |after.requests|
            && after.requests[id].phase == g.requests[id].phase && after.requests[id].slot == g.requests[id].slot
  {
    hide GiveBack, ReplyTo, AtLoopHead;
  }

  lemma OthersKeepWaits(g: Gateway, step: Step, id: nat)
    requires Enabled(g, step) && !step.Send? && id < |g.requests| && Waits(g, id)
    requires (step.Enqueue? || step.HandOver?) ==> id != step.id
    ensures id < |Apply(g, step).requests| && Waits(Apply(g, step), id)
  {
    hide *;
    if id in g.enqueued {
      EnqueuedGrows(g, step, id);
    }
    SameDeliveries(g, step);
    if BySubmitter(step) {
      SubmitterLeavesSlot(g, step, id);
    } else {
      BatcherLeavesSlot(g, step, id);
    }
    SameWaits(g, Apply(g, step), id);
  }

  lemma StepKeepsWaits(g: Gateway, step: Step, id: nat)
    requires Inv(g) && Enabled(g, step) && id < |Apply(g, step).requests|
    requires id < |g.requests| ==> Waits(g, id)
    ensures Waits(Apply(g, step), id)
  {
    hide Inv, Apply, Enabled, Waits;
    RequestsStay(g, step);
    if id == |g.requests| {
      NewcomerWaits(g);
    } else if step.Send? {
      SendWaits(g, id);
    } else if (step.Enqueue? || step.HandOver?) && step.id == id {
      PushedWaits(g, step, id);
    } else {
      OthersKeepWaits(g, step, id);
    }
  }

  lemma NewcomerWaits(g: Gateway)
    ensures |Apply(g, GenerateID).requests| == |g.requests| + 1 && Waits(Apply(g, GenerateID), |g.requests|)
  {
  }

  /** A flush that replies has someone to reply to, the queue is within its bound, and waiting requests
      are accounted for. */
  ghost predicate Live(g: Gateway) {
    && (g.flush.Replying? ==> g.flush.todo != [])
    && |g.queue| <= g.capacity
    && forall id: nat | id < |g.requests| :: Waits(g, id)
  }

  lemma StepKeepsReplies(g: Gateway, step: Step)
    requires Enabled(g, step) && (g.flush.Replying? ==> g.flush.todo != [])
    ensures var after := Apply(g, step); after.flush.Replying? ==> after.flush.todo != []
  {
    hide Acquire, GiveBack, Lookup, ReplyTo;
  }

  lemma StepKeepsBound(g: Gateway, step: Step)
    requires Enabled(g, step) && |g.queue| <= g.capacity
    ensures |Apply(g, step).queue| <= Apply(g, step).capacity
  {
    hide Acquire, GiveBack, Lookup, ReplyTo;
  }

  lemma {:induction false} AlwaysLive(policy: Policy, capacity: nat, maxBatch: int, steps: seq<Step>)
    requires maxBatch > 0
    ensures Live(After(Init(policy, capacity, maxBatch), steps))
  {
    if steps != [] {
      hide Inv, Apply, Enabled, Waits;
      var before, step := After(Init(policy, capacity, maxBatch), steps[..|steps| - 1]), steps[|steps| - 1];
      AlwaysInv(policy, capacity, maxBatch, steps[..|steps| - 1]);
      AlwaysLive(policy, capacity, maxBatch, steps[..|steps| - 1]);
      if Enabled(before, step) {
        StepKeepsReplies(before, step);
        StepKeepsBound(before, step);
        forall id: nat | id < |Apply(before, step).requests|
          ensures Waits(Apply(before, step), id)
        {
          StepKeepsWaits(before, step, id);
        }
      }
    }
  }

  // --------------------------------------------------------- nobody strands

  /** Steps that only happen because a client asks or gives up. */
  predicate Voluntary(step: Step) {
    step.GenerateID? || step.CancelBeforeQueue? || step.GiveUp?
  }

  /** The step a busy batcher can take next. */
  function NextForBatcher(g: Gateway): Step {
    if g.hand.Holding? then Send
    else match g.flush
      case Sorting(todo, _) => if todo == [] then Decide(CircuitOpen) else Sort(false)
      case Replying(_, _) => Reply
      case Idle => if g.queue != [] then Receive(false) else TimerFires
  }

  predicate Busy(g: Gateway) {
    !AtLoopHead(g) || g.queue != [] || g.batch != []
  }

  lemma PendingIsKnown(g: Gateway)
    requires Inv(g)
    ensures g.hand.Holding? ==> g.hand.response.id < |g.requests|
    ensures !g.hand.Holding? && !g.flush.Idle? && g.flush.todo != [] ==> g.flush.todo[0] < |g.requests|
  {
    if g.hand.Holding? {
      assert g.hand.response.id in Unsent(g);
      UnsentIsUndelivered(g, g.hand.response.id);
    } else if !g.flush.Idle? && g.flush.todo != [] {
      assert g.flush.todo[0] in Unsent(g);
      UnsentIsUndelivered(g, g.flush.todo[0]);
    }
  }

  lemma BusyBatcherMoves(g: Gateway)
    requires Inv(g) && (g.flush.Replying? ==> g.flush.todo != []) && Busy(g)
    ensures Enabled(g, NextForBatcher(g)) && !Voluntary(NextForBatcher(g))
  {
    hide Bag;
    PendingIsKnown(g);
    hide Metered, Delivered, Flat, Ids, Answers, Unsent, Distinct;
  }

  /** At the loop head with nothing queued or batched, everything enqueued has been delivered. */
  lemma IdleMeansDelivered(g: Gateway)
    requires Inv(g) && !Busy(g)
    ensures Bag(Ids(g.deliveries)) == Bag(g.enqueued)
  {
    assert Unsent(g) == [];
    assert Flat(g.flushes) + [] + [] == Flat(g.flushes);
  }

  /** The step that brings a request closer to its return. */
  function NextFor(g: Gateway, id: nat): Step
    requires id < |g.requests|
  {
    match g.requests[id].phase
    case Named => TryAcquire(id, 1)
    case Leased => if |g.queue| < g.capacity then Enqueue(id) else FindQueueFull(id)
    case _ => if Busy(g) then NextForBatcher(g) else TakeResponse(id)
  }

  lemma WaitingIsAnswered(g: Gateway, id: nat)
    requires Inv(g) && Live(g) && !Busy(g) && InPhase(g, id, Waiting)
    ensures g.requests[id].slot.Full?
  {
    hide Inv, Ids, Busy;
    IdleMeansDelivered(g);
    assert Waits(g, id);
    assert id in Bag(g.enqueued);
    assert id in Bag(Ids(g.deliveries));
  }

  /** While a request has not returned, some step other than a cancellation can happen. */
  lemma RequestMoves(g: Gateway, id: nat)
    requires Inv(g) && Live(g) && id < |g.requests| && !g.requests[id].phase.Returned?
    ensures Enabled(g, NextFor(g, id)) && !Voluntary(NextFor(g, id))
  {
    hide Inv, Live, Waits, NextForBatcher, Busy;
    if g.requests[id].phase == Waiting {
      if Busy(g) {
        hide Enabled;
        LiveReplies(g);
        BusyBatcherMoves(g);
      } else {
        WaitingIsAnswered(g, id);
      }
    }
  }

  lemma LiveReplies(g: Gateway)
    requires Live(g)
    ensures g.flush.Replying? ==> g.flush.todo != []
  {
    hide Waits;
  }

  // ------------------------------------------------------------ work runs out

  /** Steps a request can still cause by itself. */
  function Ahead(q: Request): (r: int)
    ensures 0 <= r <= 12
  {
    match q.phase
    case Named => 12
    case Leased => 11
    case Waiting => 1
    case Returned(_) => 0
  }

  function InFlush(g: Gateway): int {
    (match g.flush
     case Idle => 0
     case Sorting(todo, active) => 6 * |todo| + 3 * |active| + 1
     case Replying(todo, _) => 3 * |todo|)
    + (if g.hand.Holding? then 1 else 0)
  }

  /** A bound on the steps that can still happen when no new request arrives. */
  function Work(g: Gateway): int {
    Sum(g.requests, Ahead) + 9 * |g.queue| + 8 * |g.batch| + InFlush(g)
  }

  lemma AheadMoves(a: Gateway, b: Gateway, id: nat)
    requires id < |a.requests| && |b.requests| == |a.requests|
    requires b.requests == a.requests[id := b.requests[id]]
    ensures Sum(b.requests, Ahead) - Sum(a.requests, Ahead) == Ahead(b.requests[id]) - Ahead(a.requests[id])
  {
    SumUpdate(a.requests, id, b.requests[id], Ahead);
  }

  /** A step that moves one request on and adds at most nine units of queueing uses up work. */
  lemma AheadFalls(a: Gateway, b: Gateway, id: nat)
    requires id < |a.requests| && |b.requests| == |a.requests|
    requires b.requests == a.requests[id := b.requests[id]]
    requires Ahead(b.requests[id]) + 9 * |b.queue| + 8 * |b.batch| + InFlush(b)
           < Ahead(a.requests[id]) + 9 * |a.queue| + 8 * |a.batch| + InFlush(a)
    ensures Work(b) < Work(a)
  {
    hide Sum, InFlush, Ahead;
    AheadMoves(a, b, id);
  }

  lemma SubmitterWorks(g: Gateway, step: Step)
    requires Enabled(g, step) && BySubmitter(step) && !step.HandOver?
    ensures Work(Apply(g, step)) < Work(g)
  {
    hide Work, Sum, GiveBack, Acquire;
    AheadFalls(g, Apply(g, step), Touches(g, step));
  }

  lemma PullWorks(g: Gateway, policyFlushes: bool)
    requires AtLoopHead(g) && g.queue != []
    ensures Work(Pull(g, policyFlushes)) < Work(g)
  {
    hide Sum;
  }

  lemma PushWorks(g: Gateway, id: nat)
    requires InPhase(g, id, Leased)
    ensures Work(Push(g, id)) < Work(g)
  {
    hide Sum;
    AheadMoves(g, Push(g, id), id);
  }

  lemma BatcherWorks(g: Gateway, step: Step)
    requires Enabled(g, step) && (step.Sort? || step.Reply? || step.Send?)
    ensures Work(Apply(g, step)) < Work(g)
  {
    hide Work, Sum, GiveBack, ReplyTo, Acquire, Admit, AtLoopHead;
    AheadFalls(g, Apply(g, step), Touches(g, step));
  }

  lemma BoundaryWorks(g: Gateway, step: Step)
    requires Ordered(g) && Enabled(g, step) && (step.TimerFires? || step.Decide?)
    ensures Work(Apply(g, step)) < Work(g)
  {
    hide Sum, Flat, Distinct;
  }

  /** Every step but a new arrival uses up work. */
  lemma StepWorks(g: Gateway, step: Step)
    requires Ordered(g) && Enabled(g, step)
    ensures Work(Apply(g, step)) <= if step.GenerateID? then Work(g) + 12 else Work(g) - 1
  {
    hide Work, Sum, Ordered;
    match step
    case GenerateID => ArrivalWorks(g);
    case Receive(policyFlushes) => PullWorks(g, policyFlushes);
    case HandOver(id, policyFlushes) =>
      PushWorks(g, id);
      PullWorks(Push(g, id), policyFlushes);
    case TimerFires => BoundaryWorks(g, step);
    case Decide(_) => BoundaryWorks(g, step);
    case Sort(_) => BatcherWorks(g, step);
    case Reply => BatcherWorks(g, step);
    case Send => BatcherWorks(g, step);
    case _ => SubmitterWorks(g, step);
  }

  lemma ArrivalWorks(g: Gateway)
    ensures Work(Apply(g, GenerateID)) == Work(g) + 12
  {
    SumSnoc(g.requests, Request(0, false, Named, Empty), Ahead);
  }

  lemma WorkIsNatural(g: Gateway)
    ensures Work(g) >= 0
  {
    SumIsNatural(g.requests, Ahead);
  }

  /** How many of the steps happened. */
  function Happened(g: Gateway, steps: seq<Step>): nat {
    if steps == [] then 0
    else
      var before := After(g, steps[..|steps| - 1]);
      Happened(g, steps[..|steps| - 1]) + (if Enabled(before, steps[|steps| - 1]) then 1 else 0)
  }

  /** A run takes at most thirteen steps for every request that arrives. */
  lemma {:induction false} WorkRunsOut(policy: Policy, capacity: nat, maxBatch: int, steps: seq<Step>)
    requires maxBatch > 0
    ensures var start := Init(policy, capacity, maxBatch); var end := After(start, steps);
            Happened(start, steps) + Work(end) <= 13 * |end.requests|
  {
    var start := Init(policy, capacity, maxBatch);
    if steps != [] {
      hide Inv, Apply, Enabled, Work, Ordered;
      var before, step := After(start, steps[..|steps| - 1]), steps[|steps| - 1];
      WorkRunsOut(policy, capacity, maxBatch, steps[..|steps| - 1]);
      if Enabled(before, step) {
        AlwaysInv(policy, capacity, maxBatch, steps[..|steps| - 1]);
        OrderedFromInv(before);
        StepWorks(before, step);
        RequestsStay(before, step);
      }
    }
  }

  lemma OrderedFromInv(g: Gateway)
    requires Inv(g)
    ensures Ordered(g)
  {
    hide Ordered, Metered, Delivered, Answers;
  }

  // ---------------------------------------------------------------- theorems

  ghost predicate Reachable(g: Gateway) {
    exists policy, capacity, maxBatch, steps :: ReachedBy(g, policy, capacity, maxBatch, steps)
  }

  predicate ReachedBy(g: Gateway, policy: Policy, capacity: nat, maxBatch: int, steps: seq<Step>) {
    maxBatch > 0 && g == After(Init(policy, capacity, maxBatch), steps)
  }

  lemma ReachableInv(g: Gateway)
    requires Reachable(g)
    ensures Inv(g) && Live(g)
  {
    var policy, capacity, maxBatch, steps :| ReachedBy(g, policy, capacity, maxBatch, steps);
    AlwaysInv(policy, capacity, maxBatch, steps);
    AlwaysLive(policy, capacity, maxBatch, steps);
  }

  predicate AllReturned(g: Gateway) {
    forall q | q in g.requests :: q.phase.Returned?
  }

  lemma {:induction false} NothingHeld(requests: seq<Request>)
    requires forall q | q in requests :: q.released || q.tokens == 0
    ensures Sum(requests, Held) == 0
  {
    if requests != [] {
      NothingHeld(requests[..|requests| - 1]);
      assert requests[|requests| - 1] in requests;
    }
  }

  /** In-flight tokens are the unreleased leases, stay within a positive limit, are given back without
      clamping, and are all given back once every request has returned. */
  lemma MeteringTheorem(g: Gateway)
    requires Reachable(g)
    ensures g.counters.inFlightTokens == Sum(g.requests, Held)
    ensures g.policy.maxInFlightTokens > 0 ==> g.counters.inFlightTokens <= g.policy.maxInFlightTokens
    ensures forall id: nat | id < |g.requests| && !g.requests[id].released ::
              0 <= g.requests[id].tokens <= g.counters.inFlightTokens
    ensures AllReturned(g) ==> g.counters.inFlightTokens == 0
  {
    ReachableInv(g);
    assert Metered(g);
    forall id: nat | id < |g.requests| && !g.requests[id].released
      ensures g.requests[id].tokens <= g.counters.inFlightTokens
    {
      LeaseIsCovered(g, id);
    }
    if AllReturned(g) {
      forall q | q in g.requests ensures q.released || q.tokens == 0 {
        var id :| 0 <= id < |g.requests| && g.requests[id] == q;
        assert Answers(g, id);
      }
      NothingHeld(g.requests);
    }
  }

  /** Requests leave the bounded queue in the order they entered it, in flushes of at most `maxBatch`, and
      the timer runs exactly while a batch is being collected. */
  lemma FifoTheorem(g: Gateway)
    requires Reachable(g)
    ensures Flat(g.flushes) + g.batch + g.queue == g.enqueued && Distinct(g.enqueued)
    ensures forall k | 0 <= k < |g.flushes| :: 1 <= |g.flushes[k]| <= g.maxBatch
    ensures |g.batch| < g.maxBatch && |g.queue| <= g.capacity
    ensures g.timerActive <==> g.batch != []
    ensures !AtLoopHead(g) ==> g.batch == []
  {
    ReachableInv(g);
    hide Delivered, Metered, Answers, Flat;
    assert Ordered(g);
  }

  /** Each request is delivered at most once; at the loop head the delivered ones are exactly the
      flushed ones; the send never finds its slot taken; and every response carries its own id. */
  lemma DeliveryTheorem(g: Gateway)
    requires Reachable(g)
    ensures AtLoopHead(g) ==> Bag(Ids(g.deliveries)) == Bag(Flat(g.flushes))
    ensures forall id: nat :: Bag(Ids(g.deliveries))[id] <= 1
    ensures g.hand.Holding? ==> g.hand.response.id < |g.requests| && !g.requests[g.hand.response.id].slot.Full?
    ensures forall id: nat | id < |g.requests| && g.requests[id].phase.Returned? :: g.requests[id].phase.response.id == id
    ensures forall id: nat | id < |g.requests| && id in Ids(g.deliveries) :: g.requests[id].released
  {
    hide Inv, Enabled, Ids, Flat, Bag;
    ReachableInv(g);
    if g.hand.Holding? {
      SendFindsRoom(g);
    }
    DeliveredOnce(g);
    forall id: nat | id < |g.requests|
      ensures g.requests[id].phase.Returned? ==> g.requests[id].phase.response.id == id
      ensures id in Ids(g.deliveries) ==> g.requests[id].released
    {
      OwnAnswer(g, id);
    }
  }

  lemma SendFindsRoom(g: Gateway)
    requires Inv(g) && g.hand.Holding?
    ensures g.hand.response.id < |g.requests| && !g.requests[g.hand.response.id].slot.Full?
  {
    hide Inv;
    PendingIsKnown(g);
    SendKeepsDelivered(g);
  }

  lemma OwnAnswer(g: Gateway, id: nat)
    requires Inv(g) && id < |g.requests|
    ensures g.requests[id].phase.Returned? ==> g.requests[id].phase.response.id == id
    ensures id in Ids(g.deliveries) ==> g.requests[id].released
  {
    hide Metered, Ordered, Delivered, Ids;
    assert Answers(g, id);
  }

  lemma DeliveredOnce(g: Gateway)
    requires Inv(g)
    ensures forall id: nat :: Bag(Ids(g.deliveries))[id] <= 1
    ensures AtLoopHead(g) ==> Bag(Ids(g.deliveries)) == Bag(Flat(g.flushes))
  {
    hide Metered, Answers;
    DistinctCount(g.enqueued);
    assert Bag(g.enqueued) == Bag(Flat(g.flushes)) + Bag(g.batch) + Bag(g.queue);
    forall id: nat ensures Bag(Ids(g.deliveries))[id] <= 1 {
      assert Bag(g.enqueued)[id] <= 1;
      assert Bag(Flat(g.flushes))[id] == Bag(Ids(g.deliveries))[id] + Bag(Unsent(g))[id];
    }
  }

  /** Without new arrivals the gateway does only finitely much, and it never stops before every request
      has returned: a request that has not can always be moved on without cancelling it. */
  lemma ProgressTheorem(policy: Policy, capacity: nat, maxBatch: int, steps: seq<Step>)
    requires maxBatch > 0
    ensures var start := Init(policy, capacity, maxBatch); var end := After(start, steps);
            && Happened(start, steps) <= 13 * |end.requests|
            && forall id: nat | id < |end.requests| && !end.requests[id].phase.Returned? ::
                 Enabled(end, NextFor(end, id)) && !Voluntary(NextFor(end, id))
  {
    hide Inv, Live, Enabled, Work, NextFor;
    var end := After(Init(policy, capacity, maxBatch), steps);
    WorkRunsOut(policy, capacity, maxBatch, steps);
    WorkIsNatural(end);
    AlwaysInv(policy, capacity, maxBatch, steps);
    AlwaysLive(policy, capacity, maxBatch, steps);
    forall id: nat | id < |end.requests| && !end.requests[id].phase.Returned?
      ensures Enabled(end, NextFor(end, id)) && !Voluntary(NextFor(end, id))
    {
      RequestMoves(end, id);
    }
  }
}
