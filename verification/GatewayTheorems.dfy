/** What every interleaving of the gateway's steps keeps. */
module GatewayTheorems {
  import opened Admission
  import opened Gateway
  import opened Sums

  // -------------------------------------------------------------- metering

  /** An unreleased lease is covered by the in-flight count, so giving it back never clamps. */
  lemma LeaseIsCovered(g: Gateway, id: nat)
    requires Metered(g) && id < |g.requests| && !g.requests[id].released
    ensures g.requests[id].tokens <= g.counters.inFlightTokens
    ensures GiveBack(g.counters, g.requests[id].tokens).inFlightTokens == g.counters.inFlightTokens - g.requests[id].tokens
  {
    SumAtLeast(g.requests, Held, id);
  }

  lemma MeteredMoves(a: Gateway, b: Gateway, id: nat)
    requires Metered(a) && id < |a.requests| && |b.requests| == |a.requests| && b.policy == a.policy
    requires b.requests == a.requests[id := b.requests[id]] && b.requests[id].tokens >= 0
    requires b.counters.inFlightTokens - a.counters.inFlightTokens == Held(b.requests[id]) - Held(a.requests[id])
    requires b.policy.maxInFlightTokens > 0 ==> b.counters.inFlightTokens <= b.policy.maxInFlightTokens
    ensures Metered(b)
  {
    SumUpdate(a.requests, id, b.requests[id], Held);
  }

  lemma MeteredGrows(a: Gateway, b: Gateway, q: Request)
    requires Metered(a) && q.tokens == 0 && b == a.(requests := a.requests + [q])
    ensures Metered(b)
  {
    SumSnoc(a.requests, q, Held);
  }

  lemma AdmitKeepsMetered(g: Gateway, id: nat, tokens: int)
    requires Metered(g) && InPhase(g, id, Named) && tokens >= 1
    requires g.requests[id].tokens == 0 && !g.requests[id].released
    ensures Metered(Admit(g, id, tokens))
  {
    MeteredMoves(g, Admit(g, id, tokens), id);
  }

  lemma PhaseKeepsMetered(g: Gateway, id: nat, b: Gateway)
    requires Metered(g) && id < |g.requests| && |b.requests| == |g.requests|
    requires b.policy == g.policy && b.counters == g.counters && b.requests == g.requests[id := b.requests[id]]
    requires b.requests[id].tokens == g.requests[id].tokens && b.requests[id].released == g.requests[id].released
    ensures Metered(b)
  {
    MeteredMoves(g, b, id);
  }

  lemma MeteredSame(a: Gateway, b: Gateway)
    requires Metered(a) && b.requests == a.requests && b.policy == a.policy && b.counters == a.counters
    ensures Metered(b)
  {
  }

  lemma ReleaseKeepsMetered(g: Gateway, id: nat)
    requires Metered(g) && id < |g.requests|
    ensures Metered(ReleaseLease(g, id))
  {
    if !g.requests[id].released {
      LeaseIsCovered(g, id);
      MeteredMoves(g, ReleaseLease(g, id), id);
    }
  }

  lemma DeliverKeepsMetered(g: Gateway, flush: Flush, response: Response)
    requires Metered(g) && response.id < |g.requests|
    ensures Metered(Deliver(g.(flush := flush), response))
  {
    MeteredSame(g, g.(flush := flush));
    ReleaseKeepsMetered(g.(flush := flush), response.id);
    MeteredSame(ReleaseLease(g.(flush := flush), response.id), Deliver(g.(flush := flush), response));
  }

  lemma ReturnKeepsMetered(g: Gateway, id: nat, outcome: Outcome)
    requires Metered(g) && id < |g.requests|
    ensures Metered(Return(ReleaseLease(g, id), id, outcome))
  {
    ReleaseKeepsMetered(g, id);
    MeteredMoves(ReleaseLease(g, id), Return(ReleaseLease(g, id), id, outcome), id);
  }

  lemma StepKeepsMetered(g: Gateway, step: Step)
    requires Inv(g) && Enabled(g, step)
    ensures Metered(Apply(g, step))
  {
    hide Ordered, Delivered, Sum, Metered, Deliver, ReleaseLease;
    var after := Apply(g, step);
    match step
    case GenerateID =>
      var q := Request(0, false, Named, Empty);
      MeteredGrows(g, after, q);
    case TryAcquire(id, tokens) =>
      assert Answers(g, id);
      AdmitKeepsMetered(g, id, tokens);
    case CancelBeforeQueue(id) => ReturnKeepsMetered(g, id, Error(RequestCancelled));
    case Enqueue(id) => PhaseKeepsMetered(g, id, after);
    case FindQueueFull(id) => ReturnKeepsMetered(g, id, Error(QueueFull));
    case TakeResponse(id) => PhaseKeepsMetered(g, id, after);
    case GiveUp(id) => ReturnKeepsMetered(g, id, Error(RequestCancelled));
    case Receive(_) => MeteredSame(g, after);
    case HandOver(id, _) =>
      PhaseKeepsMetered(g, id, Push(g, id));
      MeteredSame(Push(g, id), after);
    case TimerFires => MeteredSame(g, after);
    case Sort(cancelled) =>
      if cancelled {
        DeliverKeepsMetered(g, Sorting(g.flush.todo[1..], g.flush.active), Response(g.flush.todo[0], Error(RequestCancelled)));
      } else {
        MeteredSame(g, after);
      }
    case Decide(_) => MeteredSame(g, after);
    case Reply =>
      var rest := g.flush.todo[1..];
      DeliverKeepsMetered(g, if rest == [] then Idle else Replying(rest, g.flush.verdict),
                          ReplyTo(g.flush.todo[0], g.flush.verdict));
    case Send =>
      PhaseKeepsMetered(g, g.hand.response.id, after);
  }

  // ----------------------------------------------------------------- order

  predicate Enqueued(q: Request) { q.phase == Waiting || q.phase.Returned? }

  /** Requests may change as long as those in the queue's history stay enqueued. */
  lemma OrderedSame(a: Gateway, b: Gateway)
    requires Ordered(a) && |b.requests| >= |a.requests|
    requires b == a.(requests := b.requests, counters := b.counters, deliveries := b.deliveries, flush := b.flush, hand := b.hand,
                rulings := b.rulings)
    requires AtLoopHead(a) ==> AtLoopHead(b)
    requires forall id: nat | id < |a.requests| :: Enqueued(a.requests[id]) ==> Enqueued(b.requests[id])
    ensures Ordered(b)
  {
  }

  lemma PushKeepsOrdered(g: Gateway, id: nat)
    requires Ordered(g) && InPhase(g, id, Leased)
    ensures Ordered(Push(g, id))
  {
    assert id !in g.enqueued;
    assert Flat(g.flushes) + g.batch + (g.queue + [id]) == g.enqueued + [id];
  }

  lemma StartFlushKeepsOrdered(g: Gateway, queue: seq<nat>, batch: seq<nat>)
    requires Ordered(g) && AtLoopHead(g)
    requires 1 <= |batch| <= g.maxBatch && batch + queue == g.batch + g.queue
    ensures Ordered(StartFlush(g.(queue := queue), batch))
  {
    var after := StartFlush(g.(queue := queue), batch);
    assert after.flushes[..|g.flushes|] == g.flushes;
    assert Flat(g.flushes) + batch + [] + queue == Flat(g.flushes) + (batch + queue);
    assert Flat(g.flushes) + g.batch + g.queue == Flat(g.flushes) + (g.batch + g.queue);
  }

  lemma PullKeepsOrdered(g: Gateway, policyFlushes: bool)
    requires Ordered(g) && AtLoopHead(g) && g.queue != []
    ensures Ordered(Pull(g, policyFlushes))
  {
    var batch := g.batch + [g.queue[0]];
    assert batch + g.queue[1..] == g.batch + g.queue;
    if policyFlushes || |batch| >= g.maxBatch {
      StartFlushKeepsOrdered(g, g.queue[1..], batch);
    } else {
      assert Flat(g.flushes) + batch + g.queue[1..] == Flat(g.flushes) + (batch + g.queue[1..]);
      assert Flat(g.flushes) + g.batch + g.queue == Flat(g.flushes) + (g.batch + g.queue);
    }
  }

  /** Steps that leave queue, batch and flushes alone. */
  predicate Quiet(step: Step) {
    !step.Enqueue? && !step.Receive? && !step.HandOver? && !step.TimerFires?
  }

  /** What a quiet step keeps. */
  ghost predicate Unmoved(a: Gateway, b: Gateway) {
    && |b.requests| >= |a.requests|
    && b == a.(requests := b.requests, counters := b.counters, deliveries := b.deliveries, flush := b.flush, hand := b.hand,
                rulings := b.rulings)
    && (AtLoopHead(a) ==> AtLoopHead(b))
    && (forall id: nat | id < |a.requests| :: Enqueued(a.requests[id]) ==> Enqueued(b.requests[id]))
  }

  lemma SubmitterIsQuiet(g: Gateway, step: Step)
    requires Enabled(g, step) && BySubmitter(step) && Quiet(step)
    ensures Unmoved(g, Apply(g, step))
  {
    hide Acquire, GiveBack;
  }

  lemma BatcherIsQuiet(g: Gateway, step: Step)
    requires Enabled(g, step) && !BySubmitter(step) && Quiet(step)
    ensures Unmoved(g, Apply(g, step))
  {
    hide GiveBack, ReplyTo;
  }

  lemma QuietKeepsOrdered(a: Gateway, b: Gateway)
    requires Ordered(a) && Unmoved(a, b)
    ensures Ordered(b)
  {
    hide Ordered;
    OrderedSame(a, b);
  }

  /** The steps that move the queue, spelled out. */
  lemma MovesAre(g: Gateway, step: Step)
    requires Enabled(g, step) && !Quiet(step)
    ensures step.Enqueue? ==> InPhase(g, step.id, Leased) && Apply(g, step) == Push(g, step.id)
    ensures step.Receive? ==> AtLoopHead(g) && g.queue != [] && Apply(g, step) == Pull(g, step.policyFlushes)
    ensures step.HandOver? ==>
              && InPhase(g, step.id, Leased)
              && AtLoopHead(Push(g, step.id)) && Push(g, step.id).queue != []
              && Apply(g, step) == Pull(Push(g, step.id), step.policyFlushes)
  {
    hide Pull;
  }

  lemma StepKeepsOrdered(g: Gateway, step: Step)
    requires Ordered(g) && Enabled(g, step)
    ensures Ordered(Apply(g, step))
  {
    hide *;
    if Quiet(step) {
      if BySubmitter(step) {
        SubmitterIsQuiet(g, step);
      } else {
        BatcherIsQuiet(g, step);
      }
      QuietKeepsOrdered(g, Apply(g, step));
    } else {
      MoveKeepsOrdered(g, step);
    }
  }

  lemma MoveKeepsOrdered(g: Gateway, step: Step)
    requires Ordered(g) && Enabled(g, step) && !Quiet(step)
    ensures Ordered(Apply(g, step))
  {
    hide Ordered, Enabled, Apply, Pull, Push, AtLoopHead;
    MovesAre(g, step);
    match step
    case Enqueue(id) => PushKeepsOrdered(g, id);
    case Receive(policyFlushes) => PullKeepsOrdered(g, policyFlushes);
    case HandOver(id, policyFlushes) =>
      PushKeepsOrdered(g, id);
      PullKeepsOrdered(Push(g, id), policyFlushes);
    case TimerFires => TimerKeepsOrdered(g);
  }

  lemma TimerKeepsOrdered(g: Gateway)
    requires Ordered(g) && Enabled(g, TimerFires)
    ensures Ordered(Apply(g, TimerFires))
  {
    StartFlushKeepsOrdered(g, g.queue, g.batch);
    assert g.(queue := g.queue) == g;
  }

  // -------------------------------------------------------------- delivery

  lemma {:induction false} DistinctCount(ids: seq<nat>)
    requires Distinct(ids)
    ensures forall x: nat :: Bag(ids)[x] <= 1
  {
    if ids != [] {
      var init, last := ids[..|ids| - 1], ids[|ids| - 1];
      DistinctCount(init);
      assert ids == init + [last];
      assert last !in init && Bag(init)[last] == 0;
      assert Bag(ids) == Bag(init) + Bag([last]);
    }
  }

  /** A flushed request that still waits for its response has not been sent one. */
  lemma UnsentIsUndelivered(g: Gateway, id: nat)
    requires Ordered(g) && Delivered(g) && id in Unsent(g)
    ensures id !in Ids(g.deliveries)
    ensures Bag(Unsent(g))[id] == 1
    ensures id < |g.requests| && Enqueued(g.requests[id])
  {
    var flat := Flat(g.flushes);
    DistinctCount(g.enqueued);
    assert Bag(g.enqueued) == Bag(flat) + Bag(g.batch) + Bag(g.queue);
    assert Bag(g.enqueued)[id] <= 1;
    assert Bag(flat)[id] <= 1;
    assert id in Bag(Unsent(g));
    assert id in Bag(flat);
    assert id in g.enqueued;
    assert Bag(Ids(g.deliveries))[id] == 0;
  }

  lemma DeliveredSame(a: Gateway, b: Gateway)
    requires Delivered(a) && b.deliveries == a.deliveries && b.flushes == a.flushes
    requires Bag(Unsent(b)) == Bag(Unsent(a))
    ensures Delivered(b)
  {
  }

  lemma StartFlushKeepsDelivered(g: Gateway, queue: seq<nat>, batch: seq<nat>)
    requires Delivered(g) && AtLoopHead(g)
    ensures Delivered(StartFlush(g.(queue := queue), batch))
  {
    var after := StartFlush(g.(queue := queue), batch);
    assert after.flushes[..|g.flushes|] == g.flushes;
    assert Flat(after.flushes) == Flat(g.flushes) + batch;
    assert Unsent(after) == batch;
  }

  lemma PullKeepsDelivered(g: Gateway, policyFlushes: bool)
    requires Delivered(g) && AtLoopHead(g) && g.queue != []
    ensures Delivered(Pull(g, policyFlushes))
  {
    StartFlushKeepsDelivered(g, g.queue[1..], g.batch + [g.queue[0]]);
  }

  lemma SendKeepsDelivered(g: Gateway)
    requires Inv(g) && Enabled(g, Send)
    ensures Delivered(Apply(g, Send))
    ensures !g.requests[g.hand.response.id].slot.Full?
  {
    hide Bag, Flat, Ids, Metered, Ordered, Acquire, Admit;
    var id := g.hand.response.id;
    UnsentIsUndelivered(g, id);
    assert Answers(g, id);
    SendMoves(g);
  }

  /** A send into a free slot moves one id from the unsent to the delivered. */
  lemma SendMoves(g: Gateway)
    requires Enabled(g, Send) && !g.requests[g.hand.response.id].slot.Full?
    ensures var after, id := Apply(g, Send), g.hand.response.id;
            && after.flushes == g.flushes
            && Bag(Ids(after.deliveries)) == Bag(Ids(g.deliveries)) + Bag([id])
            && Bag(Unsent(g)) == Bag(Unsent(after)) + Bag([id])
  {
    hide Flat, Acquire, Admit;
    var after, id := Apply(g, Send), g.hand.response.id;
    assert after.deliveries[..|g.deliveries|] == g.deliveries;
    assert Ids(after.deliveries) == Ids(g.deliveries) + [id];
    assert Unsent(g) == Unsent(after) + [id];
  }

  lemma TimerKeepsDelivered(g: Gateway)
    requires Delivered(g) && Enabled(g, TimerFires)
    ensures Delivered(Apply(g, TimerFires))
  {
    StartFlushKeepsDelivered(g, g.queue, g.batch);
    DeliveredSame(g, g.(timerActive := false));
    assert g.(queue := g.queue) == g;
  }

  lemma DecideKeepsDelivered(g: Gateway, verdict: Verdict)
    requires Delivered(g) && Enabled(g, Decide(verdict))
    ensures Delivered(Apply(g, Decide(verdict)))
  {
    hide Bag, Flat, Ids;
    assert Unsent(Apply(g, Decide(verdict))) == Unsent(g);
    DeliveredSame(g, Apply(g, Decide(verdict)));
  }

  lemma StepKeepsDelivered(g: Gateway, step: Step)
    requires Inv(g) && Enabled(g, step)
    ensures Delivered(Apply(g, step))
  {
    hide Metered, Delivered, Ordered, Bag, Unsent, Answers, Pull, SendResponse, Flat;
    var after := Apply(g, step);
    match step
    case Receive(policyFlushes) => PullKeepsDelivered(g, policyFlushes);
    case HandOver(id, policyFlushes) =>
      RequestsDoNotMatter(g, Push(g, id));
      DeliveredSame(g, Push(g, id));
      PullKeepsDelivered(Push(g, id), policyFlushes);
    case TimerFires => TimerKeepsDelivered(g);
    case Sort(cancelled) =>
      SortMoves(g, cancelled);
      DeliveredSame(g, after);
    case Reply =>
      ReplyMoves(g);
      DeliveredSame(g, after);
    case Send => SendKeepsDelivered(g);
    case Decide(verdict) => DecideKeepsDelivered(g, verdict);
    case _ =>
      RequestsDoNotMatter(g, after);
      DeliveredSame(g, after);
  }

  lemma RequestsDoNotMatter(a: Gateway, b: Gateway)
    requires b.flush == a.flush && b.hand == a.hand
    ensures Unsent(b) == Unsent(a)
  {
  }

  lemma Rotate(todo: seq<nat>, active: seq<nat>)
    requires todo != []
    ensures Bag(todo[1..] + active + [todo[0]]) == Bag(todo + active + [])
    ensures Bag(todo[1..] + (active + [todo[0]]) + []) == Bag(todo + active + [])
  {
    var id, rest := todo[0], todo[1..];
    assert todo == [id] + rest;
    assert Bag(todo) == Bag([id]) + Bag(rest);
    assert todo + active + [] == todo + active;
    assert rest + (active + [id]) + [] == rest + active + [id];
  }

  lemma SortMoves(g: Gateway, cancelled: bool)
    requires Enabled(g, Sort(cancelled))
    ensures Bag(Unsent(Apply(g, Sort(cancelled)))) == Bag(Unsent(g))
  {
    hide Bag;
    var todo, active := g.flush.todo, g.flush.active;
    Rotate(todo, active);
    assert Unsent(g) == todo + active + [];
    assert Unsent(Apply(g, Sort(cancelled)))
        == if cancelled then todo[1..] + active + [todo[0]] else todo[1..] + (active + [todo[0]]) + [];
  }

  lemma ReplyMoves(g: Gateway)
    requires Enabled(g, Reply)
    ensures Bag(Unsent(Apply(g, Reply))) == Bag(Unsent(g))
  {
    hide Bag, ReplyTo;
    var todo := g.flush.todo;
    Rotate(todo, []);
    assert Unsent(g) == todo + [] + [];
    assert Unsent(Apply(g, Reply)) == todo[1..] + [] + [todo[0]];
  }

  // ---------------------------------------------------------------- answers

  /** Item `k` is the worker's last word on `id`. */
  predicate LastWord(items: seq<Item>, k: int, id: nat) {
    0 <= k < |items| && items[k].id == id && forall j | k < j < |items| :: items[j].id != id
  }

  /** A request is answered with the worker's last text for it, and `MissingResponse` means that the
      worker said nothing about it. */
  lemma {:induction false} ReplyIsLastWord(items: seq<Item>, id: nat)
    ensures forall k | LastWord(items, k, id) :: ReplyTo(id, Answered(items)) == Response(id, Result(items[k].text))
    ensures ReplyTo(id, Answered(items)) == Response(id, Error(MissingResponse))
       <==> forall k | 0 <= k < |items| :: items[k].id != id
  {
    if items != [] {
      var last := |items| - 1;
      if items[last].id != id {
        ReplyIsLastWord(items[..last], id);
        forall k | LastWord(items, k, id) ensures LastWord(items[..last], k, id) {}
      }
    }
  }

  lemma UndeliveredWhenNotEnqueued(g: Gateway, id: nat)
    requires Inv(g) && id < |g.requests| && !Enqueued(g.requests[id])
    ensures id !in Ids(g.deliveries) && !(g.hand.Holding? && g.hand.response.id == id)
  {
    assert id !in g.enqueued;
    assert Bag(g.enqueued) == Bag(Flat(g.flushes)) + Bag(g.batch) + Bag(g.queue);
    assert Bag(Flat(g.flushes))[id] == 0;
    assert Bag(Ids(g.deliveries))[id] == 0 && Bag(Unsent(g))[id] == 0;
    assert id !in Ids(g.deliveries) && id !in Unsent(g);
  }

  /** Which request a step touches. */
  function Touches(g: Gateway, step: Step): nat
    requires Enabled(g, step)
  {
    match step
    case GenerateID => |g.requests|
    case TryAcquire(id, _) => id
    case CancelBeforeQueue(id) => id
    case Enqueue(id) => id
    case FindQueueFull(id) => id
    case TakeResponse(id) => id
    case GiveUp(id) => id
    case HandOver(id, _) => id
    case Sort(_) => g.flush.todo[0]
    case Reply => g.flush.todo[0]
    case Send => g.hand.response.id
    case _ => 0
  }

  lemma SameDeliveries(g: Gateway, step: Step)
    requires Enabled(g, step)
    ensures !step.Send? ==> Apply(g, step).deliveries == g.deliveries
    ensures step.Send? ==>
              var id := g.hand.response.id;
              Ids(Apply(g, step).deliveries) == Ids(g.deliveries) + (if g.requests[id].slot.Full? then [] else [id])
  {
    if step.Send? {
      var after := Apply(g, step);
      var id := g.hand.response.id;
      if !g.requests[id].slot.Full? {
        assert after.deliveries[..|g.deliveries|] == g.deliveries;
      }
    }
  }

  predicate BySubmitter(step: Step) {
    !step.Receive? && !step.TimerFires? && !step.Sort? && !step.Decide? && !step.Reply? && !step.Send? && !step.GenerateID?
  }

  lemma SubmitterAnswers(g: Gateway, step: Step, id: nat)
    requires Inv(g) && Enabled(g, step) && BySubmitter(step) && id == Touches(g, step) < |g.requests|
    ensures Answers(Apply(g, step), id)
  {
    hide Metered, Delivered, Ordered, Apply, Answers;
    if !Enqueued(g.requests[id]) {
      UndeliveredWhenNotEnqueued(g, id);
    }
    TouchedAnswers(g, step, id);
  }

  lemma TouchedAnswers(g: Gateway, step: Step, id: nat)
    requires Enabled(g, step) && BySubmitter(step) && id == Touches(g, step) < |g.requests| && Answers(g, id)
    requires Enqueued(g.requests[id]) || (id !in Ids(g.deliveries) && !(g.hand.Holding? && g.hand.response.id == id))
    ensures Answers(Apply(g, step), id)
  {
    hide Ids, GiveBack;
  }

  lemma BatcherAnswers(g: Gateway, step: Step, id: nat)
    requires Inv(g) && Enabled(g, step) && (step.Sort? || step.Reply?) && id == Touches(g, step) < |g.requests|
    ensures Answers(Apply(g, step), id)
  {
    hide AtLoopHead, Bag;
    assert Answers(g, id);
    assert id in Unsent(g);
    UnsentIsUndelivered(g, id);
    hide Metered, Delivered, Ordered, Flat, Unsent, Ids, GiveBack, Lookup, Acquire;
  }

  lemma SendAnswers(g: Gateway, id: nat)
    requires Inv(g) && Enabled(g, Send) && id == g.hand.response.id
    ensures Answers(Apply(g, Send), id)
  {
    assert Answers(g, id);
    SameDeliveries(g, Send);
    hide Metered, Delivered, Ordered, Bag, Flat, Unsent, Ids, GiveBack, Lookup, Acquire;
  }

  /** A step other than a send touches one request and delivers nothing; only sorting and replying put a
      response in hand. */
  ghost predicate LeavesAlone(g: Gateway, step: Step, after: Gateway, other: nat)
    requires Enabled(g, step) && other < |g.requests|
  {
    && other < |after.requests|
    && after.requests[other] == g.requests[other] && after.deliveries == g.deliveries
    && (|| after.hand == g.hand
        || (after.hand.Holding? && after.hand.response.id == Touches(g, step) && (step.Sort? || step.Reply?)))
  }

  lemma SubmitterLeavesAlone(g: Gateway, step: Step, other: nat)
    requires Enabled(g, step) && BySubmitter(step) && other < |g.requests| && other != Touches(g, step)
    ensures LeavesAlone(g, step, Apply(g, step), other)
  {
    hide GiveBack, Acquire, Lookup, AtLoopHead;
  }

  lemma BatcherLeavesAlone(g: Gateway, step: Step, other: nat)
    requires Enabled(g, step) && !BySubmitter(step) && !step.Send? && other < |g.requests|
    requires other != Touches(g, step) || step.Receive? || step.TimerFires? || step.Decide?
    ensures LeavesAlone(g, step, Apply(g, step), other)
  {
    hide GiveBack, Acquire, Lookup, AtLoopHead;
  }

  lemma SubmittersDoNotDeliver(g: Gateway, step: Step, other: nat)
    requires Enabled(g, step) && !step.Send? && other < |g.requests|
    requires other != Touches(g, step) || step.Receive? || step.TimerFires? || step.Decide?
    ensures other < |Apply(g, step).requests|
    ensures Apply(g, step).requests[other] == g.requests[other] && Apply(g, step).deliveries == g.deliveries
    ensures Apply(g, step).hand == g.hand
         || (Apply(g, step).hand.Holding? && Apply(g, step).hand.response.id == Touches(g, step) && (step.Sort? || step.Reply?))
  {
    hide Apply, Enabled, Touches;
    if BySubmitter(step) {
      SubmitterLeavesAlone(g, step, other);
    } else {
      BatcherLeavesAlone(g, step, other);
    }
  }

  lemma SendTouchesOne(g: Gateway, other: nat)
    requires Enabled(g, Send) && other < |g.requests| && other != g.hand.response.id && Answers(g, other)
    ensures Answers(Apply(g, Send), other)
  {
    SameDeliveries(g, Send);
    hide Ids;
  }

  lemma StepKeepsAnswers(g: Gateway, step: Step, id: nat)
    requires Inv(g) && Enabled(g, step) && id < |Apply(g, step).requests|
    ensures Answers(Apply(g, step), id)
  {
    hide Metered, Delivered, Ordered, Answers, Apply, Enabled;
    RequestsStay(g, step);
    if step.GenerateID? {
      NewcomerAnswers(g, id);
    } else {
      if step.Send? {
        if id == g.hand.response.id {
          SendAnswers(g, id);
        } else {
          SendTouchesOne(g, id);
        }
      } else if step.Receive? || step.TimerFires? || step.Decide? || id != Touches(g, step) {
        SubmittersDoNotDeliver(g, step, id);
        OthersKeepAnswersBy(g, step, id);
      } else if step.Sort? || step.Reply? {
        BatcherAnswers(g, step, id);
      } else {
        SubmitterAnswers(g, step, id);
      }
    }
  }

  lemma RequestsStay(g: Gateway, step: Step)
    requires Enabled(g, step)
    ensures |Apply(g, step).requests| == |g.requests| + if step.GenerateID? then 1 else 0
    ensures step.Send? ==> g.hand.Holding?
  {
    hide GiveBack, Acquire, Lookup;
  }

  lemma NewcomerAnswers(g: Gateway, id: nat)
    requires Inv(g) && id <= |g.requests|
    ensures id < |Apply(g, GenerateID).requests| && Answers(Apply(g, GenerateID), id)
  {
    if id == |g.requests| {
      UnknownIsUndelivered(g, id);
    } else {
      assert Answers(g, id);
    }
  }

  lemma UnknownIsUndelivered(g: Gateway, id: nat)
    requires Inv(g) && id >= |g.requests|
    ensures id !in Ids(g.deliveries) && !(g.hand.Holding? && g.hand.response.id == id)
  {
    assert id !in g.enqueued;
    assert Bag(g.enqueued) == Bag(Flat(g.flushes)) + Bag(g.batch) + Bag(g.queue);
    assert Bag(Flat(g.flushes))[id] == 0;
    assert Bag(Ids(g.deliveries))[id] == 0 && Bag(Unsent(g))[id] == 0;
    assert id !in Ids(g.deliveries) && id !in Unsent(g);
  }

  lemma OthersKeepAnswersBy(g: Gateway, step: Step, other: nat)
    requires Inv(g) && Enabled(g, step) && other < |g.requests| && other < |Apply(g, step).requests|
    requires Apply(g, step).requests[other] == g.requests[other] && Apply(g, step).deliveries == g.deliveries
    requires var h := Apply(g, step).hand; h == g.hand || (h.Holding? && h.response.id == Touches(g, step) && (step.Sort? || step.Reply?))
    requires other != Touches(g, step) || Apply(g, step).hand == g.hand
    ensures Answers(Apply(g, step), other)
  {
    hide Apply, Metered, Delivered, Ordered, Enabled;
    assert Answers(g, other);
  }

  // ---------------------------------------------------------- whole histories

  lemma StepKeepsInv(g: Gateway, step: Step)
    requires Inv(g) && Enabled(g, step)
    ensures Inv(Apply(g, step))
  {
    hide Metered, Delivered, Ordered, Answers, Apply, Enabled;
    StepKeepsMetered(g, step);
    StepKeepsOrdered(g, step);
    StepKeepsDelivered(g, step);
    forall id: nat | id < |Apply(g, step).requests|
      ensures Answers(Apply(g, step), id)
    {
      StepKeepsAnswers(g, step, id);
    }
  }

  lemma {:induction false} AlwaysInv(policy: Policy, capacity: nat, maxBatch: int, steps: seq<Step>)
    requires maxBatch > 0
    ensures Inv(After(Init(policy, capacity, maxBatch), steps))
  {
    if steps != [] {
      hide Inv, Apply, Enabled;
      AlwaysInv(policy, capacity, maxBatch, steps[..|steps| - 1]);
      var before := After(Init(policy, capacity, maxBatch), steps[..|steps| - 1]);
      if Enabled(before, steps[|steps| - 1]) {
        StepKeepsInv(before, steps[|steps| - 1]);
      }
    }
  }
}
