/** What a submitter gets back: its own error, or the one response delivered for it, which is what the worker
    call of its flush came to. */
module GatewayAnswers {
  import opened Admission
  import opened Gateway
  import opened GatewayTheorems
  import opened GatewayProgress

  /** The response is what the worker call says about its id. */
  ghost predicate Follows(r: Response, verdict: Verdict) {
    match verdict
    case CircuitOpen => r.outcome == Error(WorkerUnavailable)
    case CallFailed(reason) => r.outcome == Error(reason)
    case Answered(items) =>
      if forall k | 0 <= k < |items| :: items[k].id != r.id then r.outcome == Error(MissingResponse)
      else exists k: int :: LastWord(items, k, r.id) && r.outcome == Result(items[k].text)
  }

  /** The response says that its request was cancelled before the batch was sent, or what the worker call made
      for it came to. */
  ghost predicate Justified(rulings: seq<Ruling>, r: Response) {
    r.outcome == Error(RequestCancelled)
    || exists k: nat :: k < |rulings| && r.id in rulings[k].ids && Follows(r, rulings[k].verdict)
  }

  /** A submitter's own errors. */
  predicate OwnError(r: Response) {
    r.outcome in {Error(AdmissionRejected), Error(QueueFull), Error(RequestCancelled)}
  }

  /** `ids` are some of `all`, in the same order. */
  predicate SomeOf(ids: seq<nat>, all: seq<nat>) {
    ids == []
    || (all != [] && (SomeOf(ids, all[..|all| - 1])
                      || (ids[|ids| - 1] == all[|all| - 1] && SomeOf(ids[..|ids| - 1], all[..|all| - 1]))))
  }

  predicate Suffix(ids: seq<nat>, all: seq<nat>) {
    |ids| <= |all| && ids == all[|all| - |ids|..]
  }

  /** The flush under way goes through the last flush in order, keeping the requests that are still active, and
      replies to the last ruling's requests in order. */
  predicate FlushTraced(g: Gateway) {
    match g.flush
    case Idle => true
    case Sorting(todo, active) =>
      && g.flushes != []
      && var all := g.flushes[|g.flushes| - 1]; Suffix(todo, all) && SomeOf(active, all[..|all| - |todo|])
    case Replying(todo, verdict) =>
      && g.rulings != [] && g.rulings[|g.rulings| - 1].verdict == verdict
      && Suffix(todo, g.rulings[|g.rulings| - 1].ids)
  }

  /** Every ruling is about requests of one flush. */
  predicate RulingsTraced(g: Gateway) {
    forall k | 0 <= k < |g.rulings| :: g.rulings[k].flush < |g.flushes| && SomeOf(g.rulings[k].ids, g.flushes[g.rulings[k].flush])
  }

  ghost predicate ResponsesTraced(g: Gateway) {
    && (g.hand.Holding? ==> Justified(g.rulings, g.hand.response))
    && (forall r | r in g.deliveries :: Justified(g.rulings, r))
  }

  predicate RequestTraced(q: Request, deliveries: seq<Response>) {
    && (q.slot.Full? ==> q.slot.response in deliveries)
    && (q.phase.Returned? ==> q.phase.response in deliveries || OwnError(q.phase.response))
  }

  ghost predicate Traced(g: Gateway) {
    && FlushTraced(g) && RulingsTraced(g) && ResponsesTraced(g)
    && forall id: nat | id < |g.requests| :: RequestTraced(g.requests[id], g.deliveries)
  }

  // ------------------------------------------------------------------ steps

  lemma ReplyFollows(id: nat, verdict: Verdict)
    ensures Follows(ReplyTo(id, verdict), verdict) && ReplyTo(id, verdict).id == id
  {
    match verdict
    case Answered(items) =>
      ReplyIsLastWord(items, id);
      hide ReplyTo;
      if !(forall k | 0 <= k < |items| :: items[k].id != id) {
        var k := LastOf(items, id);
        assert LastWord(items, k, id);
      }
    case _ =>
  }

  lemma {:induction false} LastOf(items: seq<Item>, id: nat) returns (k: int)
    requires !(forall k | 0 <= k < |items| :: items[k].id != id)
    ensures LastWord(items, k, id)
  {
    k := |items| - 1;
    while items[k].id != id
      invariant 0 <= k < |items|
      invariant forall j | k < j < |items| :: items[j].id != id
      decreases k
    {
      k := k - 1;
    }
  }

  /** Steps that leave the batcher's bookkeeping of flushes alone. */
  predicate KeepsFlush(step: Step) {
    !step.Receive? && !step.HandOver? && !step.TimerFires? && !step.Sort? && !step.Decide? && !step.Reply?
  }

  lemma OthersKeepFlush(g: Gateway, step: Step)
    requires Enabled(g, step) && KeepsFlush(step)
    ensures var after := Apply(g, step); after.flush == g.flush && after.flushes == g.flushes && after.rulings == g.rulings
  {
    hide Acquire, GiveBack, AtLoopHead;
  }

  lemma StartStaysTraced(g: Gateway, batch: seq<nat>)
    requires RulingsTraced(g)
    ensures FlushTraced(StartFlush(g, batch)) && RulingsTraced(StartFlush(g, batch))
  {
  }

  lemma PullStaysTraced(g: Gateway, policyFlushes: bool)
    requires FlushTraced(g) && RulingsTraced(g) && AtLoopHead(g) && g.queue != []
    ensures FlushTraced(Pull(g, policyFlushes)) && RulingsTraced(Pull(g, policyFlushes))
  {
    hide StartFlush;
    StartStaysTraced(g.(queue := g.queue[1..]), g.batch + [g.queue[0]]);
  }

  lemma TimerStaysTraced(g: Gateway)
    requires FlushTraced(g) && RulingsTraced(g) && Enabled(g, TimerFires)
    ensures FlushTraced(Apply(g, TimerFires)) && RulingsTraced(Apply(g, TimerFires))
  {
    hide StartFlush;
    StartStaysTraced(g, g.batch);
  }

  lemma SomeOfGrows(ids: seq<nat>, all: seq<nat>, x: nat)
    requires SomeOf(ids, all)
    ensures SomeOf(ids, all + [x]) && SomeOf(ids + [x], all + [x])
  {
    assert (all + [x])[..|all|] == all && (ids + [x])[..|ids|] == ids;
  }

  lemma SortSplit(all: seq<nat>, todo: seq<nat>, active: seq<nat>)
    requires todo != [] && Suffix(todo, all) && SomeOf(active, all[..|all| - |todo|])
    ensures Suffix(todo[1..], all)
    ensures SomeOf(active, all[..|all| - |todo[1..]|]) && SomeOf(active + [todo[0]], all[..|all| - |todo[1..]|])
  {
    hide SomeOf;
    var n := |all| - |todo|;
    assert todo[0] == all[n] && todo[1..] == all[n + 1..];
    assert all[..n + 1] == all[..n] + [todo[0]];
    SomeOfGrows(active, all[..n], todo[0]);
  }

  lemma SortStaysTraced(g: Gateway, cancelled: bool)
    requires FlushTraced(g) && RulingsTraced(g) && Enabled(g, Sort(cancelled))
    ensures FlushTraced(Apply(g, Sort(cancelled))) && RulingsTraced(Apply(g, Sort(cancelled)))
  {
    hide GiveBack, SomeOf, Suffix;
    SortSplit(g.flushes[|g.flushes| - 1], g.flush.todo, g.flush.active);
  }

  lemma DecideStaysTraced(g: Gateway, verdict: Verdict)
    requires FlushTraced(g) && RulingsTraced(g) && Enabled(g, Decide(verdict))
    ensures FlushTraced(Apply(g, Decide(verdict))) && RulingsTraced(Apply(g, Decide(verdict)))
  {
    hide SomeOf;
    var all := g.flushes[|g.flushes| - 1];
    assert all[..|all| - 0] == all;
  }

  lemma ReplyStaysTraced(g: Gateway)
    requires FlushTraced(g) && RulingsTraced(g) && Enabled(g, Reply)
    ensures FlushTraced(Apply(g, Reply)) && RulingsTraced(Apply(g, Reply))
  {
    hide GiveBack, ReplyTo;
  }

  lemma SameFlushTraced(a: Gateway, b: Gateway)
    requires FlushTraced(a) && RulingsTraced(a)
    requires b.flush == a.flush && b.flushes == a.flushes && b.rulings == a.rulings
    ensures FlushTraced(b) && RulingsTraced(b)
  {
  }

  lemma FlushStaysTraced(g: Gateway, step: Step)
    requires Enabled(g, step) && FlushTraced(g) && RulingsTraced(g)
    ensures FlushTraced(Apply(g, step)) && RulingsTraced(Apply(g, step))
  {
    hide Enabled, Apply, FlushTraced, RulingsTraced, Pull, Push, AtLoopHead, InPhase;
    match step
    case Receive(policyFlushes) =>
      MovesAre(g, step);
      PullStaysTraced(g, policyFlushes);
    case HandOver(id, policyFlushes) =>
      MovesAre(g, step);
      HandedOver(g, id, policyFlushes);
    case TimerFires => TimerStaysTraced(g);
    case Sort(cancelled) => SortStaysTraced(g, cancelled);
    case Decide(verdict) => DecideStaysTraced(g, verdict);
    case Reply => ReplyStaysTraced(g);
    case _ =>
      OthersKeepFlush(g, step);
      SameFlushTraced(g, Apply(g, step));
  }

  lemma HandedOver(g: Gateway, id: nat, policyFlushes: bool)
    requires FlushTraced(g) && RulingsTraced(g) && InPhase(g, id, Leased)
    requires AtLoopHead(Push(g, id)) && Push(g, id).queue != []
    ensures FlushTraced(Pull(Push(g, id), policyFlushes)) && RulingsTraced(Pull(Push(g, id), policyFlushes))
  {
    hide Pull, FlushTraced, RulingsTraced;
    SameFlushTraced(g, Push(g, id));
    PullStaysTraced(Push(g, id), policyFlushes);
  }

  /** A response comes to hand in two ways: a request found cancelled, or a reply by the ruling. */
  lemma HandTheorem(g: Gateway, step: Step)
    requires Enabled(g, step) && Apply(g, step).hand != g.hand && !step.Send?
    ensures Apply(g, step).hand.Holding? && (step.Sort? || step.Reply?)
    ensures Apply(g, step).hand.response.id == g.flush.todo[0]
    ensures step.Sort? ==> step.cancelled && Apply(g, step).hand.response.outcome == Error(RequestCancelled)
    ensures step.Reply? ==> Follows(Apply(g, step).hand.response, g.flush.verdict)
  {
    hide Acquire, GiveBack, ReplyTo, Follows;
    if step.Reply? {
      ReplyFollows(g.flush.todo[0], g.flush.verdict);
    }
  }

  lemma RulingsGrow(g: Gateway, step: Step)
    requires Enabled(g, step)
    ensures g.rulings <= Apply(g, step).rulings
    ensures step.Reply? ==> Apply(g, step).rulings == g.rulings
  {
    hide Acquire, GiveBack, ReplyTo, AtLoopHead;
  }

  lemma JustifiedStays(a: seq<Ruling>, b: seq<Ruling>, r: Response)
    requires a <= b && Justified(a, r)
    ensures Justified(b, r)
  {
    hide Follows;
    if r.outcome != Error(RequestCancelled) {
      var k: nat :| k < |a| && r.id in a[k].ids && Follows(r, a[k].verdict);
      assert b[k] == a[k];
    }
  }

  /** Only a send delivers, and what it delivers was in hand. */
  lemma DeliveriesGrow(g: Gateway, step: Step)
    requires Enabled(g, step)
    ensures g.deliveries <= Apply(g, step).deliveries
    ensures step.Send? ==> g.hand.Holding? && Apply(g, step).hand == Free
    ensures forall r | r in Apply(g, step).deliveries :: r in g.deliveries || (step.Send? && r == g.hand.response)
  {
    hide Acquire, GiveBack, ReplyTo, AtLoopHead;
  }

  lemma ResponsesStayTraced(g: Gateway, step: Step)
    requires Enabled(g, step) && FlushTraced(g) && ResponsesTraced(g)
    ensures ResponsesTraced(Apply(g, step))
  {
    hide Enabled, Apply, Follows, Justified;
    var after := Apply(g, step);
    RulingsGrow(g, step);
    DeliveriesGrow(g, step);
    forall r | r in after.deliveries
      ensures Justified(after.rulings, r)
    {
      if r in g.deliveries {
        JustifiedStays(g.rulings, after.rulings, r);
      } else {
        JustifiedStays(g.rulings, after.rulings, g.hand.response);
      }
    }
    if after.hand.Holding? {
      if after.hand == g.hand {
        JustifiedStays(g.rulings, after.rulings, g.hand.response);
      } else {
        NewResponseIsJustified(g, step);
      }
    }
  }

  lemma NewResponseIsJustified(g: Gateway, step: Step)
    requires Enabled(g, step) && FlushTraced(g) && Apply(g, step).hand != g.hand && !step.Send?
    ensures Apply(g, step).hand.Holding? && Justified(Apply(g, step).rulings, Apply(g, step).hand.response)
  {
    hide Apply, Follows;
    HandTheorem(g, step);
    RulingsGrow(g, step);
    if step.Reply? {
      var k := |g.rulings| - 1;
      assert g.flush.todo[0] in g.rulings[k].ids;
    }
  }

  /** How a step moves one request: it leaves slot and answer alone, takes the slot's response, fills the slot
      with the response in hand, or ends with the submitter's own error. */
  lemma RequestStaysTraced(g: Gateway, step: Step, id: nat)
    requires Enabled(g, step) && id < |Apply(g, step).requests|
    requires id < |g.requests| ==> RequestTraced(g.requests[id], g.deliveries)
    ensures RequestTraced(Apply(g, step).requests[id], Apply(g, step).deliveries)
  {
    DeliveriesGrow(g, step);
    if step.Send? {
      SendStaysTraced(g, id);
    } else if BySubmitter(step) {
      SubmitterStaysTraced(g, step, id);
    } else {
      BatcherStaysTraced(g, step, id);
    }
    hide *;
  }

  lemma SendStaysTraced(g: Gateway, id: nat)
    requires Enabled(g, Send) && id < |Apply(g, Send).requests|
    requires id < |g.requests| ==> RequestTraced(g.requests[id], g.deliveries)
    ensures RequestTraced(Apply(g, Send).requests[id], Apply(g, Send).deliveries)
  {
    hide Acquire, GiveBack, ReplyTo;
    DeliveriesGrow(g, Send);
    if !g.requests[g.hand.response.id].slot.Full? {
      assert Apply(g, Send).deliveries[|g.deliveries|] == g.hand.response;
    }
  }

  lemma SubmitterStaysTraced(g: Gateway, step: Step, id: nat)
    requires Enabled(g, step) && BySubmitter(step) && id < |Apply(g, step).requests|
    requires id < |g.requests| ==> RequestTraced(g.requests[id], g.deliveries)
    ensures RequestTraced(Apply(g, step).requests[id], Apply(g, step).deliveries)
  {
    hide Acquire, GiveBack, AtLoopHead;
  }

  lemma BatcherStaysTraced(g: Gateway, step: Step, id: nat)
    requires Enabled(g, step) && !BySubmitter(step) && !step.Send? && id < |Apply(g, step).requests|
    requires id < |g.requests| ==> RequestTraced(g.requests[id], g.deliveries)
    ensures RequestTraced(Apply(g, step).requests[id], Apply(g, step).deliveries)
  {
    hide GiveBack, ReplyTo, AtLoopHead;
  }

  lemma StepKeepsTraced(g: Gateway, step: Step)
    requires Traced(g) && Enabled(g, step)
    ensures Traced(Apply(g, step))
  {
    hide Enabled, Apply, FlushTraced, RulingsTraced, ResponsesTraced, RequestTraced;
    FlushStaysTraced(g, step);
    ResponsesStayTraced(g, step);
    forall id: nat | id < |Apply(g, step).requests|
      ensures RequestTraced(Apply(g, step).requests[id], Apply(g, step).deliveries)
    {
      RequestStaysTraced(g, step, id);
    }
  }

  lemma {:induction false} AlwaysTraced(policy: Policy, capacity: nat, maxBatch: int, steps: seq<Step>)
    ensures Traced(After(Init(policy, capacity, maxBatch), steps))
  {
    if steps != [] {
      hide Traced, Apply, Enabled;
      var before, step := After(Init(policy, capacity, maxBatch), steps[..|steps| - 1]), steps[|steps| - 1];
      AlwaysTraced(policy, capacity, maxBatch, steps[..|steps| - 1]);
      if Enabled(before, step) {
        StepKeepsTraced(before, step);
      }
    }
  }

  // --------------------------------------------------------------- theorems

  /** A submitter returns the response delivered for it or one of its own errors; what is delivered is a
      cancellation or what the worker call of the request's flush says about it; and a worker call is about some
      requests of one flush, in order. */
  lemma AnswerTheorem(g: Gateway)
    requires Reachable(g)
    ensures forall id: nat | id < |g.requests| && g.requests[id].phase.Returned? ::
              g.requests[id].phase.response in g.deliveries || OwnError(g.requests[id].phase.response)
    ensures forall id: nat | id < |g.requests| && g.requests[id].slot.Full? :: g.requests[id].slot.response in g.deliveries
    ensures forall r | r in g.deliveries ::
              || r.outcome == Error(RequestCancelled)
              || exists k: nat :: k < |g.rulings| && r.id in g.rulings[k].ids && Follows(r, g.rulings[k].verdict)
    ensures forall k | 0 <= k < |g.rulings| ::
              g.rulings[k].flush < |g.flushes| && SomeOf(g.rulings[k].ids, g.flushes[g.rulings[k].flush])
  {
    hide Follows, Apply, Enabled, After;
    var policy, capacity, maxBatch, steps :| ReachedBy(g, policy, capacity, maxBatch, steps);
    AlwaysTraced(policy, capacity, maxBatch, steps);
    forall id: nat | id < |g.requests| ensures RequestTraced(g.requests[id], g.deliveries) {}
    forall r | r in g.deliveries ensures Justified(g.rulings, r) {}
  }

  /** Why a submitter returns: it took the response waiting for it, its tokens did not fit under a positive limit,
      the queue was full, or its context was cancelled.  A request whose tokens fit gets its lease. */
  lemma ReturnTheorem(g: Gateway, step: Step, id: nat)
    requires Enabled(g, step) && BySubmitter(step) && id == Touches(g, step) < |g.requests|
    ensures id < |Apply(g, step).requests|
    ensures var before, after := g.requests[id], Apply(g, step).requests[id];
            match step
            case TryAcquire(_, tokens) =>
              if g.policy.enabled && g.policy.maxInFlightTokens > 0
                 && g.counters.inFlightTokens + tokens > g.policy.maxInFlightTokens
              then after.phase == Returned(Response(id, Error(AdmissionRejected)))
              else after.phase == Leased && after.tokens == if g.policy.enabled then tokens else 0
            case TakeResponse(_) => before.slot.Full? && after.phase == Returned(before.slot.response)
            case FindQueueFull(_) => |g.queue| >= g.capacity && after.phase == Returned(Response(id, Error(QueueFull)))
            case CancelBeforeQueue(_) => before.phase == Leased && after.phase == Returned(Response(id, Error(RequestCancelled)))
            case GiveUp(_) => before.phase == Waiting && after.phase == Returned(Response(id, Error(RequestCancelled)))
            case _ => before.phase == Leased && after.phase == Waiting
  {
    hide GiveBack, AtLoopHead;
  }
}
