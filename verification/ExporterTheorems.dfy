/** What every interleaving of the exporter's steps keeps. */
module ExporterTheorems {
  import opened Exporter

  lemma HeadBag(spans: seq<TraceSpan>)
    requires spans != []
    ensures Bag(spans) == Bag(spans[1..]) + multiset{spans[0]}
  {
    assert spans == [spans[0]] + spans[1..];
  }

  lemma LastBag(spans: seq<TraceSpan>, span: TraceSpan)
    ensures Bag(spans + [span]) == Bag(spans) + multiset{span}
    ensures Bag([span]) == multiset{span} && Bag([]) == multiset{}
  {
  }

  /** The parts of the state that hold spans on their way. */
  predicate SameTraffic(a: Exporter, b: Exporter) {
    && b.queue == a.queue && InRunner(b) == InRunner(a) && InFlush(b) == InFlush(a) && b.refused == a.refused
    && b.history.offered == a.history.offered && b.history.accepted == a.history.accepted
    && b.history.dropped == a.history.dropped && b.history.added == a.history.added
  }

  lemma ConservedSame(a: Exporter, b: Exporter)
    requires Conserved(a) && SameTraffic(a, b)
    ensures Conserved(b)
  {
    hide Bag;
  }

  lemma OfferKeepsConserved(e: Exporter, span: TraceSpan)
    requires Conserved(e)
    ensures Conserved(Offered(e, span))
  {
    hide Bag;
    LastBag(e.history.offered, span);
    LastBag(e.history.accepted, span);
    LastBag(e.queue, span);
    assert InRunner(Offered(e, span)) == InRunner(e) && InFlush(Offered(e, span)) == InFlush(e);
  }

  lemma CountKeepsConserved(e: Exporter, span: TraceSpan)
    requires Conserved(e) && span in e.refused
    ensures Conserved(Counted(e, span))
  {
    hide Bag;
    LastBag(e.history.dropped, span);
    assert InRunner(Counted(e, span)) == InRunner(e) && InFlush(Counted(e, span)) == InFlush(e);
  }

  lemma ReceiveKeepsConserved(e: Exporter, step: Step)
    requires Conserved(e) && Enabled(e, step) && (step.RunReceive? || step.FlushReceive?)
    ensures Conserved(Apply(e, step))
  {
    hide Bag;
    HeadBag(e.queue);
    LastBag([], e.queue[0]);
  }

  lemma AddKeepsConserved(e: Exporter, step: Step)
    requires Conserved(e) && Enabled(e, step) && (step.RunAdd? || step.FlushAdd?)
    ensures Conserved(Apply(e, step))
  {
    hide Bag;
    var span := if step.RunAdd? then e.runner.span else e.flush.stage.span;
    LastBag(e.history.added, span);
  }

  predicate Moves(step: Step) {
    step.Offer? || step.CountDrop? || step.RunReceive? || step.FlushReceive? || step.RunAdd? || step.FlushAdd?
  }

  lemma RunnerKeepsTraffic(e: Exporter, step: Step)
    requires Enabled(e, step) && !Moves(step) && !ByFlusher(step)
    ensures SameTraffic(e, Apply(e, step))
  {
    hide AddPending, Offered, Recorded;
  }

  /** Releasing `flushMu` moves the background loop between states that carry no span. */
  lemma UnlockKeepsTraffic(e: Exporter, f: Exporter, clean: bool)
    requires Prefix(e) && e.flush.Locked? && !e.flush.stage.Carrying? && f.flush == e.flush && f.runner == e.runner
    ensures InRunner(Unlock(f, clean)) == InRunner(e) && InFlush(Unlock(f, clean)) == InFlush(e)
  {
  }

  lemma RecordKeepsTraffic(e: Exporter)
    requires Prefix(e) && Enabled(e, Record)
    ensures SameTraffic(e, Apply(e, Record))
  {
    hide InRunner, InFlush;
    var batch, answer := e.flush.stage.batch, e.flush.stage.answer;
    var done := e.(history := e.history.(posts := e.history.posts + [Post(batch, answer)]));
    match answer
    case Accepted =>
      UnlockKeepsTraffic(e, done.(pending := e.pending[|batch|..], exportedSpans := e.exportedSpans + |batch|, lastError := ""), true);
    case Refused(message) =>
      UnlockKeepsTraffic(e, done.(failedExports := e.failedExports + 1, lastError := message), false);
  }

  lemma FlusherKeepsTraffic(e: Exporter, step: Step)
    requires Prefix(e) && Enabled(e, step) && !Moves(step) && ByFlusher(step)
    ensures SameTraffic(e, Apply(e, step))
  {
    hide AddPending, Offered, Recorded;
    if step.Record? {
      hide Prefix, SameTraffic, Apply, Enabled;
      RecordKeepsTraffic(e);
    } else if step.Snapshot? {
      UnlockKeepsTraffic(e, e, true);
    }
  }

  lemma OthersKeepTraffic(e: Exporter, step: Step)
    requires Prefix(e) && Enabled(e, step) && !Moves(step)
    ensures SameTraffic(e, Apply(e, step))
  {
    hide *;
    if ByFlusher(step) {
      FlusherKeepsTraffic(e, step);
    } else {
      RunnerKeepsTraffic(e, step);
    }
  }

  lemma StepKeepsConserved(e: Exporter, step: Step)
    requires Inv(e) && Enabled(e, step)
    ensures Conserved(Apply(e, step))
  {
    hide Conserved, Ledger, InOrder, Closing, Apply, Enabled, Prefix, SameTraffic;
    match step
    case Offer(span) => OfferIsApplied(e, span); OfferKeepsConserved(e, span);
    case CountDrop(span) => CountIsApplied(e, span); CountKeepsConserved(e, span);
    case RunReceive => ReceiveKeepsConserved(e, step);
    case FlushReceive => ReceiveKeepsConserved(e, step);
    case RunAdd => AddKeepsConserved(e, step);
    case FlushAdd => AddKeepsConserved(e, step);
    case _ =>
      OthersKeepTraffic(e, step);
      ConservedSame(e, Apply(e, step));
  }

  lemma OfferIsApplied(e: Exporter, span: TraceSpan)
    ensures Enabled(e, Offer(span)) && Apply(e, Offer(span)) == Offered(e, span)
  {
  }

  lemma CountIsApplied(e: Exporter, span: TraceSpan)
    requires Enabled(e, CountDrop(span))
    ensures span in e.refused && Apply(e, CountDrop(span)) == Counted(e, span)
  {
  }

  lemma RecordKeepsLedger(e: Exporter, batch: seq<TraceSpan>, answer: Answer)
    requires Ledger(e) && batch <= e.pending
    ensures Ledger(Recorded(e, batch, answer))
  {
    var posts := e.history.posts + [Post(batch, answer)];
    assert posts[..|e.history.posts|] == e.history.posts;
    assert e.pending == batch + e.pending[|batch|..];
  }

  lemma AddKeepsLedger(e: Exporter, span: TraceSpan)
    requires Ledger(e)
    ensures Ledger(AddPending(e, span))
  {
  }

  lemma LedgerSame(a: Exporter, b: Exporter)
    requires Ledger(a) && b.pending == a.pending && b.exportedSpans == a.exportedSpans && b.droppedSpans == a.droppedSpans
    requires b.failedExports == a.failedExports && b.lastError == a.lastError
    requires b.history.posts == a.history.posts && b.history.added == a.history.added && b.history.dropped == a.history.dropped
    ensures Ledger(b)
  {
  }

  lemma StepKeepsLedger(e: Exporter, step: Step)
    requires Inv(e) && Enabled(e, step)
    ensures Ledger(Apply(e, step))
  {
    hide Bag, Exported, Failures, InOrder, Closing, Conserved, Ledger;
    match step
    case CountDrop(span) => DropKeepsLedger(e, span);
    case RunAdd => AddKeepsLedger(e, e.runner.span); LedgerSame(AddPending(e, e.runner.span), Apply(e, step));
    case FlushAdd => AddKeepsLedger(e, e.flush.stage.span); LedgerSame(AddPending(e, e.flush.stage.span), Apply(e, step));
    case Record => RecordKeepsLedger(e, e.flush.stage.batch, e.flush.stage.answer);
    case _ => LedgerSame(e, Apply(e, step));
  }

  lemma DropKeepsLedger(e: Exporter, span: TraceSpan)
    requires Ledger(e)
    ensures Ledger(Counted(e, span))
  {
    hide Exported, Failures;
  }

  lemma StepKeepsPrefix(e: Exporter, step: Step)
    requires Inv(e) && Enabled(e, step)
    ensures Prefix(Apply(e, step))
  {
    hide Bag, Exported, Failures, InOrder, Closing, Conserved, Ledger;
  }

  /** The spans accepted so far, from the pending ones back to the end of the queue. */
  function Line(e: Exporter): seq<TraceSpan> {
    e.history.added + InRunner(e) + InFlush(e) + e.queue
  }

  lemma OfferKeepsLine(e: Exporter, span: TraceSpan)
    requires Line(e) == e.history.accepted
    ensures Line(Offered(e, span)) == Offered(e, span).history.accepted
  {
    var front := e.history.added + InRunner(e) + InFlush(e);
    assert front + (e.queue + [span]) == front + e.queue + [span];
  }

  lemma ReceiveKeepsLine(e: Exporter, step: Step)
    requires Enabled(e, step) && (step.RunReceive? || step.FlushReceive?) && InRunner(e) == [] && InFlush(e) == []
    ensures Line(Apply(e, step)) == Line(e)
  {
    var added, head, rest := e.history.added, e.queue[0], e.queue[1..];
    assert e.queue == [head] + rest;
    assert added + [] + [] + e.queue == added + e.queue;
    assert added + [head] + [] + rest == added + e.queue;
    assert added + [] + [head] + rest == added + e.queue;
  }

  lemma AddKeepsLine(e: Exporter, step: Step)
    requires Enabled(e, step) && (step.RunAdd? || step.FlushAdd?)
    requires if step.RunAdd? then InFlush(e) == [] else InRunner(e) == []
    ensures Line(Apply(e, step)) == Line(e)
  {
    var added := e.history.added;
    var span := if step.RunAdd? then e.runner.span else e.flush.stage.span;
    assert added + [span] + [] + [] + e.queue == added + [span] + e.queue;
    assert added + [span] + [] + e.queue == added + [span] + e.queue;
    assert added + [] + [span] + e.queue == added + [span] + e.queue;
  }

  lemma StepKeepsOrder(e: Exporter, step: Step)
    requires Inv(e) && Enabled(e, step)
    ensures InOrder(Apply(e, step))
  {
    hide Conserved, Ledger, Closing, Line, InRunner, InFlush;
    if !Apply(e, step).history.called {
      OwnedByRunner(e, step);
      LineIsAccepted(e, step);
    }
  }

  lemma OwnedByRunner(e: Exporter, step: Step)
    requires Prefix(e) && InOrder(e) && Enabled(e, step) && !Apply(e, step).history.called
    ensures Apply(e, step).flush.Locked? ==> Apply(e, step).flush.byRunner
    ensures !e.history.called
  {
    hide Line;
  }

  lemma LineIsAccepted(e: Exporter, step: Step)
    requires Prefix(e) && InOrder(e) && Enabled(e, step) && !e.history.called
    ensures var after := Apply(e, step);
            after.history.added + InRunner(after) + InFlush(after) + after.queue == after.history.accepted
  {
    assert Line(e) == e.history.accepted;
    hide Line, InOrder;
    match step
    case Offer(span) => OfferKeepsLine(e, span);
    case RunReceive => ReceiveKeepsLine(e, step);
    case FlushReceive => ReceiveKeepsLine(e, step);
    case RunAdd => AddKeepsLine(e, step);
    case FlushAdd => AddKeepsLine(e, step);
    case _ => OthersKeepTrafficOrCount(e, step);
    LineIs(Apply(e, step));
  }

  lemma LineIs(e: Exporter)
    ensures Line(e) == e.history.added + InRunner(e) + InFlush(e) + e.queue
  {
  }

  lemma OthersKeepTrafficOrCount(e: Exporter, step: Step)
    requires Prefix(e) && Enabled(e, step) && (step.CountDrop? || !Moves(step))
    ensures Line(Apply(e, step)) == Line(e) && Apply(e, step).history.accepted == e.history.accepted
  {
    if !step.CountDrop? {
      OthersKeepTraffic(e, step);
    }
  }

  /** The steps of offering goroutines, the background loop, and the holder of `flushMu`. */
  predicate ByRunner(step: Step) {
    step.RunReceive? || step.RunAdd? || step.Tick? || step.RunDone? || step.RunDrained? || step.RunLock?
  }

  predicate ByFlusher(step: Step) {
    step.CallFlush? || step.FlushReceive? || step.FlushAdd? || step.FlushDrained? || step.Snapshot? || step.PostReturns? || step.Record?
  }

  lemma OfferKeepsClosing(e: Exporter, step: Step)
    requires Prefix(e) && Closing(e) && Enabled(e, step) && !ByRunner(step) && !ByFlusher(step)
    ensures Closing(Apply(e, step))
  {
  }

  lemma RunnerKeepsClosing(e: Exporter, step: Step)
    requires Prefix(e) && Closing(e) && Enabled(e, step) && ByRunner(step)
    ensures Closing(Apply(e, step))
  {
    hide Offered, Counted, Recorded;
  }

  lemma FlusherKeepsClosing(e: Exporter, step: Step)
    requires Prefix(e) && Closing(e) && Enabled(e, step) && ByFlusher(step)
    ensures Closing(Apply(e, step))
  {
    hide Offered, Counted;
  }

  lemma StepKeepsClosing(e: Exporter, step: Step)
    requires Inv(e) && Enabled(e, step)
    ensures Closing(Apply(e, step))
  {
    hide Bag, Exported, Failures, InOrder, Conserved, Ledger, Prefix, Closing, Apply, Enabled;
    if ByRunner(step) {
      RunnerKeepsClosing(e, step);
    } else if ByFlusher(step) {
      FlusherKeepsClosing(e, step);
    } else {
      OfferKeepsClosing(e, step);
    }
  }

  lemma {:induction false} AlwaysInv(capacity: nat, maxBatchSize: int, steps: seq<Step>)
    ensures Inv(After(Init(capacity, maxBatchSize), steps))
  {
    if steps != [] {
      hide Inv, Apply, Enabled;
      AlwaysInv(capacity, maxBatchSize, steps[..|steps| - 1]);
      var before, step := After(Init(capacity, maxBatchSize), steps[..|steps| - 1]), steps[|steps| - 1];
      if Enabled(before, step) {
        StepKeepsInv(before, step);
      }
    }
  }

  lemma StepKeepsInv(e: Exporter, step: Step)
    requires Inv(e) && Enabled(e, step)
    ensures Inv(Apply(e, step))
  {
    hide Conserved, Ledger, Prefix, InOrder, Closing, Apply, Enabled;
    StepKeepsConserved(e, step);
    StepKeepsLedger(e, step);
    StepKeepsPrefix(e, step);
    StepKeepsOrder(e, step);
    StepKeepsClosing(e, step);
  }

  // --------------------------------------------------------------- the queue

  lemma StepKeepsBound(e: Exporter, step: Step)
    requires Enabled(e, step) && |e.queue| <= e.capacity
    ensures var after := Apply(e, step);
            |after.queue| <= after.capacity == e.capacity && after.maxBatchSize == e.maxBatchSize
  {
  }

  lemma {:induction false} QueueIsBounded(capacity: nat, maxBatchSize: int, steps: seq<Step>)
    ensures var e := After(Init(capacity, maxBatchSize), steps);
            |e.queue| <= e.capacity == capacity && e.maxBatchSize == maxBatchSize
  {
    if steps != [] {
      hide Enabled, Apply;
      QueueIsBounded(capacity, maxBatchSize, steps[..|steps| - 1]);
      var before, step := After(Init(capacity, maxBatchSize), steps[..|steps| - 1]), steps[|steps| - 1];
      if Enabled(before, step) {
        StepKeepsBound(before, step);
      }
    }
  }

  // ---------------------------------------------------------------- theorems

  /** A span is accepted exactly when the bounded queue has room, and otherwise only counted as dropped; after
      taking a span from the queue the background loop flushes exactly when a full batch is pending. */
  lemma QueueTheorem(capacity: nat, maxBatchSize: int, steps: seq<Step>, span: TraceSpan)
    ensures var e := After(Init(capacity, maxBatchSize), steps);
            && |e.queue| <= capacity
            && (|e.queue| < capacity ==>
                  Apply(e, Offer(span)).queue == e.queue + [span] && Apply(e, Offer(span)).refused == e.refused)
            && (|e.queue| >= capacity ==>
                  Apply(e, Offer(span)).queue == e.queue && Apply(e, Offer(span)).refused == e.refused + multiset{span})
            && (e.runner.Adding? ==>
                  var after := Apply(e, RunAdd);
                  && after.pending == e.pending + [e.runner.span]
                  && (after.runner == Wanting(false) <==> |after.pending| >= maxBatchSize)
                  && (after.runner == Selecting <==> |after.pending| < maxBatchSize))
  {
    hide After;
    QueueIsBounded(capacity, maxBatchSize, steps);
  }

  /** Nothing is lost or duplicated: every span offered has been dropped, is about to be counted as
      dropped, is queued, is on its way from the queue, is pending, or has been exported. */
  lemma ConservationTheorem(capacity: nat, maxBatchSize: int, steps: seq<Step>)
    ensures var e := After(Init(capacity, maxBatchSize), steps);
            && Bag(e.history.offered) == Bag(e.history.dropped) + e.refused + Bag(e.queue) + Bag(InRunner(e)) + Bag(InFlush(e))
                                         + Bag(e.pending) + Bag(Exported(e.history.posts))
            && e.droppedSpans == |e.history.dropped|
            && e.exportedSpans == |Exported(e.history.posts)|
            && e.failedExports == Failures(e.history.posts)
  {
    var e := After(Init(capacity, maxBatchSize), steps);
    AlwaysInv(capacity, maxBatchSize, steps);
    BagOfBoth(Exported(e.history.posts), e.pending);
    hide Bag, Exported, Failures, InOrder, Closing, Prefix, After;
  }

  lemma BagOfBoth(a: seq<TraceSpan>, b: seq<TraceSpan>)
    ensures Bag(a + b) == Bag(a) + Bag(b)
  {
  }

  /** While a batch is being posted it stays a prefix of the pending spans, whatever else happens; recording
      a success removes exactly those spans and a failure removes none. */
  lemma PostTheorem(capacity: nat, maxBatchSize: int, steps: seq<Step>)
    ensures var e := After(Init(capacity, maxBatchSize), steps);
            && (e.flush.Locked? && e.flush.stage.Posting? ==> e.flush.stage.batch <= e.pending && e.flush.stage.batch != [])
            && (Enabled(e, Record) ==>
                  e.pending == (if e.flush.stage.answer.Accepted? then e.flush.stage.batch else []) + Apply(e, Record).pending)
  {
    AlwaysInv(capacity, maxBatchSize, steps);
    hide Conserved, Ledger, InOrder, Closing, After;
  }

  /** When only the background loop flushes, spans are exported in the order they were accepted. */
  lemma OrderTheorem(capacity: nat, maxBatchSize: int, steps: seq<Step>)
    ensures var e := After(Init(capacity, maxBatchSize), steps);
            !e.history.called ==> Exported(e.history.posts) <= e.history.accepted
  {
    AlwaysInv(capacity, maxBatchSize, steps);
    hide Conserved, Closing, Prefix, After, Exported;
  }

  /** A loop that stopped after a clean final flush, with nothing offered after `Close`, has exported
      every span that was not dropped. */
  lemma CloseTheorem(capacity: nat, maxBatchSize: int, steps: seq<Step>)
    ensures var e := After(Init(capacity, maxBatchSize), steps);
            e.runner.Stopped? && e.runner.clean && !e.history.late ==>
              Bag(e.history.offered) == Bag(e.history.dropped) + e.refused + Bag(Exported(e.history.posts))
  {
    var e := After(Init(capacity, maxBatchSize), steps);
    AlwaysInv(capacity, maxBatchSize, steps);
    ConservationTheorem(capacity, maxBatchSize, steps);
    hide Conserved, Ledger, InOrder, Prefix, After, Exported, Failures;
  }
}
