/** The OTLP span exporter: offering goroutines, the background loop, and callers of `Flush`, each
    channel operation and each mutex section being one atomic step. */
module Exporter {

  datatype TraceSpan = TraceSpan(traceId: string, spanId: string, name: string)

  /** What the collector said to a post. */
  datatype Answer = Accepted | Refused(message: string)

  datatype Post = Post(batch: seq<TraceSpan>, answer: Answer)

  /** Where the background loop stands.  `last` marks the flush that follows `Close`. */
  datatype Runner =
    | Selecting
    | Adding(span: TraceSpan)
    | LastDrain
    | LastAdding(span: TraceSpan)
    | Wanting(last: bool)
    | Flushing(last: bool)
    | Stopped(clean: bool)

  datatype Stage =
    | Draining
    | Carrying(span: TraceSpan)
    | Snapshotting
    | Posting(batch: seq<TraceSpan>)
    | Answered(batch: seq<TraceSpan>, answer: Answer)

  /** `flushMu` and how far its holder has come. */
  datatype Flush = Unlocked | Locked(byRunner: bool, stage: Stage)

  datatype Exporter = Exporter(
    capacity: nat,
    maxBatchSize: int,
    queue: seq<TraceSpan>,
    pending: seq<TraceSpan>,
    exportedSpans: int,
    droppedSpans: int,
    failedExports: int,
    lastError: string,
    done: bool,
    runner: Runner,
    flush: Flush,
    refused: multiset<TraceSpan>,
    history: History)

  /** What has happened so far: `refused` spans above are not counted as dropped yet; `called` says that
      someone but the background loop has flushed, `late` that a span was offered after `Close`. */
  datatype History = History(
    offered: seq<TraceSpan>,
    accepted: seq<TraceSpan>,
    dropped: seq<TraceSpan>,
    added: seq<TraceSpan>,
    posts: seq<Post>,
    called: bool,
    late: bool)

  function Init(capacity: nat, maxBatchSize: int): Exporter {
    Exporter(capacity, maxBatchSize, [], [], 0, 0, 0, "", false, Selecting, Unlocked, multiset{},
             History([], [], [], [], [], false, false))
  }

  // --------------------------------------------------------------- the steps

  datatype Step =
    | Offer(span: TraceSpan)
    | CountDrop(span: TraceSpan)
    | Close
    | RunReceive
    | RunAdd
    | Tick
    | RunDone
    | RunDrained
    | RunLock
    | CallFlush
    | FlushReceive
    | FlushAdd
    | FlushDrained
    | Snapshot
    | PostReturns(answer: Answer)
    | Record

  predicate At(e: Exporter, stage: Stage) {
    e.flush.Locked? && e.flush.stage == stage
  }

  predicate Enabled(e: Exporter, step: Step) {
    match step
    case Offer(_) => true
    case CountDrop(span) => span in e.refused
    case Close => true
    case RunReceive => (e.runner.Selecting? || e.runner.LastDrain?) && e.queue != []
    case RunAdd => e.runner.Adding? || e.runner.LastAdding?
    case Tick => e.runner.Selecting?
    case RunDone => e.runner.Selecting? && e.done
    case RunDrained => e.runner.LastDrain? && e.queue == []
    case RunLock => e.runner.Wanting? && e.flush.Unlocked?
    case CallFlush => e.flush.Unlocked?
    case FlushReceive => At(e, Draining) && e.queue != []
    case FlushAdd => e.flush.Locked? && e.flush.stage.Carrying?
    case FlushDrained => At(e, Draining) && e.queue == []
    case Snapshot => At(e, Snapshotting)
    case PostReturns(_) => e.flush.Locked? && e.flush.stage.Posting?
    case Record => e.flush.Locked? && e.flush.stage.Answered?
  }

  function Offered(e: Exporter, span: TraceSpan): Exporter {
    var history := e.history.(offered := e.history.offered + [span], late := e.history.late || e.done);
    if |e.queue| < e.capacity then
      e.(queue := e.queue + [span], history := history.(accepted := history.accepted + [span]))
    else
      e.(refused := e.refused + multiset{span}, history := history)
  }

  function Counted(e: Exporter, span: TraceSpan): Exporter {
    e.(refused := e.refused - multiset{span}, droppedSpans := e.droppedSpans + 1,
       history := e.history.(dropped := e.history.dropped + [span]))
  }

  /** `addPending`. */
  function AddPending(e: Exporter, span: TraceSpan): Exporter {
    e.(pending := e.pending + [span], history := e.history.(added := e.history.added + [span]))
  }

  /** `flushMu` is released, and the background loop goes on if it was the holder. */
  function Unlock(e: Exporter, clean: bool): Exporter {
    e.(flush := Unlocked,
       runner := if !e.flush.Locked? || !e.flush.byRunner then e.runner
                 else if e.runner.Flushing? && e.runner.last then Stopped(clean)
                 else Selecting)
  }

  function Recorded(e: Exporter, batch: seq<TraceSpan>, answer: Answer): Exporter
    requires |batch| <= |e.pending|
  {
    var done := e.(history := e.history.(posts := e.history.posts + [Post(batch, answer)]));
    match answer
    case Accepted =>
      Unlock(done.(pending := e.pending[|batch|..], exportedSpans := e.exportedSpans + |batch|, lastError := ""), true)
    case Refused(message) =>
      Unlock(done.(failedExports := e.failedExports + 1, lastError := message), false)
  }

  /** `Record` slices `pending` after the posted batch, which `Prefix` below keeps possible in every
      reachable state. */
  function Apply(e: Exporter, step: Step): Exporter
    requires Enabled(e, step)
  {
    match step
    case Offer(span) => Offered(e, span)
    case CountDrop(span) => Counted(e, span)
    case Close => e.(done := true)
    case RunReceive =>
      e.(queue := e.queue[1..], runner := if e.runner.Selecting? then Adding(e.queue[0]) else LastAdding(e.queue[0]))
    case RunAdd =>
      AddPending(e, e.runner.span)
        .(runner := if e.runner.LastAdding? then LastDrain
                    else if |e.pending| + 1 >= e.maxBatchSize then Wanting(false) else Selecting)
    case Tick => e.(runner := Wanting(false))
    case RunDone => e.(runner := LastDrain)
    case RunDrained => e.(runner := Wanting(true))
    case RunLock => e.(runner := Flushing(e.runner.last), flush := Locked(true, Draining))
    case CallFlush => e.(flush := Locked(false, Draining), history := e.history.(called := true))
    case FlushReceive => e.(queue := e.queue[1..], flush := e.flush.(stage := Carrying(e.queue[0])))
    case FlushAdd => AddPending(e, e.flush.stage.span).(flush := e.flush.(stage := Draining))
    case FlushDrained => e.(flush := e.flush.(stage := Snapshotting))
    case Snapshot =>
      if e.pending == [] then Unlock(e, true) else e.(flush := e.flush.(stage := Posting(e.pending)))
    case PostReturns(answer) => e.(flush := e.flush.(stage := Answered(e.flush.stage.batch, answer)))
    case Record =>
      if |e.flush.stage.batch| <= |e.pending| then Recorded(e, e.flush.stage.batch, e.flush.stage.answer) else e
  }

  function After(e: Exporter, steps: seq<Step>): Exporter {
    if steps == [] then e
    else
      var before, step := After(e, steps[..|steps| - 1]), steps[|steps| - 1];
      if Enabled(before, step) then Apply(before, step) else before
  }

  // -------------------------------------------------------------- invariants

  /** The spans the collector has accepted, in the order posted. */
  function Exported(posts: seq<Post>): seq<TraceSpan> {
    if posts == [] then []
    else
      var last := posts[|posts| - 1];
      Exported(posts[..|posts| - 1]) + (if last.answer.Accepted? then last.batch else [])
  }

  function Failures(posts: seq<Post>): nat {
    if posts == [] then 0
    else Failures(posts[..|posts| - 1]) + (if posts[|posts| - 1].answer.Refused? then 1 else 0)
  }

  function InRunner(e: Exporter): seq<TraceSpan> {
    if e.runner.Adding? || e.runner.LastAdding? then [e.runner.span] else []
  }

  function InFlush(e: Exporter): seq<TraceSpan> {
    if e.flush.Locked? && e.flush.stage.Carrying? then [e.flush.stage.span] else []
  }

  function Bag(spans: seq<TraceSpan>): multiset<TraceSpan> {
    multiset(spans)
  }

  predicate Conserved(e: Exporter) {
    && Bag(e.history.offered) == Bag(e.history.accepted) + Bag(e.history.dropped) + e.refused
    && Bag(e.history.accepted) == Bag(e.queue) + Bag(InRunner(e)) + Bag(InFlush(e)) + Bag(e.history.added)
  }

  /** Spans are exported in the order they became pending, each once; the last error is that of the last post. */
  predicate Ledger(e: Exporter) {
    && Exported(e.history.posts) + e.pending == e.history.added
    && e.exportedSpans == |Exported(e.history.posts)|
    && e.droppedSpans == |e.history.dropped|
    && e.failedExports == Failures(e.history.posts)
    && e.lastError == (if e.history.posts == [] then ""
                       else match e.history.posts[|e.history.posts| - 1].answer
                            case Accepted => ""
                            case Refused(message) => message)
  }

  /** A batch being posted is a non-empty prefix of the pending spans. */
  predicate Prefix(e: Exporter) {
    && (e.flush.Locked? && e.flush.stage.Posting? ==> e.flush.stage.batch <= e.pending && e.flush.stage.batch != [])
    && (e.flush.Locked? && e.flush.stage.Answered? ==> e.flush.stage.batch <= e.pending && e.flush.stage.batch != [])
    && (e.runner.Flushing? <==> e.flush.Locked? && e.flush.byRunner)
  }

  /** Without other callers, spans keep the order in which they were accepted. */
  predicate InOrder(e: Exporter) {
    !e.history.called ==>
      && (e.flush.Locked? ==> e.flush.byRunner)
      && e.history.added + InRunner(e) + InFlush(e) + e.queue == e.history.accepted
  }

  /** Once the loop has drained the queue for the last time and nothing more is offered, the final flush
      takes everything that is left. */
  predicate Closing(e: Exporter) {
    && ((e.runner.LastDrain? || e.runner.LastAdding? || e.runner.Stopped?) ==> e.done)
    && ((e.runner.Wanting? || e.runner.Flushing?) && e.runner.last ==> e.done)
    && (!e.history.late && e.runner.Wanting? && e.runner.last ==> e.queue == [])
    && (!e.history.late && e.runner.Flushing? && e.runner.last ==>
          && e.queue == [] && InFlush(e) == []
          && (e.flush.Locked? && e.flush.stage.Posting? ==> e.flush.stage.batch == e.pending)
          && (e.flush.Locked? && e.flush.stage.Answered? ==> e.flush.stage.batch == e.pending))
    && (!e.history.late && e.runner.Stopped? ==>
          e.queue == [] && InFlush(e) == [] && (e.runner.clean ==> e.pending == []))
  }

  predicate Inv(e: Exporter) {
    Conserved(e) && Ledger(e) && Prefix(e) && InOrder(e) && Closing(e)
  }
}
