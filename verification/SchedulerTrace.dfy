/** A run step by step: the state before every step, and where the run stops. */
module SchedulerTrace {
  import opened KvCache
  import opened KvHistory
  import opened Scheduler
  import opened SchedulerInvariant
  import opened SchedulerPhases
  import opened SchedulerRun
  import opened SchedulerTiming
  import opened Sums

  // ------------------------------------------------------------- the start

  lemma StartIsValid(config: Config, requests: seq<Request>)
    ensures Boundary(Start(config, requests)) && TimeInv(config, Start(config, requests), 0)
    ensures Usable(Clamped(config))
  {
    var sys := Start(config, requests);
    FreshIsValid(config.kvBlocks, config.kvBlockTokens);
  }

  ghost function FullRun(config: Config, requests: seq<Request>, cancelled: nat -> bool): (Sys, seq<Step>) {
    StartIsValid(Clamped(config), requests);
    StartIsValid(config, requests);
    RunFrom(Clamped(config), Start(Clamped(config), requests), 0, cancelled)
  }

  // ------------------------------------------------------------- the trace

  /** The state before step `n`, when nothing is cancelled up to there. */
  ghost function BeforeStep(config: Config, requests: seq<Request>, n: nat): (sys: Sys)
    ensures Shaped(sys)
  {
    if n == 0 then Start(Clamped(config), requests)
    else TakeStep(Clamped(config), BeforeStep(config, requests, n - 1), n - 1).0
  }

  lemma NextState(config: Config, requests: seq<Request>, n: nat)
    ensures BeforeStep(config, requests, n + 1) == TakeStep(Clamped(config), BeforeStep(config, requests, n), n).0
  {
    hide TakeStep, Start, Clamped;
  }

  lemma {:induction false} BeforeStepIsBoundary(config: Config, requests: seq<Request>, n: nat)
    ensures Boundary(BeforeStep(config, requests, n)) && Usable(Clamped(config))
  {
    hide Boundary, TimeInv, TakeStep, Clamped;
    StartIsValid(Clamped(config), requests);
    StartIsValid(config, requests);
    if n > 0 {
      BeforeStepIsBoundary(config, requests, n - 1);
      StepTheorem(Clamped(config), BeforeStep(config, requests, n - 1), n - 1);
    }
  }

  /** The run goes no further than step `n`: everything is done, or it is cancelled there. */
  ghost predicate StopsAt(config: Config, requests: seq<Request>, cancelled: nat -> bool, n: nat) {
    AllDone(BeforeStep(config, requests, n).states) || cancelled(n)
  }

  /** What the run records in step `n`. */
  ghost function RecordOf(config: Config, requests: seq<Request>, n: nat): Step {
    TakeStep(Clamped(config), BeforeStep(config, requests, n), n).1
  }

  /** As long as it does not stop, the run passes through the states of the trace and records its steps. */
  lemma {:induction false} PassesThrough(config: Config, requests: seq<Request>, cancelled: nat -> bool, n: nat)
    requires forall m: nat | m < n :: !StopsAt(config, requests, cancelled, m)
    ensures Boundary(BeforeStep(config, requests, n)) && Usable(Clamped(config))
    ensures var (last, steps) := FullRun(config, requests, cancelled);
            var (end, more) := RunFrom(Clamped(config), BeforeStep(config, requests, n), n, cancelled);
            && last == end && |steps| == n + |more| && steps[n..] == more
            && forall k: nat | k < n :: steps[k] == RecordOf(config, requests, k)
  {
    hide Boundary, TakeStep, Clamped, RunFrom, AllDone, Start;
    BeforeStepIsBoundary(config, requests, n);
    if n == 0 {
      assert FullRun(config, requests, cancelled).1[0..] == FullRun(config, requests, cancelled).1;
    } else {
      var m := n - 1;
      PassesThrough(config, requests, cancelled, m);
      var before := BeforeStep(config, requests, m);
      assert !StopsAt(config, requests, cancelled, m);
      CountIsZero(before.states);
      RunUnfolds(Clamped(config), before, m, cancelled);
      var steps := FullRun(config, requests, cancelled).1;
      var more := RunFrom(Clamped(config), BeforeStep(config, requests, n), n, cancelled).1;
      assert steps[m..] == [RecordOf(config, requests, m)] + more;
      assert steps[m] == steps[m..][0];
      assert steps[n..] == steps[m..][1..];
    }
  }

  /** The run is the trace up to the first step at which it stops. */
  ghost predicate IsTrace(config: Config, requests: seq<Request>, cancelled: nat -> bool, n: nat) {
    var (last, steps) := FullRun(config, requests, cancelled);
    var end := BeforeStep(config, requests, n);
    && |steps| == n && StopsAt(config, requests, cancelled, n)
    && (forall m: nat | m < n :: !StopsAt(config, requests, cancelled, m) && steps[m] == RecordOf(config, requests, m))
    && last == if AllDone(end.states) then end else CancelFrom(end, 0)
  }

  lemma {:induction false} TraceFrom(config: Config, requests: seq<Request>, cancelled: nat -> bool, n: nat)
    requires forall m: nat | m < n :: !StopsAt(config, requests, cancelled, m)
    ensures IsTrace(config, requests, cancelled, |FullRun(config, requests, cancelled).1|)
    decreases Sum(BeforeStep(config, requests, n).states, Work)
  {
    hide Boundary, TakeStep, Clamped, RunFrom, AllDone, FullRun, Work, Sum;
    PassesThrough(config, requests, cancelled, n);
    var sys := BeforeStep(config, requests, n);
    RunStops(Clamped(config), sys, n, cancelled);
    CountIsZero(sys.states);
    if !StopsAt(config, requests, cancelled, n) {
      StepTheorem(Clamped(config), sys, n);
      TraceFrom(config, requests, cancelled, n + 1);
    }
  }

  /** A run takes the steps of the trace, one record each, until everything is done or it is cancelled. */
  lemma TraceTheorem(config: Config, requests: seq<Request>, cancelled: nat -> bool)
    ensures IsTrace(config, requests, cancelled, |FullRun(config, requests, cancelled).1|)
  {
    TraceFrom(config, requests, cancelled, 0);
  }

  // ------------------------------------------------------------ cancellation

  lemma {:induction false} NoWorkLeft(states: seq<State>)
    requires forall i: nat | i < |states| :: StateOk(states[i])
    ensures Sum(states, Work) >= 0
    ensures Sum(states, Work) == 0 <==> AllDone(states)
  {
    if states != [] {
      var n := |states| - 1;
      NoWorkLeft(states[..n]);
      assert StateOk(states[n]);
      assert AllDone(states) <==> AllDone(states[..n]) && states[n].done by {
        assert forall i: nat | i < n :: states[..n][i] == states[i];
      }
    }
  }

  lemma StepKeepsDone(config: Config, sys: Sys, t: nat)
    requires Boundary(sys) && Usable(config) && AllDone(sys.states)
    ensures Shaped(sys) && AllDone(TakeStep(config, sys, t).0.states)
  {
    hide Boundary, TakeStep, AllDone, Work, Sum, StateOk;
    StepTheorem(config, sys, t);
    BoundaryFacts(sys);
    BoundaryFacts(TakeStep(config, sys, t).0);
    NoWorkLeft(sys.states);
    NoWorkLeft(TakeStep(config, sys, t).0.states);
  }

  /** Once everything is done it stays done. */
  lemma {:induction false} DoneStays(config: Config, requests: seq<Request>, n: nat, m: nat)
    requires n <= m && AllDone(BeforeStep(config, requests, n).states)
    ensures AllDone(BeforeStep(config, requests, m).states)
  {
    hide *;
    if n < m {
      DoneStays(config, requests, n, m - 1);
      BeforeStepIsBoundary(config, requests, m - 1);
      StepKeepsDone(Clamped(config), BeforeStep(config, requests, m - 1), m - 1);
      NextState(config, requests, m - 1);
    }
  }

  /** The callback first answers yes before step `n`, with requests still unfinished. */
  ghost predicate CancelsAt(config: Config, requests: seq<Request>, cancelled: nat -> bool, n: nat) {
    && cancelled(n) && !AllDone(BeforeStep(config, requests, n).states)
    && forall m: nat | m < n :: !cancelled(m) || AllDone(BeforeStep(config, requests, m).states)
  }

  /** The only step a run can be cancelled at is the one at which it stops. */
  lemma CancelsWhereItStops(config: Config, requests: seq<Request>, cancelled: nat -> bool, n: nat)
    ensures var stop := |FullRun(config, requests, cancelled).1|;
            CancelsAt(config, requests, cancelled, n) <==>
              n == stop && !AllDone(BeforeStep(config, requests, stop).states)
  {
    hide *;
    var stop := |FullRun(config, requests, cancelled).1|;
    TraceTheorem(config, requests, cancelled);
    StopIsFirst(config, requests, cancelled, stop);
    if n > stop && AllDone(BeforeStep(config, requests, stop).states) {
      DoneStays(config, requests, stop, n);
    }
    CancelIsFirst(config, requests, cancelled, n, stop);
  }

  lemma StopIsFirst(config: Config, requests: seq<Request>, cancelled: nat -> bool, stop: nat)
    requires IsTrace(config, requests, cancelled, stop)
    ensures AllDone(BeforeStep(config, requests, stop).states) || cancelled(stop)
    ensures forall m: nat | m < stop :: !cancelled(m) && !AllDone(BeforeStep(config, requests, m).states)
  {
    hide AllDone, FullRun, BeforeStep, RecordOf, CancelFrom;
    forall m: nat | m < stop ensures !cancelled(m) && !AllDone(BeforeStep(config, requests, m).states) {
      assert !StopsAt(config, requests, cancelled, m);
    }
  }

  lemma CancelIsFirst(config: Config, requests: seq<Request>, cancelled: nat -> bool, n: nat, stop: nat)
    requires AllDone(BeforeStep(config, requests, stop).states) || cancelled(stop)
    requires forall m: nat | m < stop :: !cancelled(m) && !AllDone(BeforeStep(config, requests, m).states)
    requires n >= stop && AllDone(BeforeStep(config, requests, stop).states) ==> AllDone(BeforeStep(config, requests, n).states)
    ensures CancelsAt(config, requests, cancelled, n) <==> n == stop && !AllDone(BeforeStep(config, requests, stop).states)
  {
    hide AllDone, BeforeStep;
  }
}
