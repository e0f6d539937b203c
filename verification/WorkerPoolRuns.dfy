/** Runs of the worker pool: calls served one after another, and calls that interleave. */
module WorkerPoolRuns {
  import opened Sums
  import opened WorkerPool

  // ------------------------------------------------------------ in sequence

  function Fresh(n: nat): (r: seq<Endpoint>)
    ensures |r| == n && forall i | 0 <= i < n :: r[i] == NewEndpoint(i)
  {
    if n == 0 then [] else Fresh(n - 1) + [NewEndpoint(n - 1)]
  }

  function ServeAll(es: seq<Endpoint>, config: Config, calls: seq<Served>): (r: (seq<Endpoint>, seq<Best>))
    requires Indexed(es)
    ensures Indexed(r.0) && |r.0| == |es| && |r.1| == |calls|
  {
    if calls == [] then (es, [])
    else
      var (before, chosen) := ServeAll(es, config, calls[..|calls| - 1]);
      var (after, best) := Serve(before, config, calls[|calls| - 1]);
      (after, chosen + [best])
  }

  /** Endpoint `j` of `n` after `m` batches have gone around: idle, closed, and its share served. */
  predicate TookTurns(e: Endpoint, m: nat, n: nat, j: nat)
    requires n > 0
  {
    && e.index == j && e.inFlight == 0 && e.circuitOpenUntil == Unset
    && e.totalBatches == m / n + if j < m % n then 1 else 0
  }

  lemma NextTurn(m: nat, n: nat)
    requires n > 0
    ensures if m % n == n - 1 then (m + 1) / n == m / n + 1 && (m + 1) % n == 0
            else (m + 1) / n == m / n && (m + 1) % n == m % n + 1
  {
    var q, r := m / n, m % n;
    assert m + 1 == n * q + (r + 1);
    if r == n - 1 {
      assert m + 1 == n * (q + 1);
      Divides(n, q + 1, 0);
    } else {
      Divides(n, q, r + 1);
    }
  }

  lemma Divides(n: nat, q: nat, r: nat)
    requires r < n
    ensures (n * q + r) / n == q && (n * q + r) % n == r
  {
    var m := n * q + r;
    var k := m / n - q;
    assert n * k == r - m % n;
    assert (k >= 1 ==> n * k >= n) && (k <= -1 ==> n * k + n <= 0);
  }

  lemma ServeTakesTurn(es: seq<Endpoint>, config: Config, call: Served, m: nat)
    requires Indexed(es) && es != [] && call.outcome == Succeeded
    requires forall j | 0 <= j < |es| :: TookTurns(es[j], m, |es|, j)
    ensures Serve(es, config, call).1.Best? && Serve(es, config, call).1.load.index == m % |es|
    ensures forall j | 0 <= j < |es| :: TookTurns(Serve(es, config, call).0[j], m + 1, |es|, j)
  {
    var n := |es|;
    var refreshed := RefreshAll(es, call.selected);
    assert LeastLoaded(refreshed, call.selected, m % n);
    OnlyOneIsLeast(refreshed, call.selected, m % n);
    NextTurn(m, n);
  }

  lemma FreshTurn(n: nat, j: nat)
    requires j < n
    ensures TookTurns(Fresh(n)[j], 0, n, j)
  {
    Divides(n, 0, 0);
  }

  predicate AllTookTurns(es: seq<Endpoint>, m: nat) {
    forall j | 0 <= j < |es| :: TookTurns(es[j], m, |es|, j)
  }

  /** When calls do not overlap and all succeed, the i-th batch goes to endpoint i mod n. */
  lemma {:induction false} RoundRobinTheorem(n: nat, config: Config, calls: seq<Served>)
    requires n > 0 && forall i | 0 <= i < |calls| :: calls[i].outcome == Succeeded
    ensures var (after, chosen) := ServeAll(Fresh(n), config, calls);
            && (forall i | 0 <= i < |calls| :: chosen[i].Best? && chosen[i].load.index == i % n)
            && |after| == n && AllTookTurns(after, |calls|)
  {
    hide TookTurns, Serve, Fresh;
    if calls != [] {
      var m := |calls| - 1;
      RoundRobinTheorem(n, config, calls[..m]);
      var (before, chosen) := ServeAll(Fresh(n), config, calls[..m]);
      assert AllTookTurns(before, m);
      ServeTakesTurn(before, config, calls[m], m);
    } else {
      forall j | 0 <= j < n ensures TookTurns(Fresh(n)[j], 0, n, j) {
        FreshTurn(n, j);
      }
    }
  }

  // --------------------------------------------------------- interleaved runs

  /** Where a call stands: looking at endpoint `next`, holding its choice, under way, or over. */
  datatype Call =
    | Looking(next: nat, best: Best)
    | Chosen(index: nat)
    | Refused
    | Running(index: nat)
    | Ended(index: nat, failed: bool)

  datatype State = State(config: Config, endpoints: seq<Endpoint>, calls: seq<Call>)

  datatype Step =
    | Arrive
    | Look(call: nat, now: int)
    | Settle(call: nat)
    | Unsupported(call: nat)
    | Begin(call: nat, now: int)
    | Finish(call: nat, latency: int, outcome: Outcome, now: int)
    | Refresh(index: nat, now: int)

  function Init(n: nat, config: Config): State {
    State(config, Fresh(n), [])
  }

  predicate Enabled(s: State, step: Step) {
    match step
    case Arrive => true
    case Look(c, _) => c < |s.calls| && s.calls[c].Looking? && s.calls[c].next < |s.endpoints|
    case Settle(c) => c < |s.calls| && s.calls[c].Looking? && s.calls[c].next == |s.endpoints|
    case Unsupported(c) => c < |s.calls| && s.calls[c].Chosen?
    case Begin(c, _) => c < |s.calls| && s.calls[c].Chosen? && s.calls[c].index < |s.endpoints|
    case Finish(c, _, _, _) => c < |s.calls| && s.calls[c].Running? && s.calls[c].index < |s.endpoints|
    case Refresh(i, _) => i < |s.endpoints|
  }

  function Moved(s: State, c: nat, call: Call, i: nat, e: Endpoint): State
    requires c < |s.calls| && i < |s.endpoints|
  {
    s.(calls := s.calls[c := call], endpoints := s.endpoints[i := e])
  }

  function Apply(s: State, step: Step): State
    requires Enabled(s, step)
  {
    match step
    case Arrive => s.(calls := s.calls + [Looking(0, Nothing)])
    case Look(c, now) =>
      var i := s.calls[c].next;
      var e := Refreshed(s.endpoints[i], now);
      Moved(s, c, Looking(i + 1, Consider(s.calls[c].best, e, now)), i, e)
    case Settle(c) =>
      s.(calls := s.calls[c := if s.calls[c].best == Nothing then Refused else Chosen(s.calls[c].best.load.index)])
    case Unsupported(c) => s.(calls := s.calls[c := Refused])
    case Begin(c, now) =>
      var i := s.calls[c].index;
      Moved(s, c, Running(i), i, Begun(s.endpoints[i], now))
    case Finish(c, latency, outcome, now) =>
      var i := s.calls[c].index;
      Moved(s, c, Ended(i, outcome.Failed?), i, Finished(s.endpoints[i], latency, outcome, s.config, now))
    case Refresh(i, now) => s.(endpoints := s.endpoints[i := Refreshed(s.endpoints[i], now)])
  }

  function After(s: State, steps: seq<Step>): State {
    if steps == [] then s
    else
      var before, step := After(s, steps[..|steps| - 1]), steps[|steps| - 1];
      if Enabled(before, step) then Apply(before, step) else before
  }

  // -------------------------------------------------------------- invariants

  function Begins(call: Call, i: nat): int {
    if (call.Running? || call.Ended?) && call.index == i then 1 else 0
  }

  function Runs(call: Call, i: nat): int {
    if call.Running? && call.index == i then 1 else 0
  }

  function Fails(call: Call, i: nat): int {
    if call.Ended? && call.failed && call.index == i then 1 else 0
  }

  function BeginsOn(i: nat): Call -> int { (call: Call) => Begins(call, i) }
  function RunsOn(i: nat): Call -> int { (call: Call) => Runs(call, i) }
  function FailsOn(i: nat): Call -> int { (call: Call) => Fails(call, i) }

  predicate Counts(e: Endpoint, calls: seq<Call>, i: nat) {
    && e.inFlight == Sum(calls, RunsOn(i))
    && e.totalBatches == Sum(calls, BeginsOn(i))
    && e.totalFailures == Sum(calls, FailsOn(i))
  }

  /** The deadline is set exactly while the failures in a row have reached the threshold. */
  predicate Breaks(e: Endpoint, config: Config) {
    && (e.circuitOpenUntil.Until? <==> e.consecutiveFailures >= config.threshold)
    && 0 <= e.consecutiveFailures <= e.totalFailures
  }

  predicate KnownCall(call: Call, n: nat) {
    match call
    case Looking(next, best) => next <= n && (best.Best? ==> best.load.index < n)
    case Chosen(i) => i < n
    case Refused => true
    case Running(i) => i < n
    case Ended(i, _) => i < n
  }

  ghost predicate Inv(s: State) {
    && s.config.threshold > 0
    && (forall c | 0 <= c < |s.calls| :: KnownCall(s.calls[c], |s.endpoints|))
    && (forall i | 0 <= i < |s.endpoints| :: s.endpoints[i].index == i && Breaks(s.endpoints[i], s.config))
    && (forall i | 0 <= i < |s.endpoints| :: Counts(s.endpoints[i], s.calls, i))
  }

  lemma CountsMove(calls: seq<Call>, c: nat, call: Call, i: nat)
    requires c < |calls|
    ensures Sum(calls[c := call], RunsOn(i)) == Sum(calls, RunsOn(i)) - Runs(calls[c], i) + Runs(call, i)
    ensures Sum(calls[c := call], BeginsOn(i)) == Sum(calls, BeginsOn(i)) - Begins(calls[c], i) + Begins(call, i)
    ensures Sum(calls[c := call], FailsOn(i)) == Sum(calls, FailsOn(i)) - Fails(calls[c], i) + Fails(call, i)
  {
    SumUpdate(calls, c, call, RunsOn(i));
    SumUpdate(calls, c, call, BeginsOn(i));
    SumUpdate(calls, c, call, FailsOn(i));
  }

  lemma CountsGrow(calls: seq<Call>, call: Call, i: nat)
    ensures Sum(calls + [call], RunsOn(i)) == Sum(calls, RunsOn(i)) + Runs(call, i)
    ensures Sum(calls + [call], BeginsOn(i)) == Sum(calls, BeginsOn(i)) + Begins(call, i)
    ensures Sum(calls + [call], FailsOn(i)) == Sum(calls, FailsOn(i)) + Fails(call, i)
  {
    SumSnoc(calls, call, RunsOn(i));
    SumSnoc(calls, call, BeginsOn(i));
    SumSnoc(calls, call, FailsOn(i));
  }

  /** A running call is counted, so finishing it never meets the clamp. */
  lemma RunningIsCounted(s: State, c: nat)
    requires Inv(s) && c < |s.calls| && s.calls[c].Running?
    ensures s.calls[c].index < |s.endpoints| && s.endpoints[s.calls[c].index].inFlight >= 1
  {
    assert KnownCall(s.calls[c], |s.endpoints|);
    var i := s.calls[c].index;
    assert Counts(s.endpoints[i], s.calls, i);
    SumAtLeast(s.calls, RunsOn(i), c);
  }

  /** Batches begun are at least those failed and those under way. */
  lemma {:induction false} BegunCoversRest(calls: seq<Call>, i: nat)
    ensures Sum(calls, FailsOn(i)) + Sum(calls, RunsOn(i)) <= Sum(calls, BeginsOn(i))
    ensures Sum(calls, FailsOn(i)) >= 0 && Sum(calls, RunsOn(i)) >= 0
  {
    if calls != [] {
      BegunCoversRest(calls[..|calls| - 1], i);
    }
  }

  lemma StepKeepsCounts(s: State, step: Step, i: nat)
    requires Inv(s) && Enabled(s, step) && i < |s.endpoints|
    ensures |Apply(s, step).endpoints| == |s.endpoints| && Counts(Apply(s, step).endpoints[i], Apply(s, step).calls, i)
  {
    hide BeginsOn, KnownCall, LoadOf, Sum;
    assert Counts(s.endpoints[i], s.calls, i);
    match step {
      case Arrive => CountsGrow(s.calls, Looking(0, Nothing), i);
      case Refresh(_, _) =>
      case Finish(c, _, outcome, _) =>
        RunningIsCounted(s, c);
        CountsMove(s.calls, c, Ended(s.calls[c].index, outcome.Failed?), i);
      case _ => CountsMove(s.calls, step.call, Apply(s, step).calls[step.call], i);
    }
  }

  lemma StepKeepsCircuits(s: State, step: Step, i: nat)
    requires Inv(s) && Enabled(s, step) && i < |s.endpoints|
    ensures |Apply(s, step).endpoints| == |s.endpoints|
    ensures Apply(s, step).endpoints[i].index == i && Breaks(Apply(s, step).endpoints[i], s.config)
  {
    assert Breaks(s.endpoints[i], s.config);
    hide Counts;
  }

  lemma StepKeepsCalls(s: State, step: Step, c: nat)
    requires Inv(s) && Enabled(s, step) && c < |Apply(s, step).calls|
    ensures KnownCall(Apply(s, step).calls[c], |s.endpoints|)
  {
    hide Counts, Breaks;
    if c < |s.calls| {
      assert KnownCall(s.calls[c], |s.endpoints|);
    }
  }

  lemma StepKeepsInv(s: State, step: Step)
    requires Inv(s) && Enabled(s, step)
    ensures Inv(Apply(s, step))
  {
    hide Counts, Breaks, KnownCall;
    var after := Apply(s, step);
    assert |after.endpoints| == |s.endpoints| && after.config == s.config;
    forall i | 0 <= i < |s.endpoints|
      ensures Counts(after.endpoints[i], after.calls, i) && after.endpoints[i].index == i && Breaks(after.endpoints[i], s.config)
    {
      StepKeepsCounts(s, step, i);
      StepKeepsCircuits(s, step, i);
    }
    forall c | 0 <= c < |after.calls| ensures KnownCall(after.calls[c], |after.endpoints|) {
      StepKeepsCalls(s, step, c);
    }
  }

  lemma {:induction false} AlwaysInv(n: nat, config: Config, steps: seq<Step>)
    requires config.threshold > 0
    ensures Inv(After(Init(n, config), steps)) && |After(Init(n, config), steps).endpoints| == n
  {
    if steps != [] {
      hide Inv, Enabled;
      AlwaysInv(n, config, steps[..|steps| - 1]);
      var before, step := After(Init(n, config), steps[..|steps| - 1]), steps[|steps| - 1];
      if Enabled(before, step) {
        StepKeepsInv(before, step);
      }
    }
  }

  // ---------------------------------------------------------------- theorems

  predicate Over(call: Call) {
    call.Refused? || call.Ended?
  }

  /** At every moment of every interleaving an endpoint's counters are those of the calls it has had,
      finishing never clamps, and the breaker's deadline is set exactly at the threshold. */
  lemma AccountingTheorem(n: nat, config: Config, steps: seq<Step>, i: nat)
    requires config.threshold > 0 && i < n
    ensures var s := After(Init(n, config), steps);
            && |s.endpoints| == n && Counts(s.endpoints[i], s.calls, i)
            && s.endpoints[i].totalFailures + s.endpoints[i].inFlight <= s.endpoints[i].totalBatches
            && (s.endpoints[i].circuitOpenUntil.Until? <==> s.endpoints[i].consecutiveFailures >= config.threshold)
            && ((forall c | 0 <= c < |s.calls| :: Over(s.calls[c])) ==> s.endpoints[i].inFlight == 0)
            && (forall c: nat | c < |s.calls| && s.calls[c] == Running(i) :: s.endpoints[i].inFlight >= 1)
  {
    var s := After(Init(n, config), steps);
    AlwaysInv(n, config, steps);
    assert s.config == config by { ConfigStays(n, config, steps); }
    BegunCoversRest(s.calls, i);
    if forall c | 0 <= c < |s.calls| :: Over(s.calls[c]) {
      NothingRuns(s.calls, i);
    }
    forall c: nat | c < |s.calls| && s.calls[c] == Running(i) ensures s.endpoints[i].inFlight >= 1 {
      RunningIsCounted(s, c);
    }
  }

  /** The breaker: a failure that makes the failures in a row reach the threshold keeps the endpoint out of every
      choice until the reset time has passed; a success puts it back at once; a look after the deadline forgets
      the failures in a row, and an earlier one forgets nothing. */
  lemma BreakerTheorem(s: State, c: nat, latency: int, outcome: Outcome, now: int, later: int)
    requires Inv(s) && Enabled(s, Finish(c, latency, outcome, now))
    ensures var i := s.calls[c].index;
            var before, after := s.endpoints[i], Apply(s, Finish(c, latency, outcome, now)).endpoints[i];
            && after.inFlight == before.inFlight - 1 && after.totalBatches == before.totalBatches
            && (outcome.Succeeded? ==> after.consecutiveFailures == 0 && Closed(after, later))
            && (outcome.Failed? ==>
                  && after.consecutiveFailures == before.consecutiveFailures + 1
                  && (before.consecutiveFailures + 1 >= s.config.threshold ==>
                        (Closed(after, later) <==> later >= now + s.config.resetAfter))
                  && (before.consecutiveFailures + 1 < s.config.threshold ==> Closed(after, later)))
            && Closed(Refreshed(after, later), later) == Closed(after, later)
            && (!Closed(after, later) ==> Refreshed(after, later) == after)
            && (Closed(after, later) && after.circuitOpenUntil.Until? ==>
                  Refreshed(after, later).consecutiveFailures == 0 && Refreshed(after, later).circuitOpenUntil == Unset)
  {
    RunningIsCounted(s, c);
    assert Breaks(s.endpoints[s.calls[c].index], s.config);
    hide Counts;
  }

  lemma {:induction false} ConfigStays(n: nat, config: Config, steps: seq<Step>)
    ensures After(Init(n, config), steps).config == config
  {
    if steps != [] {
      ConfigStays(n, config, steps[..|steps| - 1]);
    }
  }

  lemma {:induction false} NothingRuns(calls: seq<Call>, i: nat)
    requires forall c | 0 <= c < |calls| :: Over(calls[c])
    ensures Sum(calls, RunsOn(i)) == 0
  {
    if calls != [] {
      NothingRuns(calls[..|calls| - 1], i);
      assert Over(calls[|calls| - 1]);
    }
  }
}
