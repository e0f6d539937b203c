/** The worker pool: endpoints with load counters and circuit breakers, and the choice between them. */
module WorkerPool {

  datatype Moment = Unset | Until(at: int)

  datatype Outcome = Succeeded | Failed(error: string)

  datatype Config = Config(threshold: int, resetAfter: int)

  datatype Endpoint = Endpoint(
    index: nat, inFlight: int, totalBatches: int, totalFailures: int, consecutiveFailures: int,
    circuitOpenUntil: Moment, lastLatency: int, lastError: string, lastSelected: Moment)

  function NewEndpoint(index: nat): Endpoint {
    Endpoint(index, 0, 0, 0, 0, Unset, 0, "", Unset)
  }

  predicate Open(e: Endpoint, now: int) {
    e.circuitOpenUntil.Until? && now < e.circuitOpenUntil.at
  }

  /** A look at an endpoint closes a circuit whose deadline has passed. */
  function Refreshed(e: Endpoint, now: int): Endpoint {
    if e.circuitOpenUntil.Unset? || now < e.circuitOpenUntil.at then e
    else e.(circuitOpenUntil := Unset, consecutiveFailures := 0, lastError := "")
  }

  function Begun(e: Endpoint, now: int): Endpoint {
    e.(inFlight := e.inFlight + 1, totalBatches := e.totalBatches + 1, lastSelected := Until(now))
  }

  function Finished(e: Endpoint, latency: int, outcome: Outcome, config: Config, now: int): Endpoint {
    var left := e.(inFlight := if e.inFlight > 0 then e.inFlight - 1 else e.inFlight, lastLatency := latency);
    match outcome
    case Succeeded => left.(consecutiveFailures := 0, circuitOpenUntil := Unset, lastError := "")
    case Failed(error) =>
      left.(totalFailures := e.totalFailures + 1, consecutiveFailures := e.consecutiveFailures + 1, lastError := error,
            circuitOpenUntil := if e.consecutiveFailures + 1 >= config.threshold then Until(now + config.resetAfter)
                                else e.circuitOpenUntil)
  }

  // ------------------------------------------------------------ the choice

  /** What a selection remembers of an endpoint. */
  datatype Load = Load(index: nat, inFlight: int, totalBatches: int)

  datatype Best = Nothing | Best(load: Load)

  function LoadOf(e: Endpoint): Load {
    Load(e.index, e.inFlight, e.totalBatches)
  }

  predicate LessLoaded(a: Load, b: Load) {
    if a.inFlight != b.inFlight then a.inFlight < b.inFlight
    else if a.totalBatches != b.totalBatches then a.totalBatches < b.totalBatches
    else a.index < b.index
  }

  /** One turn of the selection loop. */
  function Consider(best: Best, e: Endpoint, now: int): Best {
    if Open(e, now) then best
    else if best == Nothing || LessLoaded(LoadOf(e), best.load) then Best(LoadOf(e))
    else best
  }

  function Choose(es: seq<Endpoint>, now: int): Best {
    if es == [] then Nothing else Consider(Choose(es[..|es| - 1], now), es[|es| - 1], now)
  }

  predicate Indexed(es: seq<Endpoint>) {
    forall i | 0 <= i < |es| :: es[i].index == i
  }

  /** Endpoint `k` has a closed circuit; every other closed one has at least as many calls in flight, among those
      with as many at least as many batches, and among those a higher index. */
  predicate LeastLoaded(es: seq<Endpoint>, now: int, k: nat) {
    && k < |es| && Closed(es[k], now)
    && forall j | 0 <= j < |es| && j != k && Closed(es[j], now) ::
         && es[k].inFlight <= es[j].inFlight
         && (es[k].inFlight == es[j].inFlight ==> es[k].totalBatches <= es[j].totalBatches)
         && (es[k].inFlight == es[j].inFlight && es[k].totalBatches == es[j].totalBatches ==> es[k].index < es[j].index)
  }

  /** No deadline is set, or it has passed. */
  predicate Closed(e: Endpoint, now: int) {
    e.circuitOpenUntil == Unset || e.circuitOpenUntil.at <= now
  }

  /** The loop finds the least loaded closed endpoint, and nothing only if every circuit is open. */
  lemma {:induction false} ChooseIsLeast(es: seq<Endpoint>, now: int)
    requires Indexed(es)
    ensures Choose(es, now) == Nothing <==> forall j | 0 <= j < |es| :: !Closed(es[j], now)
    ensures Choose(es, now).Best? ==>
              var k := Choose(es, now).load.index;
              LeastLoaded(es, now, k) && Choose(es, now).load == LoadOf(es[k])
  {
    if es != [] {
      ChooseIsLeast(es[..|es| - 1], now);
    }
  }

  lemma ChooseNone(now: int)
    ensures Choose([], now) == Nothing
  {
  }

  lemma ChooseStep(es: seq<Endpoint>, now: int, i: nat)
    requires i < |es|
    ensures Choose(es[..i + 1], now) == Consider(Choose(es[..i], now), es[i], now)
  {
    assert es[..i + 1][..i] == es[..i];
  }

  lemma OnlyOneIsLeast(es: seq<Endpoint>, now: int, k: nat)
    requires Indexed(es) && LeastLoaded(es, now, k)
    ensures Choose(es, now) == Best(LoadOf(es[k]))
  {
    ChooseIsLeast(es, now);
  }

  function RefreshAll(es: seq<Endpoint>, now: int): (r: seq<Endpoint>)
    ensures |r| == |es| && forall i | 0 <= i < |es| :: r[i] == Refreshed(es[i], now)
  {
    if es == [] then [] else RefreshAll(es[..|es| - 1], now) + [Refreshed(es[|es| - 1], now)]
  }

  /** A call served from beginning to end with nothing in between. */
  function Serve(es: seq<Endpoint>, config: Config, call: Served): (r: (seq<Endpoint>, Best))
    requires Indexed(es)
    ensures Indexed(r.0) && |r.0| == |es|
  {
    var refreshed := RefreshAll(es, call.selected);
    var best := Choose(refreshed, call.selected);
    ChooseIsLeast(refreshed, call.selected);
    if best == Nothing then (refreshed, best)
    else
      var k := best.load.index;
      var served := Finished(Begun(refreshed[k], call.begun), call.latency, call.outcome, config, call.finished);
      (refreshed[k := served], best)
  }

  /** The clock readings of a call, and how it came out. */
  datatype Served = Served(selected: int, begun: int, finished: int, latency: int, outcome: Outcome)

  // ----------------------------------------------------------- the classes

  class WorkerEndpoint {
    const index: nat
    var inFlight: int
    var totalBatches: int
    var totalFailures: int
    var consecutiveFailures: int
    var circuitOpenUntil: Moment
    var lastLatency: int
    var lastError: string
    var lastSelected: Moment

    function View(): Endpoint
      reads this
    {
      Endpoint(index, inFlight, totalBatches, totalFailures, consecutiveFailures, circuitOpenUntil,
               lastLatency, lastError, lastSelected)
    }

    constructor (index: nat)
      ensures View() == NewEndpoint(index)
    {
      this.index := index;
      inFlight, totalBatches, totalFailures, consecutiveFailures := 0, 0, 0, 0;
      circuitOpenUntil, lastLatency, lastError, lastSelected := Unset, 0, "", Unset;
    }

    method Begin(now: int)
      modifies this
      ensures View() == Begun(old(View()), now)
      ensures inFlight == old(inFlight) + 1 && totalBatches == old(totalBatches) + 1 && lastSelected == Until(now)
      ensures circuitOpenUntil == old(circuitOpenUntil) && consecutiveFailures == old(consecutiveFailures)
    {
      inFlight := inFlight + 1;
      totalBatches := totalBatches + 1;
      lastSelected := Until(now);
    }

    method Finish(latency: int, outcome: Outcome, config: Config, now: int)
      modifies this
      ensures View() == Finished(old(View()), latency, outcome, config, now)
      ensures lastLatency == latency && lastError == (if outcome.Failed? then outcome.error else "")
      ensures totalFailures == old(totalFailures) + (if outcome.Failed? then 1 else 0) && totalBatches == old(totalBatches)
      ensures lastSelected == old(lastSelected)
    {
      if inFlight > 0 {
        inFlight := inFlight - 1;
      }
      lastLatency := latency;
      match outcome {
        case Failed(error) =>
          totalFailures := totalFailures + 1;
          consecutiveFailures := consecutiveFailures + 1;
          lastError := error;
          if consecutiveFailures >= config.threshold {
            circuitOpenUntil := Until(now + config.resetAfter);
          }
        case Succeeded =>
          consecutiveFailures := 0;
          circuitOpenUntil := Unset;
          lastError := "";
      }
    }

    method RefreshCircuit(now: int) returns (open: bool)
      modifies this
      ensures View() == Refreshed(old(View()), now)
      ensures open == Open(View(), now) == Open(old(View()), now)
      ensures open <==> old(circuitOpenUntil).Until? && now < old(circuitOpenUntil).at
      ensures inFlight == old(inFlight) && totalBatches == old(totalBatches) && totalFailures == old(totalFailures)
    {
      if circuitOpenUntil == Unset {
        return false;
      }
      if now < circuitOpenUntil.at {
        return true;
      }
      circuitOpenUntil := Unset;
      consecutiveFailures := 0;
      lastError := "";
      return false;
    }

    /** What a selection sees of the endpoint. */
    method SelectionState(now: int) returns (load: Load, open: bool)
      modifies this
      ensures View() == Refreshed(old(View()), now)
      ensures load == LoadOf(View()) && load.index == index
      ensures open == Open(View(), now) == Open(old(View()), now)
    {
      open := RefreshCircuit(now);
      load := Load(index, inFlight, totalBatches);
    }
  }

  class Pool {
    const config: Config
    const endpoints: seq<WorkerEndpoint>

    ghost predicate Valid()
      reads this, endpoints
    {
      && (forall i | 0 <= i < |endpoints| :: endpoints[i].index == i)
      && forall i, j | 0 <= i < j < |endpoints| :: endpoints[i] != endpoints[j]
    }

    function Views(n: nat): (r: seq<Endpoint>)
      requires n <= |endpoints|
      reads this, endpoints
      ensures |r| == n && forall i | 0 <= i < n :: r[i] == endpoints[i].View()
    {
      if n == 0 then [] else Views(n - 1) + [endpoints[n - 1].View()]
    }

    function View(): seq<Endpoint>
      reads this, endpoints
    {
      Views(|endpoints|)
    }

    constructor (config: Config, endpoints: seq<WorkerEndpoint>)
      requires forall i | 0 <= i < |endpoints| :: endpoints[i].index == i
      ensures Valid() && this.config == config && this.endpoints == endpoints
    {
      this.config := config;
      this.endpoints := endpoints;
    }

    /** The least loaded endpoint whose circuit is closed, or null when there is none. */
    method SelectEndpoint(now: int) returns (selected: WorkerEndpoint?)
      requires Valid()
      modifies endpoints
      ensures Valid() && View() == RefreshAll(old(View()), now)
      ensures selected == null <==> Choose(View(), now) == Nothing
      ensures selected != null ==> selected in endpoints && Choose(View(), now) == Best(LoadOf(selected.View()))
      ensures selected != null ==> LeastLoaded(View(), now, selected.index) && endpoints[selected.index] == selected
      ensures selected == null <==> forall j | 0 <= j < |View()| :: !Closed(View()[j], now)
    {
      hide Choose, RefreshAll, LessLoaded, LeastLoaded, Refreshed, Open, LoadOf, Closed;
      ChooseNone(now);
      selected := null;
      var best := Nothing;
      var i := 0;
      ghost var before := View();
      assert RefreshAll(before, now)[..0] == [];
      while i < |endpoints|
        invariant 0 <= i <= |endpoints|
        invariant forall j | 0 <= j < i :: endpoints[j].View() == Refreshed(before[j], now)
        invariant forall j | i <= j < |endpoints| :: endpoints[j].View() == before[j]
        invariant best == Choose(RefreshAll(before, now)[..i], now)
        invariant selected == null <==> best == Nothing
        invariant best.Best? ==>
                    best.load.index < i && selected == endpoints[best.load.index] && best.load == LoadOf(selected.View())
      {
        var endpoint := endpoints[i];
        assert forall j | 0 <= j < |endpoints| && j != i :: endpoints[j] != endpoint;
        var load, circuitOpen := endpoint.SelectionState(now);
        if !circuitOpen && (selected == null || LessLoaded(load, best.load)) {
          selected, best := endpoint, Best(load);
        }
        ChooseStep(RefreshAll(before, now), now, i);
        i := i + 1;
      }
      assert RefreshAll(before, now)[..i] == RefreshAll(before, now);
      assert View() == RefreshAll(before, now);
      assert Indexed(View());
      ChooseIsLeast(View(), now);
    }

    /** A batch served with nothing in between; the worker's answer is given by `call`. */
    method ProcessBatch(call: Served) returns (selected: WorkerEndpoint?)
      requires Valid()
      modifies endpoints
      ensures Valid() && Indexed(old(View()))
      ensures var (served, best) := Serve(old(View()), config, call);
              && View() == served
              && (selected == null <==> best == Nothing)
              && (selected != null ==> best.Best? && best.load.index < |endpoints| && selected == endpoints[best.load.index])
    {
      hide Choose, RefreshAll, LessLoaded, LeastLoaded, Refreshed;
      selected := SelectEndpoint(call.selected);
      ghost var refreshed := View();
      if selected != null {
        selected.Begin(call.begun);
        selected.Finish(call.latency, call.outcome, config, call.finished);
        assert View() == refreshed[selected.index := selected.View()];
      }
    }
  }
}
