/** The continuous batcher's schedule as a value: what one scheduler step, and a whole run, does to
    the states, the results and the cache. */
module Scheduler {
  import opened KvCache
  import opened KvTheory

  datatype Request = Request(
    id: string, promptTokens: int, maxTokens: int, priority: int, key: string, prefixTokens: int)

  datatype Config = Config(prefillBudget: int, decodeWidth: int, kvBlocks: int, kvBlockTokens: int)

  datatype Status = Completed | Rejected | Cancelled

  datatype Result = Result(
    id: string, status: Status, promptTokens: int, generatedTokens: int, firstTokenStep: int,
    completionStep: int, kvBlocks: int, cacheHit: bool, message: string)

  datatype Step = Step(
    stepIndex: int, prefillTokens: int, decodedTokens: int, queued: int, active: int,
    kvBlocksUsed: int, decodedIds: seq<string>)

  datatype RunStats = RunStats(
    totalSteps: int, prefillSteps: int, decodeSteps: int, totalPromptTokens: int, totalGeneratedTokens: int,
    kvCache: Snapshot)

  datatype Report = Report(results: seq<Result>, steps: seq<Step>, stats: RunStats)

  datatype State = State(
    request: Request, prefillRemaining: int, generated: int, promptAllocated: bool, promptReady: bool, done: bool)

  /** Everything a run updates. */
  datatype Sys = Sys(kv: Kv, states: seq<State>, results: seq<Result>)

  function Clamped(config: Config): Config {
    Config(ClampPositive(config.prefillBudget, 64), ClampPositive(config.decodeWidth, 8),
           ClampPositive(config.kvBlocks, 1024), ClampPositive(config.kvBlockTokens, 16))
  }

  function Normalized(request: Request): Request {
    request.(promptTokens := Max(0, request.promptTokens), maxTokens := Max(0, request.maxTokens))
  }

  function InitialState(request: Request): State {
    State(Normalized(request), Normalized(request).promptTokens, 0, false, false, false)
  }

  function InitialResult(request: Request): Result {
    Result(request.id, Rejected, Normalized(request).promptTokens, 0, -1, -1, 0, false, "queued")
  }

  function InitialStates(requests: seq<Request>): (r: seq<State>)
    ensures |r| == |requests|
  {
    seq(|requests|, i requires 0 <= i < |requests| => InitialState(requests[i]))
  }

  function InitialResults(requests: seq<Request>): (r: seq<Result>)
    ensures |r| == |requests|
  {
    seq(|requests|, i requires 0 <= i < |requests| => InitialResult(requests[i]))
  }

  // -------------------------------------------------------------- ranking

  /** Higher priority first; equal priorities in request order. */
  predicate Before(states: seq<State>, i: nat, j: nat)
    requires i < |states| && j < |states|
  {
    states[i].request.priority > states[j].request.priority
    || (states[i].request.priority == states[j].request.priority && i < j)
  }

  predicate Indices(states: seq<State>, xs: seq<nat>) {
    forall k | 0 <= k < |xs| :: xs[k] < |states|
  }

  predicate Ranked(states: seq<State>, xs: seq<nat>)
    requires Indices(states, xs)
  {
    forall a, b | 0 <= a < b < |xs| :: Before(states, xs[a], xs[b])
  }

  function Insert(states: seq<State>, x: nat, xs: seq<nat>): (r: seq<nat>)
    requires x < |states| && Indices(states, xs)
    ensures Indices(states, r) && |r| == |xs| + 1
  {
    if xs == [] then [x]
    else if Before(states, x, xs[0]) then [x] + xs
    else [xs[0]] + Insert(states, x, xs[1..])
  }

  /** The candidates in priority order. */
  function Rank(states: seq<State>, xs: seq<nat>): (r: seq<nat>)
    requires Indices(states, xs)
    ensures Indices(states, r) && |r| == |xs|
  {
    if xs == [] then [] else Insert(states, xs[0], Rank(states, xs[1..]))
  }

  predicate Waiting(s: State) { !s.done && !s.promptReady }

  predicate Decoding(s: State) { !s.done && s.promptReady && s.generated < s.request.maxTokens }

  predicate Active(s: State) { !s.done && s.promptReady }

  /** The positions from `from` on whose state satisfies `p`, in order. */
  function Where(states: seq<State>, p: State -> bool, from: nat): (r: seq<nat>)
    requires from <= |states|
    ensures Indices(states, r)
    decreases |states| - from
  {
    if from == |states| then []
    else (if p(states[from]) then [from] else []) + Where(states, p, from + 1)
  }

  function Count(states: seq<State>, p: State -> bool): nat {
    |Where(states, p, 0)|
  }

  function Unfinished(s: State): bool { !s.done }

  // --------------------------------------------------------------- prefill

  ghost predicate Shaped(sys: Sys) {
    |sys.results| == |sys.states| && sys.kv.tokensPerBlock > 0
  }

  ghost function RejectPrompt(sys: Sys, i: nat, kv: Kv, message: string): Sys
    requires Shaped(sys) && i < |sys.states|
  {
    var s := sys.states[i];
    Sys(kv,
        sys.states[i := s.(done := true)],
        sys.results[i := sys.results[i].(status := Rejected, message := message,
                                         kvBlocks := SequenceBlockCount(kv, s.request.id))])
  }

  ghost function Prefill(sys: Sys, i: nat, budget: int): (Sys, int)
    requires Shaped(sys) && i < |sys.states|
  {
    var s := sys.states[i];
    var consumed := Min(budget, s.prefillRemaining);
    var left := s.prefillRemaining - consumed;
    (sys.(states := sys.states[i := s.(prefillRemaining := left, promptReady := left == 0 || s.promptReady)]), consumed)
  }

  /** One prefill candidate's turn: allocate its prompt if needed, then spend budget on it. */
  ghost function Admit(sys: Sys, i: nat, budget: int): (r: (Sys, int))
    requires Shaped(sys) && i < |sys.states|
    ensures Shaped(r.0) && |r.0.states| == |sys.states|
  {
    var s := sys.states[i];
    if s.promptAllocated then Prefill(sys, i, budget)
    else
      PromptKeepsShape(sys.kv, s.request.id, s.request.promptTokens, s.request.key, s.request.prefixTokens);
      var (kv, r) := AllocatePrompt(sys.kv, s.request.id, s.request.promptTokens, s.request.key, s.request.prefixTokens);
      if !r.ok then (RejectPrompt(sys, i, kv, r.message), 0)
      else
        Prefill(Sys(kv, sys.states[i := s.(promptAllocated := true)],
                    sys.results[i := sys.results[i].(cacheHit := r.cacheHit)]),
                i, budget)
  }

  ghost function PrefillPhase(sys: Sys, xs: seq<nat>, budget: int): (r: (Sys, int))
    requires Shaped(sys) && Indices(sys.states, xs)
    ensures Shaped(r.0) && |r.0.states| == |sys.states|
    decreases |xs|
  {
    if xs == [] || budget <= 0 then (sys, 0)
    else
      var (next, consumed) := Admit(sys, xs[0], budget);
      var (last, more) := PrefillPhase(next, xs[1..], budget - consumed);
      (last, consumed + more)
  }

  // ---------------------------------------------------------------- decode

  ghost function Complete(sys: Sys, i: nat, t: int): Sys
    requires Shaped(sys) && i < |sys.states|
  {
    var s := sys.states[i];
    Sys(ReleaseSequence(sys.kv, s.request.id),
        sys.states[i := s.(done := true)],
        sys.results[i := sys.results[i].(status := Completed, message := "completed", generatedTokens := s.generated,
                                         completionStep := t, kvBlocks := SequenceBlockCount(sys.kv, s.request.id))])
  }

  ghost function RejectToken(sys: Sys, i: nat, kv: Kv, message: string): Sys
    requires Shaped(sys) && i < |sys.states|
  {
    var s := sys.states[i];
    Sys(ReleaseSequence(kv, s.request.id),
        sys.states[i := s.(done := true)],
        sys.results[i := sys.results[i].(status := Rejected, message := message, generatedTokens := s.generated,
                                         kvBlocks := SequenceBlockCount(kv, s.request.id))])
  }

  ghost function CountToken(sys: Sys, i: nat, kv: Kv, t: int): Sys
    requires Shaped(sys) && i < |sys.states|
  {
    var s, r := sys.states[i], sys.results[i];
    Sys(kv, sys.states[i := s.(generated := s.generated + 1)],
        sys.results[i := if r.firstTokenStep < 0 then r.(firstTokenStep := t) else r])
  }

  /** One decode candidate's turn: a token, or rejection when the cache is exhausted. */
  ghost function Decode(sys: Sys, i: nat, t: int): (r: (Sys, bool))
    requires Shaped(sys) && i < |sys.states|
    ensures Shaped(r.0) && |r.0.states| == |sys.states|
  {
    var s := sys.states[i];
    AppendKeepsShape(sys.kv, s.request.id, 1);
    var (kv, r) := AppendTokens(sys.kv, s.request.id, 1);
    if !r.ok then (RejectToken(sys, i, kv, r.message), false)
    else
      var counted := CountToken(sys, i, kv, t);
      if counted.states[i].generated == s.request.maxTokens
      then (Complete(counted, i, t), true) else (counted, true)
  }

  ghost function DecodePhase(sys: Sys, xs: seq<nat>, t: int): (r: (Sys, seq<string>))
    requires Shaped(sys) && Indices(sys.states, xs)
    ensures Shaped(r.0) && |r.0.states| == |sys.states|
    decreases |xs|
  {
    if xs == [] then (sys, [])
    else
      var (next, decoded) := Decode(sys, xs[0], t);
      var (last, more) := DecodePhase(next, xs[1..], t);
      (last, (if decoded then [sys.states[xs[0]].request.id] else []) + more)
  }

  // ---------------------------------------------------------------- finish

  predicate NothingToDecode(s: State) { !s.done && s.promptReady && s.request.maxTokens == 0 }

  /** Requests that ask for no tokens complete as soon as their prompt is ready. */
  ghost function FinishPhase(sys: Sys, from: nat, t: int): (r: Sys)
    requires Shaped(sys) && from <= |sys.states|
    ensures Shaped(r) && |r.states| == |sys.states|
    decreases |sys.states| - from
  {
    if from == |sys.states| then sys
    else FinishPhase(FinishOne(sys, from, t), from + 1, t)
  }

  ghost function FinishOne(sys: Sys, i: nat, t: int): (r: Sys)
    requires Shaped(sys) && i < |sys.states|
    ensures Shaped(r) && |r.states| == |sys.states|
  {
    if !NothingToDecode(sys.states[i]) then sys
    else
      var s, kv := sys.states[i], sys.kv;
      Sys(ReleaseSequence(kv, s.request.id), sys.states[i := s.(done := true)],
          sys.results[i := sys.results[i].(status := Completed, message := "completed", completionStep := t,
                                           kvBlocks := SequenceBlockCount(kv, s.request.id))])
  }

  // -------------------------------------------------------------- the step

  ghost function AfterPrefill(config: Config, sys: Sys): (r: (Sys, int))
    requires Shaped(sys)
    ensures Shaped(r.0) && |r.0.states| == |sys.states|
  {
    PrefillPhase(sys, Rank(sys.states, Where(sys.states, Waiting, 0)), config.prefillBudget)
  }

  function DecodeTurns(config: Config, states: seq<State>): (r: seq<nat>)
    ensures Indices(states, r)
  {
    var ranked := Rank(states, Where(states, Decoding, 0));
    ranked[..Max(0, Min(config.decodeWidth, |ranked|))]
  }

  ghost function AfterDecode(config: Config, sys: Sys, t: int): (r: (Sys, seq<string>))
    requires Shaped(sys)
    ensures Shaped(r.0) && |r.0.states| == |sys.states|
  {
    DecodePhase(sys, DecodeTurns(config, sys.states), t)
  }

  ghost function TakeStep(config: Config, sys: Sys, t: int): (r: (Sys, Step))
    requires Shaped(sys)
    ensures Shaped(r.0) && |r.0.states| == |sys.states|
  {
    var (filled, prefilled) := AfterPrefill(config, sys);
    var (decoded, ids) := AfterDecode(config, filled, t);
    var finished := FinishPhase(decoded, 0, t);
    (finished,
     Step(t, prefilled, |ids|, Count(sys.states, Unfinished), Count(finished.states, Active),
          UsedCount(finished.kv.blocks), ids))
  }

  // ---------------------------------------------------------- cancellation

  ghost function CancelFrom(sys: Sys, from: nat): (r: Sys)
    requires Shaped(sys) && from <= |sys.states|
    ensures Shaped(r) && |r.states| == |sys.states|
    decreases |sys.states| - from
  {
    if from == |sys.states| then sys
    else CancelFrom(CancelOne(sys, from), from + 1)
  }

  ghost function CancelOne(sys: Sys, i: nat): (r: Sys)
    requires Shaped(sys) && i < |sys.states|
    ensures Shaped(r) && |r.states| == |sys.states|
  {
    var s := sys.states[i];
    if s.done then sys
    else Sys(ReleaseSequence(sys.kv, s.request.id), sys.states[i := s.(done := true)],
             sys.results[i := sys.results[i].(status := Cancelled, message := "cancelled")])
  }

  ghost function Start(config: Config, requests: seq<Request>): (sys: Sys)
    ensures Shaped(sys) && |sys.states| == |requests|
  {
    Sys(Fresh(config.kvBlocks, config.kvBlockTokens), InitialStates(requests), InitialResults(requests))
  }
}
