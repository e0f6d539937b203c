/** The continuous batcher as it runs: a loop over scheduler steps that updates states, results and
    the allocator in place, proved to produce exactly the run that `SchedulerTheorems` is about. */
module ContinuousBatcher {
  import opened KvCache
  import opened KvAllocator
  import opened KvInvariant
  import opened KvPrompt
  import opened KvSequence
  import opened Scheduler
  import opened SchedulerInvariant
  import opened SchedulerPhases
  import opened SchedulerRun
  import opened SchedulerTheorems
  import opened SchedulerTrace
  import opened Sums

  function PrefillSteps(steps: seq<Step>): int {
    if steps == [] then 0
    else PrefillSteps(steps[..|steps| - 1]) + if steps[|steps| - 1].prefillTokens > 0 then 1 else 0
  }

  function DecodeSteps(steps: seq<Step>): int {
    if steps == [] then 0
    else DecodeSteps(steps[..|steps| - 1]) + if steps[|steps| - 1].decodedTokens > 0 then 1 else 0
  }

  function PromptTokensOf(q: Request): int { Max(0, q.promptTokens) }

  /** The report of a run. */
  ghost function ReportOf(config: Config, requests: seq<Request>, cancelled: nat -> bool): Report {
    var (last, steps) := FullRun(config, requests, cancelled);
    Report(last.results, steps,
           RunStats(|steps|, PrefillSteps(steps), DecodeSteps(steps), Sum(requests, PromptTokensOf),
                    Sum(steps, DecodedOf), SnapshotOf(last.kv)))
  }

  /** The positions whose state satisfies `p`. */
  method Collect(states: seq<State>, p: State -> bool) returns (xs: seq<nat>)
    ensures xs == Where(states, p, 0)
  {
    xs := [];
    for i := 0 to |states|
      invariant Where(states, p, 0) == xs + Where(states, p, i)
    {
      if p(states[i]) {
        xs := xs + [i];
      }
    }
  }

  class ContinuousBatcher {
    const config: Config

    constructor (input: Config)
      ensures config == Clamped(input)
    {
      config := Clamped(input);
    }

    method PrefillPass(allocator: KvBlockAllocator, states0: seq<State>, results0: seq<Result>)
      returns (states: seq<State>, results: seq<Result>, used: int)
      requires allocator.Valid() && Shaped(Sys(allocator.View(), states0, results0))
      modifies allocator
      ensures allocator.Valid()
      ensures (Sys(allocator.View(), states, results), used) == AfterPrefill(config, Sys(old(allocator.View()), states0, results0))
    {
      hide Inv, AllocatePrompt, Admit, Shaped, Rank;
      states, results, used := states0, results0, 0;
      ghost var sys := Sys(allocator.View(), states, results);
      var candidates := Collect(states, Waiting);
      candidates := Rank(states, candidates);
      var budget := config.prefillBudget;
      var k := 0;
      assert candidates[0..] == candidates;
      while k < |candidates| && budget > 0
        invariant 0 <= k <= |candidates| && allocator.Valid()
        invariant Indices(states, candidates) && Indices(states, candidates[k..])
        invariant Shaped(Sys(allocator.View(), states, results))
        invariant |states| == |states0|
        invariant var rest := PrefillPhase(Sys(allocator.View(), states, results), candidates[k..], budget);
                  PrefillPhase(sys, candidates, config.prefillBudget) == (rest.0, used + rest.1)
      {
        var i := candidates[k];
        ghost var before := Sys(allocator.View(), states, results);
        assert candidates[k..][0] == i && candidates[k..][1..] == candidates[k + 1..];
        var consumed;
        states, results, consumed := AdmitOne(allocator, states, results, i, budget);
        used, budget, k := used + consumed, budget - consumed, k + 1;
      }
    }

    /** One prefill candidate's turn. */
    method AdmitOne(allocator: KvBlockAllocator, states0: seq<State>, results0: seq<Result>, i: nat, budget: int)
      returns (states: seq<State>, results: seq<Result>, consumed: int)
      requires allocator.Valid() && Shaped(Sys(allocator.View(), states0, results0)) && i < |states0|
      modifies allocator
      ensures allocator.Valid()
      ensures (Sys(allocator.View(), states, results), consumed) == Admit(Sys(old(allocator.View()), states0, results0), i, budget)
    {
      hide Inv, PromptOutcome, Peak, KvCache.AllocatePrompt, KvCache.SequenceBlockCount;
      states, results := states0, results0;
      var state := states[i];
      if !state.promptAllocated {
        var allocation := allocator.AllocatePrompt(
          state.request.id, state.request.promptTokens, state.request.key, state.request.prefixTokens);
        if !allocation.ok {
          var held := allocator.SequenceBlockCount(state.request.id);
          results := results[i := results[i].(status := Rejected, message := allocation.message, kvBlocks := held)];
          states := states[i := state.(done := true)];
          return states, results, 0;
        }
        state := state.(promptAllocated := true);
        results := results[i := results[i].(cacheHit := allocation.cacheHit)];
      }
      consumed := Min(budget, state.prefillRemaining);
      state := state.(prefillRemaining := state.prefillRemaining - consumed);
      if state.prefillRemaining == 0 {
        state := state.(promptReady := true);
      }
      states := states[i := state];
      assert states0[i := states0[i].(promptAllocated := true)][i := state] == states;
    }

    method DecodePass(allocator: KvBlockAllocator, states0: seq<State>, results0: seq<Result>, t: int)
      returns (states: seq<State>, results: seq<Result>, ids: seq<string>)
      requires allocator.Valid() && Shaped(Sys(allocator.View(), states0, results0)) && config.decodeWidth > 0
      modifies allocator
      ensures allocator.Valid()
      ensures (Sys(allocator.View(), states, results), ids) == AfterDecode(config, Sys(old(allocator.View()), states0, results0), t)
    {
      hide Inv, Decode, Before, FreeCount, Where;
      states, results, ids := states0, results0, [];
      ghost var sys := Sys(allocator.View(), states, results);
      var candidates := Collect(states, Decoding);
      candidates := Rank(states, candidates);
      var limit := Min(config.decodeWidth, |candidates|);
      ghost var turns := candidates[..limit];
      assert turns == DecodeTurns(config, states);
      var offset := 0;
      assert turns[0..] == turns;
      while offset < limit
        invariant 0 <= offset <= limit <= |candidates| && allocator.Valid()
        invariant Indices(states, turns) && Indices(states, turns[offset..])
        invariant Shaped(Sys(allocator.View(), states, results))
        invariant |states| == |states0|
        invariant var all, rest := DecodePhase(sys, turns, t), DecodePhase(Sys(allocator.View(), states, results), turns[offset..], t);
                  all.0 == rest.0 && all.1 == ids + rest.1
      {
        var i := candidates[offset];
        assert turns[offset..][0] == i && turns[offset..][1..] == turns[offset + 1..];
        var id, decoded := states[i].request.id, false;
        states, results, decoded := DecodeOne(allocator, states, results, i, t);
        if decoded {
          ids := ids + [id];
        }
        offset := offset + 1;
      }
      assert turns[offset..] == [] && ids + [] == ids;
    }

    /** One decode candidate's turn. */
    method DecodeOne(allocator: KvBlockAllocator, states0: seq<State>, results0: seq<Result>, i: nat, t: int)
      returns (states: seq<State>, results: seq<Result>, decoded: bool)
      requires allocator.Valid() && Shaped(Sys(allocator.View(), states0, results0)) && i < |states0|
      modifies allocator
      ensures allocator.Valid()
      ensures (Sys(allocator.View(), states, results), decoded) == Decode(Sys(old(allocator.View()), states0, results0), i, t)
    {
      hide Inv, AppendOutcome, Peak, KvCache.AppendTokens, KvCache.SequenceBlockCount, KvCache.ReleaseSequence;
      states, results := states0, results0;
      var state := states[i];
      var id := state.request.id;
      var allocation := allocator.AppendTokens(id, 1);
      if !allocation.ok {
        var held := allocator.SequenceBlockCount(id);
        results := results[i := results[i].(status := Rejected, message := allocation.message,
                                            generatedTokens := state.generated, kvBlocks := held)];
        allocator.ReleaseSequence(id);
        states := states[i := state.(done := true)];
        return states, results, false;
      }
      state := state.(generated := state.generated + 1);
      if results[i].firstTokenStep < 0 {
        results := results[i := results[i].(firstTokenStep := t)];
      }
      ghost var counted := results;
      if state.generated == state.request.maxTokens {
        var held := allocator.SequenceBlockCount(id);
        results := results[i := results[i].(status := Completed, message := "completed",
                                            generatedTokens := state.generated, completionStep := t, kvBlocks := held)];
        allocator.ReleaseSequence(id);
        assert states0[i := state][i := state.(done := true)] == states0[i := state.(done := true)];
        state := state.(done := true);
      }
      states := states[i := state];
      assert counted == results0[i := counted[i]];
      return states, results, true;
    }

    method FinishPass(allocator: KvBlockAllocator, states0: seq<State>, results0: seq<Result>, t: int)
      returns (states: seq<State>, results: seq<Result>)
      requires allocator.Valid() && Shaped(Sys(allocator.View(), states0, results0))
      modifies allocator
      ensures allocator.Valid()
      ensures Sys(allocator.View(), states, results) == FinishPhase(Sys(old(allocator.View()), states0, results0), 0, t)
    {
      hide Inv, Peak, KvCache.SequenceBlockCount, KvCache.ReleaseSequence;
      states, results := states0, results0;
      ghost var sys := Sys(allocator.View(), states, results);
      for i := 0 to |states0|
        invariant allocator.Valid() && |states| == |states0|
        invariant Shaped(Sys(allocator.View(), states, results))
        invariant FinishPhase(Sys(allocator.View(), states, results), i, t) == FinishPhase(sys, 0, t)
      {
        var state := states[i];
        if NothingToDecode(state) {
          var held := allocator.SequenceBlockCount(state.request.id);
          results := results[i := results[i].(status := Completed, message := "completed", completionStep := t,
                                              kvBlocks := held)];
          allocator.ReleaseSequence(state.request.id);
          states := states[i := state.(done := true)];
        }
      }
    }

    method CancelPass(allocator: KvBlockAllocator, states0: seq<State>, results0: seq<Result>)
      returns (states: seq<State>, results: seq<Result>)
      requires allocator.Valid() && Shaped(Sys(allocator.View(), states0, results0))
      modifies allocator
      ensures allocator.Valid()
      ensures Sys(allocator.View(), states, results) == CancelFrom(Sys(old(allocator.View()), states0, results0), 0)
    {
      hide Inv, Peak, KvCache.ReleaseSequence;
      states, results := states0, results0;
      ghost var sys := Sys(allocator.View(), states, results);
      for i := 0 to |states0|
        invariant allocator.Valid() && |states| == |states0|
        invariant Shaped(Sys(allocator.View(), states, results))
        invariant CancelFrom(Sys(allocator.View(), states, results), i) == CancelFrom(sys, 0)
      {
        var state := states[i];
        if !state.done {
          results := results[i := results[i].(status := Cancelled, message := "cancelled")];
          allocator.ReleaseSequence(state.request.id);
          states := states[i := state.(done := true)];
        }
      }
    }

    /** One scheduler step: prefill, decode, finish, and the step's record. */
    method StepOnce(allocator: KvBlockAllocator, states0: seq<State>, results0: seq<Result>, t: int)
      returns (states: seq<State>, results: seq<Result>, step: Step)
      requires allocator.Valid() && Shaped(Sys(allocator.View(), states0, results0)) && config.decodeWidth > 0
      modifies allocator
      ensures allocator.Valid()
      ensures (Sys(allocator.View(), states, results), step) == TakeStep(config, Sys(old(allocator.View()), states0, results0), t)
    {
      hide Inv, Peak, AfterPrefill, AfterDecode, FinishPhase;
      var queued := Count(states0, Unfinished);
      var used;
      states, results, used := PrefillPass(allocator, states0, results0);
      var ids;
      states, results, ids := DecodePass(allocator, states, results, t);
      states, results := FinishPass(allocator, states, results, t);
      var blocks := allocator.UsedBlockCount();
      step := Step(t, used, |ids|, queued, Count(states, Active), blocks, ids);
    }

    /** Queues every request, normalized. */
    method Enqueue(requests: seq<Request>) returns (states: seq<State>, results: seq<Result>, promptTokens: int)
      ensures states == InitialStates(requests) && results == InitialResults(requests)
      ensures promptTokens == Sum(requests, PromptTokensOf)
    {
      states, results, promptTokens := [], [], 0;
      for index := 0 to |requests|
        invariant states == InitialStates(requests[..index]) && results == InitialResults(requests[..index])
        invariant promptTokens == Sum(requests[..index], PromptTokensOf)
      {
        var request := Normalized(requests[index]);
        promptTokens := promptTokens + request.promptTokens;
        results := results + [InitialResult(requests[index])];
        states := states + [InitialState(requests[index])];
        assert requests[..index + 1][..index] == requests[..index];
      }
      assert requests[..|requests|] == requests;
    }

    /** The step loop of `Run`. */
    method RunSteps(allocator: KvBlockAllocator, states0: seq<State>, results0: seq<Result>, cancelled: nat -> bool)
      returns (results: seq<Result>, steps: seq<Step>, prefillSteps: int, decodeSteps: int, generated: int)
      requires allocator.Valid() && Boundary(Sys(allocator.View(), states0, results0)) && Usable(config)
      modifies allocator
      ensures allocator.Valid()
      ensures var (last, all) := RunFrom(config, Sys(old(allocator.View()), states0, results0), 0, cancelled);
              allocator.View() == last.kv && results == last.results && steps == all
      ensures prefillSteps == PrefillSteps(steps) && decodeSteps == DecodeSteps(steps) && generated == Sum(steps, DecodedOf)
    {
      hide Inv, Boundary, RunFrom, TakeStep, CancelFrom, Work, Peak, Count;
      var states := states0;
      results := results0;
      ghost var start := Sys(allocator.View(), states, results);
      steps, prefillSteps, decodeSteps, generated := [], 0, 0, 0;
      var t := 0;
      while true
        invariant allocator.Valid() && Boundary(Sys(allocator.View(), states, results))
        invariant t == |steps|
        invariant var all, rest := RunFrom(config, start, 0, cancelled),
                                   RunFrom(config, Sys(allocator.View(), states, results), t, cancelled);
                  all.0 == rest.0 && all.1 == steps + rest.1
        invariant prefillSteps == PrefillSteps(steps) && decodeSteps == DecodeSteps(steps)
        invariant generated == Sum(steps, DecodedOf)
        decreases Sum(states, Work)
      {
        ghost var sys := Sys(allocator.View(), states, results);
        BoundaryFacts(sys);
        RunStops(config, sys, t, cancelled);
        assert steps + [] == steps;
        if Count(states, Unfinished) == 0 {
          return;
        }
        if cancelled(t) {
          states, results := CancelPass(allocator, states, results);
          return;
        }
        CountIsZero(states);
        StepTheorem(config, sys, t);
        SumNatural(states);
        var step;
        states, results, step := StepOnce(allocator, states, results, t);
        RunUnfolds(config, sys, t, cancelled);
        assert (steps + [step])[..|steps|] == steps;
        prefillSteps := prefillSteps + if step.prefillTokens > 0 then 1 else 0;
        if step.decodedTokens > 0 {
          decodeSteps := decodeSteps + 1;
          generated := generated + step.decodedTokens;
        }
        steps := steps + [step];
        t := t + 1;
      }
    }

    /** Runs all requests to the end; `cancelled(n)` is what the callback answers before step `n`. */
    method Run(requests: seq<Request>, cancelled: nat -> bool) returns (report: Report)
      requires config == Clamped(config)
      ensures report == ReportOf(config, requests, cancelled)
    {
      hide Inv, Boundary, RunFrom, Peak;
      var states, results, promptTokens := Enqueue(requests);
      var allocator := new KvBlockAllocator(config.kvBlocks, config.kvBlockTokens);
      StartIsValid(config, requests);
      var steps, prefillSteps, decodeSteps, generated;
      results, steps, prefillSteps, decodeSteps, generated := RunSteps(allocator, states, results, cancelled);
      var kv := allocator.Stats();
      report := Report(results, steps, RunStats(|steps|, prefillSteps, decodeSteps, promptTokens, generated, kv));
    }
  }
}
