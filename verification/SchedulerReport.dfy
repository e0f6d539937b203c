/** What a run's report says, counted independently of how the run counts it. */
module SchedulerReport {
  import opened ContinuousBatcher
  import opened KvCache
  import opened KvInvariant
  import opened KvStats
  import opened KvSequence
  import opened KvTheory
  import opened Scheduler
  import opened SchedulerBudget
  import opened SchedulerCache
  import opened SchedulerInvariant
  import opened SchedulerPhases
  import opened SchedulerRun
  import opened SchedulerTheorems
  import opened SchedulerTiming
  import opened SchedulerTrace
  import opened Sums

  // ------------------------------------------------------- hits and failures

  const EXHAUSTED := "kv cache exhausted"

  const REFUSALS := {EXHAUSTED, "sequence id is required", "sequence already exists"}

  function HitOf(r: Result): int { if r.cacheHit then 1 else 0 }

  function ExhaustedOf(r: Result): int { if r.message == EXHAUSTED then 1 else 0 }

  /** A request that has no prompt blocks reports no hit, and every result says how its request stands. */
  predicate Worded(s: State, r: Result) {
    && (!s.promptAllocated ==> !r.cacheHit)
    && (!s.done ==> r.message == "queued")
    && (s.done ==> EndsAs(r))
  }

  /** What a final result says. */
  predicate EndsAs(r: Result) {
    match r.status
    case Completed => r.message == "completed"
    case Cancelled => r.message == "cancelled"
    case Rejected => r.message in REFUSALS
  }

  ghost predicate AllWorded(sys: Sys) {
    |sys.results| == |sys.states| && forall i: nat | i < |sys.states| :: Worded(sys.states[i], sys.results[i])
  }

  /** The cache's hits and failures are those the results report. */
  ghost predicate Tallied(sys: Sys) {
    && AllWorded(sys)
    && Sum(sys.results, HitOf) == sys.kv.stats.prefixHits
    && Sum(sys.results, ExhaustedOf) == sys.kv.stats.failures
  }

  lemma TallyMoves(a: Sys, b: Sys, i: nat)
    requires Tallied(a) && i < |a.states| && OnlyAt(a, b, i)
    requires Worded(b.states[i], b.results[i])
    requires b.kv.stats.prefixHits - a.kv.stats.prefixHits == HitOf(b.results[i]) - HitOf(a.results[i])
    requires b.kv.stats.failures - a.kv.stats.failures == ExhaustedOf(b.results[i]) - ExhaustedOf(a.results[i])
    ensures Tallied(b)
  {
    hide Worded, HitOf, ExhaustedOf, Sum;
    SumUpdate(a.results, i, b.results[i], HitOf);
    SumUpdate(a.results, i, b.results[i], ExhaustedOf);
  }

  lemma WordedAt(sys: Sys, i: nat)
    requires AllWorded(sys) && i < |sys.states|
    ensures |sys.results| == |sys.states| && Worded(sys.states[i], sys.results[i])
  {
  }

  lemma AdmitWords(sys: Sys, i: nat, budget: int)
    requires Shaped(sys) && i < |sys.states| && Waiting(sys.states[i]) && Worded(sys.states[i], sys.results[i])
    requires !sys.states[i].promptReady && sys.results[i].status == Rejected
    ensures var after := Admit(sys, i, budget).0;
            && |after.states| == |sys.states| && |after.results| == |sys.results|
            && Worded(after.states[i], after.results[i])
            && after.kv.stats.prefixHits - sys.kv.stats.prefixHits == HitOf(after.results[i]) - HitOf(sys.results[i])
            && after.kv.stats.failures - sys.kv.stats.failures == ExhaustedOf(after.results[i]) - ExhaustedOf(sys.results[i])
  {
    hide AllocatePrompt, Cacheable;
    var q := sys.states[i].request;
    if !sys.states[i].promptAllocated {
      PromptCounts(sys.kv, q.id, q.promptTokens, q.key, q.prefixTokens);
    }
  }

  lemma AdmitTallies(sys: Sys, i: nat, budget: int)
    requires SysInv(sys) && i < |sys.states| && Waiting(sys.states[i]) && budget > 0 && Tallied(sys)
    ensures Tallied(Admit(sys, i, budget).0)
  {
    hide SysInv, Admit, Worded, HitOf, ExhaustedOf, Sum, Inv;
    SysFacts(sys);
    AdmitTurn(sys, i, budget);
    WordedAt(sys, i);
    AdmitWords(sys, i, budget);
    TallyMoves(sys, Admit(sys, i, budget).0, i);
  }

  lemma DecodeWords(sys: Sys, i: nat, t: int)
    requires Shaped(sys) && Inv(sys.kv) && i < |sys.states| && Decoding(sys.states[i])
    requires Worded(sys.states[i], sys.results[i]) && sys.states[i].promptAllocated
    requires sys.states[i].request.id in sys.kv.sequences
    ensures var after := Decode(sys, i, t).0;
            && |after.states| == |sys.states| && |after.results| == |sys.results|
            && Worded(after.states[i], after.results[i])
            && after.kv.stats.prefixHits - sys.kv.stats.prefixHits == HitOf(after.results[i]) - HitOf(sys.results[i])
            && after.kv.stats.failures - sys.kv.stats.failures == ExhaustedOf(after.results[i]) - ExhaustedOf(sys.results[i])
  {
    hide Inv, AppendTokens;
    var id := sys.states[i].request.id;
    AppendCounts(sys.kv, id, 1);
    ReleaseCountsNothing(AppendTokens(sys.kv, id, 1).0, id);
  }

  lemma ReleaseCountsNothing(kv: Kv, id: string)
    ensures ReleaseSequence(kv, id).stats == kv.stats
  {
  }

  lemma DecodeTallies(sys: Sys, i: nat, t: int)
    requires SysInv(sys) && i < |sys.states| && Decoding(sys.states[i]) && t >= 0 && Tallied(sys)
    ensures Tallied(Decode(sys, i, t).0)
  {
    hide SysInv, Decode, Worded, HitOf, ExhaustedOf, Sum, Inv;
    SysFacts(sys);
    var (after, decoded) := Decode(sys, i, t);
    DecodeTurn(sys, i, t);
    LiveOwns(sys, i);
    DecodedMovesOne(sys, i, t, after, decoded);
    WordedAt(sys, i);
    DecodeWords(sys, i, t);
    TallyMoves(sys, after, i);
  }

  lemma FinishTallies(sys: Sys, i: nat, t: int)
    requires SysInv(sys) && i < |sys.states| && Tallied(sys)
    ensures Tallied(FinishOne(sys, i, t))
  {
    hide SysInv, Sum, Inv;
    SysFacts(sys);
    FinishTurn(sys, i, t);
    WordedAt(sys, i);
    if NothingToDecode(sys.states[i]) {
      ReleaseCountsNothing(sys.kv, sys.states[i].request.id);
      TallyMoves(sys, FinishOne(sys, i, t), i);
    }
  }

  lemma {:induction false} PrefillTallies(sys: Sys, xs: seq<nat>, budget: int)
    requires SysInv(sys) && Indices(sys.states, xs) && Ranked(sys.states, xs) && Tallied(sys)
    requires forall k | 0 <= k < |xs| :: Waiting(sys.states[xs[k]])
    ensures Tallied(PrefillPhase(sys, xs, budget).0)
    decreases |xs|
  {
    hide SysInv, Inv, Admit, Tallied, Admitted;
    SysFacts(sys);
    if xs != [] && budget > 0 {
      AdmitTurn(sys, xs[0], budget);
      AdmitTallies(sys, xs[0], budget);
      var (next, consumed) := Admit(sys, xs[0], budget);
      RestWaits(sys, xs, budget, next, consumed);
      PrefillTallies(next, xs[1..], budget - consumed);
    }
  }

  lemma {:induction false} DecodePhaseTallies(sys: Sys, xs: seq<nat>, t: int)
    requires SysInv(sys) && Indices(sys.states, xs) && Ranked(sys.states, xs) && t >= 0 && Tallied(sys)
    requires forall k | 0 <= k < |xs| :: Decoding(sys.states[xs[k]])
    ensures Tallied(DecodePhase(sys, xs, t).0)
    decreases |xs|
  {
    hide SysInv, Inv, Decode, Tallied;
    SysFacts(sys);
    if xs != [] {
      DecodeTurn(sys, xs[0], t);
      DecodeTallies(sys, xs[0], t);
      var (next, decoded) := Decode(sys, xs[0], t);
      forall k | 1 <= k < |xs|
        ensures xs[k] != xs[0]
      {
        assert Before(sys.states, xs[0], xs[k]);
      }
      DecodePhaseTallies(next, xs[1..], t);
    }
  }

  lemma {:induction false} FinishPhaseTallies(sys: Sys, from: nat, t: int)
    requires SysInv(sys) && from <= |sys.states| && Tallied(sys)
    ensures Tallied(FinishPhase(sys, from, t))
    decreases |sys.states| - from
  {
    hide SysInv, Inv, FinishOne, Tallied;
    SysFacts(sys);
    if from < |sys.states| {
      FinishTurn(sys, from, t);
      FinishTallies(sys, from, t);
      FinishPhaseTallies(FinishOne(sys, from, t), from + 1, t);
    }
  }

  lemma StepTallies(config: Config, sys: Sys, t: int)
    requires Boundary(sys) && t >= 0 && Tallied(sys)
    ensures Shaped(sys) && Tallied(TakeStep(config, sys, t).0)
  {
    hide *;
    InvAtBoundary(sys);
    SysFacts(sys);
    Candidates(sys.states, Waiting);
    var xs := PrefillTurns(sys.states);
    InTurn(xs);
    AfterPrefillIs(config, sys);
    PrefillTallies(sys, xs, config.prefillBudget);
    PrefillOfStep(config, sys);
    PrefillPhaseEffect(sys, xs, config.prefillBudget);
    var mid := AfterPrefill(config, sys).0;
    EffectKeepsInv(sys, xs, config.prefillBudget, mid, AfterPrefill(config, sys).1);
    SysFacts(mid);
    TurnsAreRanked(config, mid.states);
    AfterDecodeIs(config, mid, t);
    DecodePhaseTallies(mid, DecodeTurns(config, mid.states), t);
    DecodeOfStep(config, mid, t);
    var (late, ids) := AfterDecode(config, mid, t);
    DecodeKeepsInv(mid, DecodeTurns(config, mid.states), t, late, ids);
    SysFacts(late);
    FinishPhaseTallies(late, 0, t);
    StepIs(config, sys, t);
  }

  lemma InTurn(xs: seq<nat>)
    ensures forall k | 0 <= k < |xs| :: xs[k] in xs
  {
  }

  lemma AfterPrefillIs(config: Config, sys: Sys)
    requires Shaped(sys)
    ensures AfterPrefill(config, sys) == PrefillPhase(sys, PrefillTurns(sys.states), config.prefillBudget)
    ensures PrefillTurns(sys.states) == Rank(sys.states, Where(sys.states, Waiting, 0))
  {
    hide PrefillPhase, Rank, Where;
  }

  lemma EffectKeepsInv(sys: Sys, xs: seq<nat>, budget: int, after: Sys, total: int)
    requires Indices(sys.states, xs) && |sys.results| == |sys.states| && PrefillEffect(sys, xs, budget, after, total)
    ensures SysInv(after)
  {
    hide SysInv, Prefilled, Sum, Work;
  }

  lemma DecodeKeepsInv(sys: Sys, xs: seq<nat>, t: int, after: Sys, ids: seq<string>)
    requires Indices(sys.states, xs) && |sys.results| == |sys.states| && DecodeEffect(sys, xs, t, after, ids)
    ensures SysInv(after)
  {
    hide SysInv, Decoded, Sum, DecodedIds;
  }

  lemma {:induction false} SameResultSum(a: seq<Result>, b: seq<Result>, f: Result -> int)
    requires |a| == |b| && forall i | 0 <= i < |a| :: f(a[i]) == f(b[i])
    ensures Sum(a, f) == Sum(b, f)
  {
    if a != [] {
      SameResultSum(a[..|a| - 1], b[..|b| - 1], f);
    }
  }

  lemma {:induction false} CancelCountsNothing(sys: Sys, from: nat)
    requires Shaped(sys) && from <= |sys.states|
    ensures CancelFrom(sys, from).kv.stats == sys.kv.stats
    decreases |sys.states| - from
  {
    hide ReleaseSequence;
    if from < |sys.states| {
      ReleaseCountsNothing(sys.kv, sys.states[from].request.id);
      CancelCountsNothing(CancelOne(sys, from), from + 1);
    }
  }

  lemma CancelTallies(sys: Sys)
    requires Shaped(sys) && Tallied(sys)
    ensures Tallied(CancelFrom(sys, 0))
  {
    CancelMarks(sys, 0);
    CancelCountsNothing(sys, 0);
    var after := CancelFrom(sys, 0);
    hide Sum, CancelFrom;
    forall i: nat | i < |sys.states|
      ensures Worded(after.states[i], after.results[i])
      ensures HitOf(after.results[i]) == HitOf(sys.results[i]) && ExhaustedOf(after.results[i]) == ExhaustedOf(sys.results[i])
    {
      assert Worded(sys.states[i], sys.results[i]);
      assert CancelledAs(sys.states[i], sys.results[i], after.states[i], after.results[i]);
    }
    SameResultSum(after.results, sys.results, HitOf);
    SameResultSum(after.results, sys.results, ExhaustedOf);
  }

  lemma {:induction false} NoneAtStart(requests: seq<Request>)
    ensures Sum(InitialResults(requests), HitOf) == 0 && Sum(InitialResults(requests), ExhaustedOf) == 0
  {
    if requests != [] {
      var n := |requests| - 1;
      NoneAtStart(requests[..n]);
      assert InitialResults(requests)[..n] == InitialResults(requests[..n]);
    }
  }

  lemma StartTallies(config: Config, requests: seq<Request>)
    ensures Tallied(Start(config, requests))
  {
    NoneAtStart(requests);
  }

  lemma AtStart(config: Config, requests: seq<Request>)
    ensures BeforeStep(config, requests, 0) == Start(Clamped(config), requests)
  {
    hide Start, Clamped;
  }

  lemma {:induction false} TraceTallies(config: Config, requests: seq<Request>, n: nat)
    ensures Tallied(BeforeStep(config, requests, n))
  {
    hide *;
    if n == 0 {
      AtStart(config, requests);
      StartTallies(Clamped(config), requests);
    } else {
      TraceTallies(config, requests, n - 1);
      BeforeStepIsBoundary(config, requests, n - 1);
      NextState(config, requests, n - 1);
      StepTallies(Clamped(config), BeforeStep(config, requests, n - 1), n - 1);
    }
  }

  lemma RunTallies(config: Config, requests: seq<Request>, cancelled: nat -> bool)
    ensures Tallied(FullRun(config, requests, cancelled).0)
  {
    hide *;
    var stop := |FullRun(config, requests, cancelled).1|;
    TraceTheorem(config, requests, cancelled);
    LastOfTrace(config, requests, cancelled, stop);
    TraceTallies(config, requests, stop);
    CancelTallies(BeforeStep(config, requests, stop));
  }

  // ------------------------------------------------------------- the counts

  /** The requests that are not done, and those that are ready and not done. */
  ghost function Open(states: seq<State>): set<nat> {
    set i: nat | i < |states| && !states[i].done
  }

  ghost function Ready(states: seq<State>): set<nat> {
    set i: nat | i < |states| && !states[i].done && states[i].promptReady
  }

  lemma CountIsSize(states: seq<State>, p: State -> bool, s: set<nat>)
    requires forall i: nat :: i in s <==> i < |states| && p(states[i])
    ensures Count(states, p) == |s|
  {
    WhereSelects(states, p, 0);
    var xs := Where(states, p, 0);
    assert Ids(xs) == s;
    DistinctSize(xs);
  }

  /** Each record counts what it says: unfinished requests before the step, ready ones and occupied blocks after it,
      and the ids it decoded. */
  lemma StepRecords(config: Config, sys: Sys, t: int)
    requires Shaped(sys)
    ensures var (after, step) := TakeStep(config, sys, t);
            && step.stepIndex == t && step.queued == |Open(sys.states)| && step.active == |Ready(after.states)|
            && step.kvBlocksUsed == |Occupied(after.kv.blocks)| && step.decodedTokens == |step.decodedIds|
  {
    hide AfterPrefill, AfterDecode, FinishPhase, Count, UsedCount;
    var after := TakeStep(config, sys, t).0;
    CountIsSize(sys.states, Unfinished, Open(sys.states));
    CountIsSize(after.states, Active, Ready(after.states));
    UsedIsOccupied(after.kv.blocks);
  }

  /** The steps in which something was prefilled, and those in which something was decoded. */
  ghost function Prefilling(steps: seq<Step>): set<nat> {
    set k: nat | k < |steps| && steps[k].prefillTokens > 0
  }

  ghost function DecodingSteps(steps: seq<Step>): set<nat> {
    set k: nat | k < |steps| && steps[k].decodedTokens > 0
  }

  lemma {:induction false} PrefillsAreCounted(steps: seq<Step>)
    ensures PrefillSteps(steps) == |Prefilling(steps)|
  {
    if steps == [] {
      assert Prefilling(steps) == {};
    } else {
      var n := |steps| - 1;
      var init := steps[..n];
      PrefillsAreCounted(init);
      assert n !in Prefilling(init);
      assert Prefilling(steps) == if steps[n].prefillTokens > 0 then Prefilling(init) + {n} else Prefilling(init);
    }
  }

  lemma {:induction false} DecodesAreCounted(steps: seq<Step>)
    ensures DecodeSteps(steps) == |DecodingSteps(steps)|
  {
    if steps == [] {
      assert DecodingSteps(steps) == {};
    } else {
      var n := |steps| - 1;
      var init := steps[..n];
      DecodesAreCounted(init);
      assert n !in DecodingSteps(init);
      assert DecodingSteps(steps) == if steps[n].decodedTokens > 0 then DecodingSteps(init) + {n} else DecodingSteps(init);
    }
  }

  /** The report: its statistics count its steps and results, its hits and failures are the cache's, no sequence
      is left, and every result says how its request ended. */
  lemma ReportTheorem(config: Config, requests: seq<Request>, cancelled: nat -> bool)
    ensures var report := ReportOf(config, requests, cancelled);
            var stats := report.stats;
            && stats.totalSteps == |report.steps|
            && stats.prefillSteps == |Prefilling(report.steps)| && stats.decodeSteps == |DecodingSteps(report.steps)|
            && stats.totalGeneratedTokens == Sum(report.steps, DecodedOf)
            && Sum(report.results, HitOf) == stats.kvCache.stats.prefixHits
            && Sum(report.results, ExhaustedOf) == stats.kvCache.stats.failures
            && stats.kvCache.activeSequences == 0
            && (var kv := FullRun(config, requests, cancelled).0.kv;
                && stats.kvCache.totalBlocks == |kv.blocks| && stats.kvCache.usedBlocks == |Occupied(kv.blocks)|
                && stats.kvCache.freeBlocks == |kv.blocks| - |Occupied(kv.blocks)|
                && stats.kvCache.cachedPrefixes == |kv.prefixes|)
  {
    hide *;
    UsedIsOccupied(FullRun(config, requests, cancelled).0.kv.blocks);
    RunTallies(config, requests, cancelled);
    ResourceReturnTheorem(config, requests, cancelled);
    PrefillsAreCounted(FullRun(config, requests, cancelled).1);
    DecodesAreCounted(FullRun(config, requests, cancelled).1);
    ReportIs(config, requests, cancelled);
  }

  lemma ReportIs(config: Config, requests: seq<Request>, cancelled: nat -> bool)
    requires Tallied(FullRun(config, requests, cancelled).0)
    ensures var (last, steps) := FullRun(config, requests, cancelled);
            var report := ReportOf(config, requests, cancelled);
            && report.results == last.results && report.steps == steps
            && report.stats.totalSteps == |steps|
            && report.stats.prefillSteps == PrefillSteps(steps) && report.stats.decodeSteps == DecodeSteps(steps)
            && report.stats.totalGeneratedTokens == Sum(steps, DecodedOf)
            && report.stats.kvCache.activeSequences == |last.kv.sequences|
            && report.stats.kvCache.totalBlocks == |last.kv.blocks| && report.stats.kvCache.usedBlocks == UsedCount(last.kv.blocks)
            && report.stats.kvCache.freeBlocks == |last.kv.blocks| - UsedCount(last.kv.blocks)
            && report.stats.kvCache.cachedPrefixes == |last.kv.prefixes|
            && Sum(report.results, HitOf) == report.stats.kvCache.stats.prefixHits
            && Sum(report.results, ExhaustedOf) == report.stats.kvCache.stats.failures
  {
    hide FullRun, Sum, AllWorded;
  }

  /** A record counts the states around its step. */
  ghost predicate RecordCounts(step: Step, k: nat, before: Sys, after: Sys) {
    && step.stepIndex == k && step.queued == |Open(before.states)| && step.active == |Ready(after.states)|
    && step.kvBlocksUsed == |Occupied(after.kv.blocks)| && step.decodedTokens == |step.decodedIds|
  }

  lemma RecordIsCount(config: Config, requests: seq<Request>, k: nat)
    ensures RecordCounts(TakeStep(Clamped(config), BeforeStep(config, requests, k), k).1, k,
                         BeforeStep(config, requests, k), BeforeStep(config, requests, k + 1))
  {
    hide BeforeStep, TakeStep, Clamped, Open, Ready, Occupied;
    NextState(config, requests, k);
    StepRecords(Clamped(config), BeforeStep(config, requests, k), k);
  }

  /** Every record of a run counts the states around its step, and every result says how its request ended. */
  lemma RecordTheorem(config: Config, requests: seq<Request>, cancelled: nat -> bool)
    ensures var (last, steps) := FullRun(config, requests, cancelled);
            && (forall k: nat | k < |steps| ::
                  RecordCounts(steps[k], k, BeforeStep(config, requests, k), BeforeStep(config, requests, k + 1)))
            && (forall i: nat | i < |last.results| :: EndsAs(last.results[i]))
  {
    hide *;
    var (last, steps) := FullRun(config, requests, cancelled);
    TraceTheorem(config, requests, cancelled);
    forall k: nat | k < |steps|
      ensures RecordCounts(steps[k], k, BeforeStep(config, requests, k), BeforeStep(config, requests, k + 1))
    {
      RecordAt(config, requests, cancelled, |steps|, k);
      RecordIsCount(config, requests, k);
    }
    RunTallies(config, requests, cancelled);
    TerminationTheorem(config, requests, cancelled);
    DoneWords(last);
  }

  lemma DoneWords(last: Sys)
    requires Tallied(last) && AllDone(last.states)
    ensures |last.results| == |last.states|
    ensures forall i: nat | i < |last.results| :: EndsAs(last.results[i])
  {
    forall i: nat | i < |last.results| ensures Worded(last.states[i], last.results[i]) {}
  }
}
