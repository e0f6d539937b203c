/** What every run of the continuous batcher guarantees, for all requests, configurations and
    cancellations. */
module SchedulerTheorems {
  import opened KvCache
  import opened KvInvariant
  import opened KvOperations
  import opened KvSequence
  import opened KvHistory
  import opened Scheduler
  import opened SchedulerInvariant
  import opened SchedulerPhases
  import opened SchedulerRun
  import opened SchedulerTiming
  import opened SchedulerTrace
  import opened SchedulerCache
  import opened Sums

  // ------------------------------------------------------------ termination

  /** Every run ends with all requests done, one record per step, and no more steps than there is
      work at its start. */
  lemma {:induction false} RunEnds(config: Config, sys: Sys, t: nat, cancelled: nat -> bool)
    requires Boundary(sys) && Usable(config)
    ensures var (last, steps) := RunFrom(config, sys, t, cancelled);
            && AllDone(last.states) && SameRequests(sys.states, last.states)
            && |last.results| == |last.states|
            && |steps| <= Sum(sys.states, Work)
            && forall k | 0 <= k < |steps| :: steps[k].stepIndex == t + k
    decreases Sum(sys.states, Work)
  {
    hide SysInv, NoIdleReady, InOrder, Work, Sum, Admit, AfterDecode, AfterPrefill, BlockOk, CancelOne;
    SysFacts(sys);
    SumNatural(sys.states);
    CountIsZero(sys.states);
    if !AllDone(sys.states) {
      if cancelled(t) {
        CancelMarks(sys, 0);
      } else {
        StepTheorem(config, sys, t);
        RunEnds(config, TakeStep(config, sys, t).0, t + 1, cancelled);
      }
    }
  }

  /** Prompt tokens, generated tokens, and one: the most steps a request can account for. */
  function MostSteps(q: Request): int {
    Max(0, q.promptTokens) + Max(0, q.maxTokens) + 1
  }

  lemma {:induction false} WorkAtStart(requests: seq<Request>)
    ensures Sum(InitialStates(requests), Work) == Sum(requests, MostSteps)
  {
    if requests != [] {
      WorkAtStart(requests[..|requests| - 1]);
      assert InitialStates(requests)[..|requests| - 1] == InitialStates(requests[..|requests| - 1]);
    }
  }

  /** `Run` ends for every input, after at most the sum of (prompt + max generated + 1) steps. */
  lemma TerminationTheorem(config: Config, requests: seq<Request>, cancelled: nat -> bool)
    ensures var (last, steps) := FullRun(config, requests, cancelled);
            && AllDone(last.states) && |last.results| == |requests|
            && |steps| <= Sum(requests, MostSteps)
            && forall k | 0 <= k < |steps| :: steps[k].stepIndex == k
  {
    hide Boundary, Work, Sum;
    StartIsValid(Clamped(config), requests);
    StartIsValid(config, requests);
    RunEnds(Clamped(config), Start(Clamped(config), requests), 0, cancelled);
    WorkAtStart(requests);
  }

  // ---------------------------------------------------------- resource return

  ghost predicate OwnedBehind(sequences: map<string, Sequence>, states: seq<State>, from: nat) {
    forall id | id in sequences :: UnfinishedBehind(states, from, id)
  }

  ghost predicate UnfinishedBehind(states: seq<State>, from: nat, id: string) {
    exists i: nat :: from <= i < |states| && !states[i].done && states[i].request.id == id
  }

  /** Cancelling releases every sequence that is left, whichever request it belongs to. */
  lemma {:induction false} CancelReturns(sys: Sys, from: nat)
    requires Shaped(sys) && Inv(sys.kv) && from <= |sys.states| && OwnedBehind(sys.kv.sequences, sys.states, from)
    ensures var after := CancelFrom(sys, from);
            && Inv(after.kv) && after.kv.sequences == map[]
            && Orphans(after.kv) == Orphans(sys.kv) && after.kv.prefixes == sys.kv.prefixes
    decreases |sys.states| - from
  {
    hide Inv, Orphans;
    if from == |sys.states| {
      assert forall id :: !UnfinishedBehind(sys.states, from, id);
    } else {
      var next := CancelOne(sys, from);
      ReleaseTheorem(sys.kv, sys.states[from].request.id);
      forall id | id in next.kv.sequences
        ensures UnfinishedBehind(next.states, from + 1, id)
      {
        assert UnfinishedBehind(sys.states, from, id);
        var i: nat :| from <= i < |sys.states| && !sys.states[i].done && sys.states[i].request.id == id;
        assert i != from && next.states[i] == sys.states[i];
      }
      CancelReturns(next, from + 1);
    }
  }

  lemma CancelReturnsAll(sys: Sys)
    requires SysInv(sys)
    ensures Shaped(sys)
    ensures var after := CancelFrom(sys, 0);
            && Inv(after.kv) && after.kv.sequences == map[]
            && Orphans(after.kv) == Orphans(sys.kv) && after.kv.prefixes == sys.kv.prefixes
  {
    SysFacts(sys);
    forall id | id in sys.kv.sequences
      ensures UnfinishedBehind(sys.states, 0, id)
    {
      assert HasOwner(sys.states, id);
    }
    CancelReturns(sys, 0);
  }

  lemma DoneReturnsAll(sys: Sys)
    requires SysInv(sys) && AllDone(sys.states)
    ensures Inv(sys.kv) && sys.kv.sequences == map[]
  {
    assert forall id :: !HasOwner(sys.states, id);
  }

  lemma {:induction false} RunReturns(config: Config, sys: Sys, t: nat, cancelled: nat -> bool, agree: bool)
    requires Boundary(sys) && Usable(config) && Kept(sys, agree, false)
    ensures var last := RunFrom(config, sys, t, cancelled).0;
            Inv(last.kv) && last.kv.sequences == map[] && (agree ==> Orphans(last.kv) == {})
    decreases Sum(sys.states, Work)
  {
    hide SysInv, Inv, NoIdleReady, InOrder, Work, Orphans, TakeStep;
    SysFacts(sys);
    SumNatural(sys.states);
    CountIsZero(sys.states);
    if AllDone(sys.states) {
      DoneReturnsAll(sys);
    } else if cancelled(t) {
      CancelReturnsAll(sys);
    } else {
      StepTheorem(config, sys, t);
      StepKeeps(config, sys, t, agree, false);
      RunReturns(config, TakeStep(config, sys, t).0, t + 1, cancelled, agree);
    }
  }

  lemma IdleCacheUse(kv: Kv)
    requires Inv(kv) && kv.sequences == map[]
    ensures forall b: nat | b < |kv.blocks| :: kv.blocks[b].occupied <==> b in CachedBlocks(kv) + Orphans(kv)
  {
    forall b: nat | b < |kv.blocks|
      ensures kv.blocks[b].occupied <==> b in CachedBlocks(kv) + Orphans(kv)
    {
      assert BlockOk(kv, {}, b);
      assert Owners(kv.sequences, b) == {};
      if IsCached(kv, b) {
        assert EntryOk(kv, kv.blocks[b].prefixKey);
      }
    }
  }

  /** Requests that share a prefix key share its length. */
  predicate RequestKeysAgree(requests: seq<Request>) {
    forall i, j | 0 <= i < |requests| && 0 <= j < |requests| ::
      requests[i].key == requests[j].key && SharedTokens(requests[i]) > 0 && SharedTokens(requests[j]) > 0 ==>
        SharedTokens(requests[i]) == SharedTokens(requests[j])
  }

  /** On every exit no sequence is left; what stays occupied is cached prefixes, and blocks orphaned by
      a prefix key used with two lengths - so exactly the cached prefixes when the keys agree. */
  lemma ResourceReturnTheorem(config: Config, requests: seq<Request>, cancelled: nat -> bool)
    ensures var kv := FullRun(config, requests, cancelled).0.kv;
            && kv.sequences == map[]
            && (forall b: nat | b < |kv.blocks| :: kv.blocks[b].occupied <==> b in CachedBlocks(kv) + Orphans(kv))
            && (RequestKeysAgree(requests) ==>
                  forall b: nat | b < |kv.blocks| :: kv.blocks[b].occupied <==> b in CachedBlocks(kv))
  {
    var start := Start(Clamped(config), requests);
    StartIsValid(Clamped(config), requests);
    StartIsValid(config, requests);
    var agree := RequestKeysAgree(requests);
    assert agree ==> KeysAgree(start.states);
    StartLeaksNothing(config, requests);
    hide Boundary, Holds, NoLeak, IsCached, Orphans;
    RunReturns(Clamped(config), start, 0, cancelled, agree);
    IdleCacheUse(FullRun(config, requests, cancelled).0.kv);
  }

  lemma StartLeaksNothing(config: Config, requests: seq<Request>)
    ensures NoLeak(Start(Clamped(config), requests))
  {
    FreshIsValid(Clamped(config).kvBlocks, Clamped(config).kvBlockTokens);
  }

  // ------------------------------------------------- order and no preemption

  /** The order `Run` serves requests in. */
  predicate Outranks(requests: seq<Request>, j: nat, i: nat)
    requires i < |requests| && j < |requests|
  {
    requests[j].priority > requests[i].priority || (requests[j].priority == requests[i].priority && j < i)
  }

  lemma FullRunIsWellTimed(config: Config, requests: seq<Request>, cancelled: nat -> bool)
    ensures var last := FullRun(config, requests, cancelled).0;
            && WellTimed(last) && |last.states| == |requests|
            && (forall i: nat | i < |requests| :: last.states[i].request == Normalized(requests[i]))
  {
    hide Boundary, TimeInv, WellTimed;
    var start := Start(Clamped(config), requests);
    StartIsValid(Clamped(config), requests);
    StartIsValid(config, requests);
    RunIsWellTimed(Clamped(config), start, 0, cancelled);
    RunEnds(Clamped(config), start, 0, cancelled);
    assert forall i: nat | i < |requests| :: start.states[i].request == Normalized(requests[i]);
  }

  /** No preemption: a request that completes gets a token in every step from its first to its last. */
  lemma NoPreemptionTheorem(config: Config, requests: seq<Request>, cancelled: nat -> bool, i: nat)
    requires i < |requests| && requests[i].maxTokens >= 1
    ensures var last := FullRun(config, requests, cancelled).0;
            && i < |last.results|
            && (last.results[i].status == Completed ==>
                  last.results[i].completionStep - last.results[i].firstTokenStep == requests[i].maxTokens - 1)
  {
    FullRunIsWellTimed(config, requests, cancelled);
  }

  /** First tokens come in priority order among the requests that get one. */
  lemma FirstTokenTheorem(config: Config, requests: seq<Request>, cancelled: nat -> bool, i: nat, j: nat)
    requires i < |requests| && j < |requests| && Outranks(requests, j, i)
    ensures var last := FullRun(config, requests, cancelled).0;
            && i < |last.results| && j < |last.results|
            && (last.results[i].firstTokenStep >= 0 && last.results[j].firstTokenStep >= 0 ==>
                  last.results[j].firstTokenStep <= last.results[i].firstTokenStep)
  {
    FullRunIsWellTimed(config, requests, cancelled);
    var last := FullRun(config, requests, cancelled).0;
    assert Before(last.states, j, i);
  }

  predicate PartlyPrefilled(s: State) { Live(s) && !s.promptReady }

  /** At every step boundary of every run at most one prompt is partly read; everything ranked before it is
      ready or done, and nothing ranked after it has been touched. */
  lemma StrictPriorityTheorem(config: Config, requests: seq<Request>, cancelled: nat -> bool, n: nat, i: nat, j: nat)
    requires i < |BeforeStep(config, requests, n).states| && j < |BeforeStep(config, requests, n).states|
    requires PartlyPrefilled(BeforeStep(config, requests, n).states[i])
    ensures var states := BeforeStep(config, requests, n).states;
            && (PartlyPrefilled(states[j]) ==> j == i)
            && (Before(states, j, i) ==> Settled(states[j]))
            && (Before(states, i, j) ==> !Touched(states[j]))
    ensures IsTrace(config, requests, cancelled, |FullRun(config, requests, cancelled).1|)
  {
    hide *;
    TraceTheorem(config, requests, cancelled);
    BeforeStepIsBoundary(config, requests, n);
    PartlyReadIsUnique(BeforeStep(config, requests, n), i, j);
  }

  lemma PartlyReadIsUnique(sys: Sys, i: nat, j: nat)
    requires Boundary(sys) && i < |sys.states| && j < |sys.states| && PartlyPrefilled(sys.states[i])
    ensures PartlyPrefilled(sys.states[j]) ==> j == i
    ensures Before(sys.states, j, i) ==> Settled(sys.states[j])
    ensures Before(sys.states, i, j) ==> !Touched(sys.states[j])
  {
    assert InOrder(sys.states);
    hide SysInv, NoIdleReady;
    BeforeIsStrictOrder(sys.states, i, j, i);
  }

  // -------------------------------------------------------------- accounting

  function PrefillOf(step: Step): int { step.prefillTokens }

  function DecodedOf(step: Step): int { step.decodedTokens }

  function GeneratedOf(r: Result): int { r.generatedTokens }

  /** A step stays within both budgets and decodes a sequence at most once. */
  predicate WithinBudget(config: Config, step: Step) {
    && 0 <= step.prefillTokens <= config.prefillBudget
    && step.decodedTokens == |step.decodedIds| <= config.decodeWidth
    && forall a, b | 0 <= a < b < |step.decodedIds| :: step.decodedIds[a] != step.decodedIds[b]
  }

  lemma StepAccounts(config: Config, sys: Sys, t: int)
    requires Boundary(sys) && Usable(config) && t >= 0
    ensures Shaped(sys)
    ensures var (after, step) := TakeStep(config, sys, t);
            && WithinBudget(config, step)
            && step.decodedTokens == Sum(after.states, Generated) - Sum(sys.states, Generated)
            && step.prefillTokens == Sum(sys.states, Remaining) - Sum(after.states, Remaining)
  {
    hide Active, Admit, AfterDecode, Before, Boundary, CacheOk, DecodeTurns, FinishOne, Ids, Sum, SysInv;
    StepStages(config, sys, t);
    hide InOrder, NoIdleReady, Decoded, Prefilled, Finished;
    var (mid, used) := AfterPrefill(config, sys);
    var (late, ids) := AfterDecode(config, mid, t);
    assert DecodedIds(mid.states, DecodeTurns(config, mid.states), late.states, ids);
  }

  lemma {:induction false} RunAccounts(config: Config, sys: Sys, t: nat, cancelled: nat -> bool)
    requires Boundary(sys) && Usable(config)
    ensures var (last, steps) := RunFrom(config, sys, t, cancelled);
            && (forall k | 0 <= k < |steps| :: WithinBudget(config, steps[k]))
            && Sum(steps, DecodedOf) == Sum(last.states, Generated) - Sum(sys.states, Generated)
            && Sum(steps, PrefillOf) == Sum(sys.states, Remaining) - Sum(last.states, Remaining)
    decreases Sum(sys.states, Work)
  {
    hide SysInv, NoIdleReady, InOrder, Work, WithinBudget, TakeStep;
    SysFacts(sys);
    SumNatural(sys.states);
    CountIsZero(sys.states);
    if !AllDone(sys.states) {
      if cancelled(t) {
        CancelMarks(sys, 0);
      } else {
        StepTheorem(config, sys, t);
        StepAccounts(config, sys, t);
        var (next, step) := TakeStep(config, sys, t);
        var (last, steps) := RunFrom(config, next, t + 1, cancelled);
        RunAccounts(config, next, t + 1, cancelled);
        SumCons(step, steps, DecodedOf);
        SumCons(step, steps, PrefillOf);
      }
    }
  }

  /** What a request's final result says about its state, cancelled or not. */
  predicate Settles(s: State, r: Result) {
    && s.done && 0 <= s.generated && 0 <= s.prefillRemaining <= s.request.promptTokens
    && (r.firstTokenStep >= 0 <==> s.generated > 0)
    && r.generatedTokens == (if r.status == Cancelled then 0 else s.generated)
    && (!s.promptAllocated ==> s.prefillRemaining == s.request.promptTokens)
    && (r.status != Cancelled && s.promptAllocated ==> s.prefillRemaining == 0)
    && (r.status == Completed ==> s.generated == s.request.maxTokens)
  }

  ghost predicate AllSettle(sys: Sys) {
    |sys.results| == |sys.states| && forall i: nat | i < |sys.states| :: Settles(sys.states[i], sys.results[i])
  }

  predicate NoneCancelled(results: seq<Result>) {
    forall i: nat | i < |results| :: results[i].status != Cancelled
  }

  lemma DoneSettles(sys: Sys)
    requires SysInv(sys) && AllDone(sys.states)
    ensures AllSettle(sys) && NoneCancelled(sys.results)
  {
    SysFacts(sys);
    hide SysInv, Inv;
  }

  lemma CancelSettles(sys: Sys)
    requires SysInv(sys)
    ensures Shaped(sys) && AllSettle(CancelFrom(sys, 0))
  {
    SysFacts(sys);
    CancelMarks(sys, 0);
    hide SysInv, Inv, Sum, CancelFrom;
  }

  lemma {:induction false} RunSettles(config: Config, sys: Sys, t: nat, cancelled: nat -> bool)
    requires Boundary(sys) && Usable(config)
    ensures var last := RunFrom(config, sys, t, cancelled).0;
            AllSettle(last) && ((forall n: nat :: !cancelled(n)) ==> NoneCancelled(last.results))
    decreases Sum(sys.states, Work)
  {
    hide *;
    InvAtBoundary(sys);
    BoundaryFacts(sys);
    SumNatural(sys.states);
    RunStops(config, sys, t, cancelled);
    CountIsZero(sys.states);
    if AllDone(sys.states) {
      DoneSettles(sys);
    } else if cancelled(t) {
      CancelSettles(sys);
    } else {
      StepTheorem(config, sys, t);
      RunUnfolds(config, sys, t, cancelled);
      RunSettles(config, TakeStep(config, sys, t).0, t + 1, cancelled);
    }
  }

  /** The results report all generated tokens exactly when no cancelled request had one. */
  lemma {:induction false} ResultsReport(states: seq<State>, results: seq<Result>)
    requires |results| == |states| && forall i: nat | i < |states| :: Settles(states[i], results[i])
    ensures Sum(results, GeneratedOf) <= Sum(states, Generated)
    ensures Sum(results, GeneratedOf) == Sum(states, Generated) <==>
              NoneCutShort(results)
  {
    if states != [] {
      var n := |states| - 1;
      ResultsReport(states[..n], results[..n]);
      assert forall i: nat | i < n :: results[..n][i] == results[i];
      assert NoneCutShort(results) <==> NoneCutShort(results[..n]) && (results[n].status == Cancelled ==> results[n].firstTokenStep < 0);
      assert Settles(states[n], results[n]);
    }
  }

  /** Prompt tokens of a request whose prompt got its blocks. */
  function AdmittedTokens(s: State): int {
    if s.promptAllocated then s.request.promptTokens else 0
  }

  lemma {:induction false} PrefillReports(states: seq<State>, results: seq<Result>)
    requires |results| == |states| && forall i: nat | i < |states| :: Settles(states[i], results[i])
    requires NoneCancelled(results)
    ensures Sum(states, PromptOf) - Sum(states, Remaining) == Sum(states, AdmittedTokens)
  {
    if states != [] {
      var n := |states| - 1;
      PrefillReports(states[..n], results[..n]);
      assert Settles(states[n], results[n]);
    }
  }

  function PromptOf(s: State): int { s.request.promptTokens }

  lemma {:induction false} SameSum(a: seq<State>, b: seq<State>, f: State -> int, g: State -> int)
    requires |a| == |b| && forall i: nat | i < |a| :: f(a[i]) == g(b[i])
    ensures Sum(a, f) == Sum(b, g)
  {
    if a != [] {
      SameSum(a[..|a| - 1], b[..|b| - 1], f, g);
    }
  }

  /** No unfinished request has had a token. */
  ghost predicate NobodyMidway(states: seq<State>) {
    forall i: nat | i < |states| && !states[i].done :: states[i].generated == 0
  }

  /** No cancelled request reports a first token. */
  ghost predicate NoneCutShort(results: seq<Result>) {
    forall i: nat | i < |results| :: results[i].status == Cancelled ==> results[i].firstTokenStep < 0
  }

  /** Cancelling cuts a request short exactly when an unfinished one has had a token. */
  lemma CancelCutsShort(sys: Sys)
    requires SysInv(sys)
    ensures Shaped(sys) && (NoneCutShort(CancelFrom(sys, 0).results) <==> NobodyMidway(sys.states))
  {
    SysFacts(sys);
    CancelMarks(sys, 0);
    hide SysInv, Inv, Sum, CancelFrom;
    var after := CancelFrom(sys, 0);
    forall i: nat | i < |sys.states|
      ensures after.results[i].status == Cancelled && after.results[i].firstTokenStep >= 0
         <==> !sys.states[i].done && sys.states[i].generated != 0
    {
      assert ResultOk(sys.states[i], sys.results[i]);
      assert CancelledAs(sys.states[i], sys.results[i], after.states[i], after.results[i]);
    }
  }

  lemma DoneIsNotCutShort(sys: Sys)
    requires SysInv(sys)
    ensures NoneCutShort(sys.results)
  {
    SysFacts(sys);
    hide SysInv, Inv;
  }

  /** A run cuts a request short exactly when it is cancelled before a step at which an unfinished
      request has had a token. */
  lemma CutShortByCancelling(config: Config, requests: seq<Request>, cancelled: nat -> bool)
    ensures NoneCutShort(FullRun(config, requests, cancelled).0.results) <==>
              forall n: nat | CancelsAt(config, requests, cancelled, n) :: NobodyMidway(BeforeStep(config, requests, n).states)
  {
    hide *;
    var (last, steps) := FullRun(config, requests, cancelled);
    var stop := |steps|;
    var end := BeforeStep(config, requests, stop);
    TraceTheorem(config, requests, cancelled);
    LastOfTrace(config, requests, cancelled, stop);
    BeforeStepIsBoundary(config, requests, stop);
    InvAtBoundary(end);
    forall n: nat
      ensures CancelsAt(config, requests, cancelled, n) <==> n == stop && !AllDone(end.states)
    {
      CancelsWhereItStops(config, requests, cancelled, n);
    }
    if AllDone(end.states) {
      DoneIsNotCutShort(end);
    } else {
      CancelCutsShort(end);
    }
  }

  lemma InvAtBoundary(sys: Sys)
    requires Boundary(sys)
    ensures SysInv(sys)
  {
    hide SysInv;
  }

  lemma LastOfTrace(config: Config, requests: seq<Request>, cancelled: nat -> bool, stop: nat)
    requires IsTrace(config, requests, cancelled, stop)
    ensures var end := BeforeStep(config, requests, stop);
            FullRun(config, requests, cancelled).0 == if AllDone(end.states) then end else CancelFrom(end, 0)
  {
    hide AllDone, BeforeStep, FullRun, CancelFrom;
  }

  /** Token accounting over a whole run: every step is within budget; the steps' decoded tokens are the
      generated tokens; the results report them all if and only if the run is not cancelled at a moment when
      an unfinished request has had a token; and without cancellation the steps' prefill tokens are the
      prompt tokens of exactly the requests that got their prompt blocks. */
  lemma AccountingTheorem(config: Config, requests: seq<Request>, cancelled: nat -> bool)
    ensures var (last, steps) := FullRun(config, requests, cancelled);
            && (forall k | 0 <= k < |steps| :: WithinBudget(Clamped(config), steps[k]))
            && Sum(steps, DecodedOf) == Sum(last.states, Generated)
            && (Sum(last.results, GeneratedOf) == Sum(steps, DecodedOf) <==>
                  forall n: nat | CancelsAt(config, requests, cancelled, n) ::
                    NobodyMidway(BeforeStep(config, requests, n).states))
            && (Sum(last.results, GeneratedOf) == Sum(steps, DecodedOf) <==> NoneCutShort(last.results))
            && ((forall n: nat :: !cancelled(n)) ==>
                  && NoneCancelled(last.results)
                  && Sum(last.results, GeneratedOf) == Sum(steps, DecodedOf)
                  && Sum(steps, PrefillOf) == Sum(last.states, AdmittedTokens))
  {
    hide Boundary, TimeInv, WithinBudget, Settles, BeforeStep, CancelsAt, NobodyMidway, Start, RunFrom, Clamped;
    CutShortByCancelling(config, requests, cancelled);
    RunTotals(config, requests, cancelled);
    var (last, steps) := FullRun(config, requests, cancelled);
    ResultsReport(last.states, last.results);
    if forall n: nat :: !cancelled(n) {
      PrefillReports(last.states, last.results);
    }
  }

  lemma RunTotals(config: Config, requests: seq<Request>, cancelled: nat -> bool)
    ensures var (last, steps) := FullRun(config, requests, cancelled);
            && (forall k | 0 <= k < |steps| :: WithinBudget(Clamped(config), steps[k]))
            && Sum(steps, DecodedOf) == Sum(last.states, Generated)
            && Sum(steps, PrefillOf) == Sum(last.states, PromptOf) - Sum(last.states, Remaining)
            && AllSettle(last)
            && ((forall n: nat :: !cancelled(n)) ==> NoneCancelled(last.results))
  {
    hide Boundary, TimeInv, WithinBudget, Settles;
    var start := Start(Clamped(config), requests);
    StartIsValid(Clamped(config), requests);
    StartIsValid(config, requests);
    RunAccounts(Clamped(config), start, 0, cancelled);
    RunSettles(Clamped(config), start, 0, cancelled);
    RunEnds(Clamped(config), start, 0, cancelled);
    var last := FullRun(config, requests, cancelled).0;
    SumOfZero(start.states);
    SameSum(start.states, last.states, Remaining, PromptOf);
  }

  lemma {:induction false} SumOfZero(states: seq<State>)
    requires forall i: nat | i < |states| :: states[i].generated == 0
    ensures Sum(states, Generated) == 0
  {
    if states != [] {
      SumOfZero(states[..|states| - 1]);
    }
  }

  // ---------------------------------------------------------------- capacity

  /** The blocks a request would hold at its end, counting its prefix as its own. */
  function Demand(perBlock: int, q: Request): int
    requires perBlock > 0
  {
    PrefixBlocks(perBlock, Max(0, q.promptTokens), q.key, q.prefixTokens)
    + SuffixBlocks(perBlock, Max(0, q.promptTokens), q.key, q.prefixTokens)
    + CeilDiv(Max(0, q.maxTokens), perBlock)
  }

  function DemandOf(perBlock: int): Request -> int
    requires perBlock > 0
  {
    (q: Request) => Demand(perBlock, q)
  }

  lemma {:induction false} NeedAtStart(requests: seq<Request>, perBlock: int)
    requires perBlock > 0
    ensures Sum(InitialStates(requests), NeedOf(perBlock)) == Sum(requests, DemandOf(perBlock))
  {
    if requests != [] {
      var n := |requests| - 1;
      NeedAtStart(requests[..n], perBlock);
      assert InitialStates(requests)[..n] == InitialStates(requests[..n]);
      assert Need(perBlock, InitialState(requests[n])) == Demand(perBlock, requests[n]);
    }
  }

  lemma {:induction false} RunServes(config: Config, sys: Sys, t: nat, cancelled: nat -> bool)
    requires Boundary(sys) && Usable(config) && Kept(sys, false, true)
    requires forall n: nat :: !cancelled(n)
    ensures AllServed(RunFrom(config, sys, t, cancelled).0)
    decreases Sum(sys.states, Work)
  {
    hide SysInv, Inv, NoIdleReady, InOrder, Work, TakeStep;
    SysFacts(sys);
    SumNatural(sys.states);
    CountIsZero(sys.states);
    if !AllDone(sys.states) {
      StepTheorem(config, sys, t);
      StepKeeps(config, sys, t, false, true);
      RunServes(config, TakeStep(config, sys, t).0, t + 1, cancelled);
    }
  }

  predicate IdsDistinct(requests: seq<Request>) {
    && (forall i | 0 <= i < |requests| :: requests[i].id != "")
    && (forall i, j | 0 <= i < j < |requests| :: requests[i].id != requests[j].id)
  }

  lemma StartIsProvided(config: Config, requests: seq<Request>)
    requires IdsDistinct(requests)
    requires Sum(requests, DemandOf(Clamped(config).kvBlockTokens)) <= Clamped(config).kvBlocks
    ensures Kept(Start(Clamped(config), requests), false, true)
  {
    var c := Clamped(config);
    FreshIsValid(c.kvBlocks, c.kvBlockTokens);
    NeedAtStart(requests, c.kvBlockTokens);
  }

  /** Every setting is positive: the one asked for, or its default. */
  lemma ClampedIsPositive(config: Config)
    ensures var c := Clamped(config);
            && c.prefillBudget > 0 && c.decodeWidth > 0 && c.kvBlocks > 0 && c.kvBlockTokens > 0
            && c.prefillBudget in {config.prefillBudget, 64} && c.decodeWidth in {config.decodeWidth, 8}
            && c.kvBlocks in {config.kvBlocks, 1024} && c.kvBlockTokens in {config.kvBlockTokens, 16}
            && (config.prefillBudget > 0 ==> c.prefillBudget == config.prefillBudget)
            && (config.decodeWidth > 0 ==> c.decodeWidth == config.decodeWidth)
            && (config.kvBlocks > 0 ==> c.kvBlocks == config.kvBlocks)
            && (config.kvBlockTokens > 0 ==> c.kvBlockTokens == config.kvBlockTokens)
  {
  }

  lemma DemandIsJustEnough(perBlock: int, q: Request)
    requires perBlock > 0
    ensures var p, c := Max(0, q.promptTokens), SharedTokens(q);
            JustEnoughFor(Demand(perBlock, q), perBlock, c, p - c, Max(0, q.maxTokens))
  {
    hide CeilDiv, JustEnoughFor;
    var p, c := Max(0, q.promptTokens), SharedTokens(q);
    CeilDivsAreJustEnough(perBlock, c, p - c, Max(0, q.maxTokens));
  }

  /** `size` blocks can hold the request's cacheable prompt tokens, its other prompt tokens, and its generated
      tokens, with no block shared between the three. */
  ghost predicate HoldsTokens(perBlock: int, q: Request, size: int) {
    exists a: nat, b: nat, c: nat :: CanHold(perBlock, q, a, b, c) && a + b + c == size
  }

  predicate CanHold(perBlock: int, q: Request, a: nat, b: nat, c: nat) {
    && SharedTokens(q) <= a * perBlock
    && Max(0, q.promptTokens) - SharedTokens(q) <= b * perBlock
    && q.maxTokens <= c * perBlock
  }

  lemma DemandIsLeast(perBlock: int, q: Request, size: int)
    requires perBlock > 0 && HoldsTokens(perBlock, q, size)
    ensures Demand(perBlock, q) <= size
  {
    var a: nat, b: nat, c: nat :| CanHold(perBlock, q, a, b, c) && a + b + c == size;
    CeilDivIsLeast(SharedTokens(q), a, perBlock);
    CeilDivIsLeast(Max(0, q.promptTokens) - SharedTokens(q), b, perBlock);
    CeilDivIsLeast(q.maxTokens, c, perBlock);
    hide CeilDiv, SharedTokens;
  }

  lemma CeilDivIsLeast(tokens: int, n: nat, perBlock: int)
    requires perBlock > 0 && tokens <= n * perBlock
    ensures CeilDiv(tokens, perBlock) <= n && CeilDiv(Max(0, tokens), perBlock) <= n
  {
    hide CeilDiv, JustEnough;
    MulIsNatural(n, perBlock);
    CeilDivIsJustEnough(tokens, perBlock);
    CeilDivIsJustEnough(Max(0, tokens), perBlock);
    JustEnoughIsLeast(CeilDiv(tokens, perBlock), n, tokens, perBlock);
    JustEnoughIsLeast(CeilDiv(Max(0, tokens), perBlock), n, Max(0, tokens), perBlock);
  }

  lemma MulIsNatural(n: nat, m: nat)
    ensures n * m >= 0
  {
  }

  lemma {:induction false} DemandsAreLeast(perBlock: int, requests: seq<Request>, sizes: seq<int>)
    requires perBlock > 0 && |sizes| == |requests|
    requires forall i | 0 <= i < |requests| :: HoldsTokens(perBlock, requests[i], sizes[i])
    ensures Sum(requests, DemandOf(perBlock)) <= Sum(sizes, Same)
  {
    if requests != [] {
      var n := |requests| - 1;
      DemandsAreLeast(perBlock, requests[..n], sizes[..n]);
      DemandIsLeast(perBlock, requests[n], sizes[n]);
    }
  }

  function Same(n: int): int { n }

  /** The capacity guarantee: if blocks that hold each request's tokens fit in the cache together, every request
      completes with all its tokens, whatever prefixes they share and however they are ranked. */
  lemma CapacityTheorem(config: Config, requests: seq<Request>, sizes: seq<int>, cancelled: nat -> bool, i: nat)
    requires IdsDistinct(requests) && (forall n: nat :: !cancelled(n))
    requires |sizes| == |requests|
    requires forall j | 0 <= j < |requests| :: HoldsTokens(Clamped(config).kvBlockTokens, requests[j], sizes[j])
    requires Sum(sizes, Same) <= Clamped(config).kvBlocks
    requires i < |requests|
    ensures var last := FullRun(config, requests, cancelled).0;
            && i < |last.results|
            && last.results[i].status == Completed
            && last.results[i].generatedTokens == Max(0, requests[i].maxTokens)
  {
    hide *;
    ClampedIsPositive(config);
    DemandsAreLeast(Clamped(config).kvBlockTokens, requests, sizes);
    DemandFits(config, requests, cancelled, i);
  }

  /** The guarantee for the blocks the requests will ask for. */
  lemma DemandFits(config: Config, requests: seq<Request>, cancelled: nat -> bool, i: nat)
    requires IdsDistinct(requests) && (forall n: nat :: !cancelled(n))
    requires Sum(requests, DemandOf(Clamped(config).kvBlockTokens)) <= Clamped(config).kvBlocks
    requires i < |requests|
    ensures var last := FullRun(config, requests, cancelled).0;
            && i < |last.results|
            && last.results[i].status == Completed
            && last.results[i].generatedTokens == Max(0, requests[i].maxTokens)
  {
    hide Boundary, TimeInv, Kept;
    var start := Start(Clamped(config), requests);
    StartIsValid(Clamped(config), requests);
    StartIsValid(config, requests);
    StartIsProvided(config, requests);
    RunServes(Clamped(config), start, 0, cancelled);
    RunEnds(Clamped(config), start, 0, cancelled);
    RunSettles(Clamped(config), start, 0, cancelled);
    var last := FullRun(config, requests, cancelled).0;
    assert Settles(last.states[i], last.results[i]);
    assert last.states[i].request == start.states[i].request;
  }
}
