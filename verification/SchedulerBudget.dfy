/** The prefill budget is used in full while there is anything to read, and what a cancellation costs. */
module SchedulerBudget {
  import opened KvCache
  import opened KvInvariant
  import opened Scheduler
  import opened SchedulerInvariant
  import opened SchedulerPhases
  import opened SchedulerRun
  import opened SchedulerCache
  import opened SchedulerTheorems
  import opened SchedulerTiming
  import opened SchedulerTrace
  import opened Sums

  // ------------------------------------------------------------- the phase

  /** A prefill phase with budget to spare leaves no candidate waiting. */
  lemma {:induction false} PrefillFillsUp(sys: Sys, xs: seq<nat>, budget: int)
    requires SysInv(sys) && Indices(sys.states, xs) && Ranked(sys.states, xs)
    requires forall k | 0 <= k < |xs| :: Waiting(sys.states[xs[k]])
    ensures var (after, total) := PrefillPhase(sys, xs, budget);
            && |after.states| == |sys.states|
            && (total < budget ==> forall x | x in xs :: Settled(after.states[x]))
    decreases |xs|
  {
    hide SysInv, Inv, Admit, Sum, StateOk, ResultOk, Filled, Refused, Prefilled, Settled, PrefillEffect, Admitted;
    SysFacts(sys);
    if xs != [] && budget > 0 {
      AdmitTurn(sys, xs[0], budget);
      var (next, consumed) := Admit(sys, xs[0], budget);
      var rest := xs[1..];
      RestWaits(sys, xs, budget, next, consumed);
      PrefillFillsUp(next, rest, budget - consumed);
      PrefillPhaseEffect(next, rest, budget - consumed);
      var (after, more) := PrefillPhase(next, rest, budget - consumed);
      FirstIsFilled(sys, xs, budget, next, consumed, after, more);
    }
  }

  /** After the first candidate's turn the others still wait. */
  lemma RestWaits(sys: Sys, xs: seq<nat>, budget: int, next: Sys, consumed: int)
    requires Shaped(sys) && Indices(sys.states, xs) && Ranked(sys.states, xs) && xs != []
    requires forall k | 0 <= k < |xs| :: Waiting(sys.states[xs[k]])
    requires Admitted(sys, xs[0], budget, next, consumed)
    ensures Indices(next.states, xs[1..]) && Ranked(next.states, xs[1..]) && |next.states| == |sys.states|
    ensures forall k | 0 <= k < |xs[1..]| :: Waiting(next.states[xs[1..][k]])
    ensures xs[0] !in xs[1..] && forall x | x in xs :: x == xs[0] || x in xs[1..]
  {
    hide Filled, Refused;
    assert xs == [xs[0]] + xs[1..];
    RestOfRanked(sys.states, xs, xs[0]);
    forall k | 1 <= k < |xs|
      ensures xs[k] != xs[0]
    {
      assert Before(sys.states, xs[0], xs[k]);
    }
  }

  /** With budget to spare after the whole phase, the first candidate has been settled in its turn. */
  lemma FirstIsFilled(sys: Sys, xs: seq<nat>, budget: int, next: Sys, consumed: int, after: Sys, more: int)
    requires Shaped(sys) && Indices(sys.states, xs) && xs != [] && xs[0] !in xs[1..]
    requires Waiting(sys.states[xs[0]]) && Admitted(sys, xs[0], budget, next, consumed)
    requires Indices(next.states, xs[1..]) && |next.results| == |next.states|
    requires PrefillEffect(next, xs[1..], budget - consumed, after, more)
    ensures |after.states| == |sys.states|
    ensures consumed + more < budget ==> Settled(after.states[xs[0]])
  {
    hide SysInv, Sum, Prefilled;
  }

  // -------------------------------------------------------------- one step

  /** The unread prompt tokens of the waiting requests that have their prompt blocks afterwards. */
  function Unread(before: seq<State>, after: seq<State>): int
    requires |before| == |after|
  {
    if before == [] then 0
    else
      var n := |before| - 1;
      Unread(before[..n], after[..n])
      + (if Waiting(before[n]) && after[n].promptAllocated then before[n].prefillRemaining else 0)
  }

  /** Only waiting requests with prompt blocks are read. */
  predicate ReadsAdmitted(s: State, s': State) {
    && 0 <= s'.prefillRemaining <= s.prefillRemaining
    && (!Waiting(s) || !s'.promptAllocated ==> s'.prefillRemaining == s.prefillRemaining)
  }

  lemma {:induction false} ReadIsUnread(before: seq<State>, after: seq<State>)
    requires |before| == |after| && forall i | 0 <= i < |before| :: ReadsAdmitted(before[i], after[i])
    ensures Sum(before, Remaining) - Sum(after, Remaining) <= Unread(before, after)
    ensures (forall i | 0 <= i < |before| && Waiting(before[i]) && after[i].promptAllocated :: after[i].prefillRemaining == 0)
            ==> Sum(before, Remaining) - Sum(after, Remaining) == Unread(before, after)
  {
    if before != [] {
      var n := |before| - 1;
      ReadIsUnread(before[..n], after[..n]);
      assert ReadsAdmitted(before[n], after[n]);
    }
  }

  lemma JourneyReads(s: State, r: Result, s1: State, r1: Result, s2: State, r2: Result, s3: State, r3: Result, t: int)
    requires Journey(s, r, s1, r1, s2, r2, s3, r3, t)
    ensures ReadsAdmitted(s, s3)
    ensures Waiting(s) && Settled(s1) && s3.promptAllocated ==> s3.prefillRemaining == 0
  {
  }

  lemma StagesRead(config: Config, sys: Sys, t: int, mid: Sys, used: int, late: Sys, ids: seq<string>, after: Sys)
    requires SysInv(sys) && Stages(config, sys, t, mid, used, late, ids, after)
    requires forall i: nat | i < |sys.states| && Waiting(sys.states[i]) && used < config.prefillBudget :: Settled(mid.states[i])
    ensures |after.states| == |sys.states|
    ensures forall i | 0 <= i < |sys.states| :: ReadsAdmitted(sys.states[i], after.states[i])
    ensures forall i | 0 <= i < |sys.states| && Waiting(sys.states[i]) && after.states[i].promptAllocated && used < config.prefillBudget ::
              after.states[i].prefillRemaining == 0
  {
    EveryRequestTravels(config, sys, t, mid, used, late, ids, after);
    hide SysInv, Stages, Journey, DecodeTurns, ReadsAdmitted, Waiting, Settled;
    forall i: nat | i < |sys.states|
      ensures ReadsAdmitted(sys.states[i], after.states[i])
      ensures Waiting(sys.states[i]) && after.states[i].promptAllocated && used < config.prefillBudget ==>
                after.states[i].prefillRemaining == 0
    {
      assert Travels(config, sys, t, mid, late, after, i);
      JourneyReads(sys.states[i], sys.results[i], mid.states[i], mid.results[i],
                   late.states[i], late.results[i], after.states[i], after.results[i], t);
    }
  }

  /** With budget to spare, the prefill phase leaves nobody waiting. */
  lemma SpareMeansSettled(config: Config, sys: Sys)
    requires Boundary(sys)
    ensures Shaped(sys)
    ensures var (mid, used) := AfterPrefill(config, sys);
            && |mid.states| == |sys.states|
            && forall i: nat | i < |sys.states| && Waiting(sys.states[i]) && used < config.prefillBudget :: Settled(mid.states[i])
  {
    hide SysInv, Inv, Waiting, Settled, InOrder, PrefillPhase;
    InvAtBoundary(sys);
    SysFacts(sys);
    Candidates(sys.states, Waiting);
    var xs := PrefillTurns(sys.states);
    assert forall k | 0 <= k < |xs| :: xs[k] in xs;
    PrefillFillsUp(sys, xs, config.prefillBudget);
  }

  /** Work conservation: a step reads as many prompt tokens as its budget allows, or all that the waiting
      requests with prompt blocks have left. */
  lemma StepReadsAll(config: Config, sys: Sys, t: int)
    requires Boundary(sys) && Usable(config) && t >= 0
    ensures Shaped(sys)
    ensures var (after, step) := TakeStep(config, sys, t);
            step.prefillTokens == Min(config.prefillBudget, Unread(sys.states, after.states))
  {
    hide *;
    InvAtBoundary(sys);
    SysFacts(sys);
    StepAccounts(config, sys, t);
    StepStages(config, sys, t);
    SpareMeansSettled(config, sys);
    var (mid, used) := AfterPrefill(config, sys);
    var (late, ids) := AfterDecode(config, mid, t);
    var after := FinishPhase(late, 0, t);
    StepIs(config, sys, t);
    StagesRead(config, sys, t, mid, used, late, ids, after);
    ReadIsUnread(sys.states, after.states);
    MinOf(used, config.prefillBudget, Unread(sys.states, after.states));
  }

  lemma StepIs(config: Config, sys: Sys, t: int)
    requires Shaped(sys)
    ensures var (mid, used) := AfterPrefill(config, sys);
            var (late, ids) := AfterDecode(config, mid, t);
            var (after, step) := TakeStep(config, sys, t);
            && after == FinishPhase(late, 0, t) && step.prefillTokens == used
            && (WithinBudget(config, step) ==> used <= config.prefillBudget)
  {
    hide AfterPrefill, AfterDecode, FinishPhase;
  }

  lemma MinOf(used: int, budget: int, all: int)
    requires used <= budget && used <= all && (used < budget ==> used == all)
    ensures used == Min(budget, all)
  {
  }

  /** Work conservation over a whole run. */
  lemma WorkConservationTheorem(config: Config, requests: seq<Request>, cancelled: nat -> bool)
    ensures var steps := FullRun(config, requests, cancelled).1;
            forall k: nat | k < |steps| ::
              && |BeforeStep(config, requests, k).states| == |BeforeStep(config, requests, k + 1).states|
              && steps[k].prefillTokens
                 == Min(Clamped(config).prefillBudget,
                        Unread(BeforeStep(config, requests, k).states, BeforeStep(config, requests, k + 1).states))
  {
    hide *;
    var steps := FullRun(config, requests, cancelled).1;
    TraceTheorem(config, requests, cancelled);
    forall k: nat | k < |steps|
      ensures |BeforeStep(config, requests, k).states| == |BeforeStep(config, requests, k + 1).states|
      ensures steps[k].prefillTokens
           == Min(Clamped(config).prefillBudget,
                  Unread(BeforeStep(config, requests, k).states, BeforeStep(config, requests, k + 1).states))
    {
      BeforeStepIsBoundary(config, requests, k);
      StepReadsAll(Clamped(config), BeforeStep(config, requests, k), k);
      NextState(config, requests, k);
      RecordAt(config, requests, cancelled, |steps|, k);
    }
  }

  lemma RecordAt(config: Config, requests: seq<Request>, cancelled: nat -> bool, stop: nat, k: nat)
    requires IsTrace(config, requests, cancelled, stop) && k < stop
    ensures k < |FullRun(config, requests, cancelled).1|
    ensures FullRun(config, requests, cancelled).1[k] == TakeStep(Clamped(config), BeforeStep(config, requests, k), k).1
  {
    hide FullRun, BeforeStep, TakeStep, Clamped, StopsAt;
  }

  // ------------------------------------------------------------ an example

  const LONE := Request("a", 1, 2, 0, "", -1)
  const ROOMY := Config(4, 1, 2, 4)

  predicate AtSecondStep(n: nat) { n == 1 }

  /** A lone request that wants two tokens has one after its first step. */
  lemma LoneAfterOneStep()
    ensures var states := BeforeStep(ROOMY, [LONE], 1).states;
            |states| == 1 && !states[0].done && states[0].generated == 1
  {
    hide *;
    var c, start := Clamped(ROOMY), BeforeStep(ROOMY, [LONE], 0);
    LoneStart();
    BeforeStepIsBoundary(ROOMY, [LONE], 0);
    NextState(ROOMY, [LONE], 0);
    InvAtBoundary(start);
    SysFacts(start);
    StepStages(c, start, 0);
    SpareMeansSettled(c, start);
    StepPrefillKeeps(c, start, false, true);
    var (mid, used) := AfterPrefill(c, start);
    StepDecodeKeeps(c, mid, 0, false, true);
    var (late, ids) := AfterDecode(c, mid, 0);
    StepIs(c, start, 0);
    ServedWhenKept(mid);
    ServedWhenKept(late);
    EveryRequestTravels(c, start, 0, mid, used, late, ids, FinishPhase(late, 0, 0));
    LoneJourney(c, start, mid, used, late, ids, FinishPhase(late, 0, 0));
  }

  lemma LoneStart()
    ensures Clamped(ROOMY) == ROOMY
    ensures var start := BeforeStep(ROOMY, [LONE], 0);
            start.states == [InitialState(LONE)] && Waiting(start.states[0]) && Kept(start, false, true)
  {
    StartIsProvided(ROOMY, [LONE]);
  }

  lemma ServedWhenKept(sys: Sys)
    requires Kept(sys, false, true)
    ensures AllServed(sys)
  {
    hide AllServed;
  }

  lemma LoneJourney(config: Config, start: Sys, mid: Sys, used: int, late: Sys, ids: seq<string>, after: Sys)
    requires config == ROOMY && start.states == [InitialState(LONE)]
    requires Stages(config, start, 0, mid, used, late, ids, after)
    requires used < config.prefillBudget ==> Settled(mid.states[0])
    requires AllServed(mid) && AllServed(late)
    requires |after.states| == |after.results| == 1 && Travels(config, start, 0, mid, late, after, 0)
    ensures !after.states[0].done && after.states[0].generated == 1
  {
    LoneIsReady(config, start, mid, used, late, ids, after);
    LoneRanksFirst(mid.states);
    TurnByRank(config, mid.states, 0);
    hide Stages, DecodeTurns, RankedAhead, SysInv;
  }

  lemma LoneRanksFirst(states: seq<State>)
    requires |states| == 1
    ensures RankedAhead(states, 0) == {}
  {
  }

  lemma LoneIsReady(config: Config, start: Sys, mid: Sys, used: int, late: Sys, ids: seq<string>, after: Sys)
    requires config == ROOMY && start.states == [InitialState(LONE)]
    requires Stages(config, start, 0, mid, used, late, ids, after)
    requires used < config.prefillBudget ==> Settled(mid.states[0])
    requires AllServed(mid)
    ensures |mid.states| == |mid.results| == 1
    ensures mid.states[0].request == LONE && Decoding(mid.states[0]) && mid.states[0].generated == 0
  {
    hide SysInv, DecodeEffect, FinishEffect, DecodeTurns, PrefillTurns;
    assert start.states[..0] == [] && mid.states[..0] == [];
  }

  /** Cancelled after its first step, the request has decoded a token and reports none. */
  lemma CutShortExample()
    ensures var (last, steps) := FullRun(ROOMY, [LONE], AtSecondStep);
            && |steps| == 1 && Sum(steps, DecodedOf) == 1
            && |last.results| == 1 && last.results[0].status == Cancelled && last.results[0].generatedTokens == 0
  {
    hide *;
    LoneAfterOneStep();
    LoneStart();
    TraceTheorem(ROOMY, [LONE], AtSecondStep);
    var (last, steps) := FullRun(ROOMY, [LONE], AtSecondStep);
    LoneIsCancelled();
    CancelsWhereItStops(ROOMY, [LONE], AtSecondStep, 1);
    LastOfTrace(ROOMY, [LONE], AtSecondStep, 1);
    BeforeStepIsBoundary(ROOMY, [LONE], 1);
    InvAtBoundary(BeforeStep(ROOMY, [LONE], 1));
    LoneResult(BeforeStep(ROOMY, [LONE], 1));
    AccountingTheorem(ROOMY, [LONE], AtSecondStep);
  }

  lemma LoneIsCancelled()
    requires var states := BeforeStep(ROOMY, [LONE], 1).states; |states| == 1 && !states[0].done
    ensures CancelsAt(ROOMY, [LONE], AtSecondStep, 1) && !AllDone(BeforeStep(ROOMY, [LONE], 1).states)
  {
    hide BeforeStep;
  }

  lemma LoneResult(sys: Sys)
    requires SysInv(sys) && |sys.states| == 1 && !sys.states[0].done && sys.states[0].generated == 1
    ensures Shaped(sys)
    ensures var last := CancelFrom(sys, 0);
            && |last.results| == 1 && last.results[0].status == Cancelled && last.results[0].generatedTokens == 0
            && Sum(last.states, Generated) == 1
  {
    SysFacts(sys);
    CancelMarks(sys, 0);
    hide SysInv, Inv, CancelFrom;
    assert sys.states[..0] == [] && sys.states == [sys.states[0]];
  }
}
