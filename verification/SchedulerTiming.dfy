/** When requests get their tokens: no preemption, and priority order across the whole run. */
module SchedulerTiming {
  import opened KvCache
  import opened KvInvariant
  import opened Scheduler
  import opened SchedulerInvariant
  import opened SchedulerPhases
  import opened SchedulerRun
  import opened Sums

  /** Before step `t`: an unfinished request that has started has had a token in every step since. */
  predicate Timed(s: State, r: Result, t: int) {
    && r.firstTokenStep < t
    && (!s.done && s.generated > 0 ==> r.firstTokenStep + s.generated == t)
    && (s.done && r.status == Completed && s.request.maxTokens >= 1 ==>
          r.completionStep - r.firstTokenStep == s.request.maxTokens - 1)
  }

  ghost predicate AllTimed(sys: Sys, t: int) {
    |sys.results| == |sys.states| && forall i: nat | i < |sys.states| :: Timed(sys.states[i], sys.results[i], t)
  }

  /** A request that has started keeps a rank within the decode width. */
  ghost predicate RankKept(config: Config, states: seq<State>) {
    forall i: nat | i < |states| && Active(states[i]) && states[i].generated > 0 ::
      |RankedAhead(states, i)| < config.decodeWidth
  }

  /** `j`, ranked before `i`, got its first token no later, unless it never gets one. */
  predicate NoLater(sj: State, rj: Result, ri: Result) {
    if rj.firstTokenStep >= 0 then rj.firstTokenStep <= ri.firstTokenStep
    else sj.done || sj.request.maxTokens == 0
  }

  ghost predicate FirstTokensInOrder(sys: Sys) {
    && |sys.results| == |sys.states|
    && forall i: nat, j: nat | i < |sys.states| && j < |sys.states| && Before(sys.states, j, i)
                               && sys.results[i].firstTokenStep >= 0 ::
         NoLater(sys.states[j], sys.results[j], sys.results[i])
  }

  lemma RankedAheadShrinks(a: seq<State>, b: seq<State>, i: nat)
    requires SameRequests(a, b) && i < |a|
    requires forall j: nat | j < |a| && Decoding(b[j]) && Before(b, j, i) :: Decoding(a[j])
    ensures |RankedAhead(b, i)| <= |RankedAhead(a, i)|
  {
    forall j | j in RankedAhead(b, i)
      ensures j in RankedAhead(a, i)
    {
      assert Before(a, j, i);
    }
    SubsetSize(RankedAhead(b, i), RankedAhead(a, i));
  }

  lemma SettledStays(s: State, r: Result, s1: State, r1: Result, s2: State, r2: Result, s3: State, r3: Result, t: int)
    requires Journey(s, r, s1, r1, s2, r2, s3, r3, t)
    ensures s1.request == s.request
    ensures Settled(s) ==> s1 == s && r1 == r
  {
  }

  lemma BeforeTouchedIsSettled(states: seq<State>, i: nat, j: nat)
    requires InOrder(states) && i < |states| && j < |states| && Before(states, j, i) && Touched(states[i])
    ensures Settled(states[j])
  {
  }

  /** A request that has started gets its turn in the next step too: whoever becomes ready in
      between ranks behind it. */
  lemma StartedGetsATurn(config: Config, sys: Sys, t: int, mid: Sys, used: int, late: Sys, ids: seq<string>, after: Sys, i: nat)
    requires Boundary(sys) && Usable(config) && Stages(config, sys, t, mid, used, late, ids, after)
    requires RankKept(config, sys.states) && i < |sys.states| && Active(sys.states[i]) && sys.states[i].generated > 0
    ensures mid.states[i] == sys.states[i] && mid.results[i] == sys.results[i]
    ensures i in DecodeTurns(config, mid.states)
  {
    EveryRequestTravels(config, sys, t, mid, used, late, ids, after);
    SysFacts(sys);
    hide SysInv, Inv, Stages, DecodeTurns, InOrder, Journey, RankedAhead;
    forall j: nat | j < |sys.states|
      ensures mid.states[j].request == sys.states[j].request
      ensures Settled(sys.states[j]) ==> mid.states[j] == sys.states[j] && mid.results[j] == sys.results[j]
    {
      assert Travels(config, sys, t, mid, late, after, j);
      SettledStays(sys.states[j], sys.results[j], mid.states[j], mid.results[j],
                   late.states[j], late.results[j], after.states[j], after.results[j], t);
    }
    forall j: nat | j < |sys.states| && Decoding(mid.states[j]) && Before(mid.states, j, i)
      ensures Decoding(sys.states[j])
    {
      BeforeTouchedIsSettled(sys.states, i, j);
    }
    RankedAheadShrinks(sys.states, mid.states, i);
    TurnByRank(config, mid.states, i);
  }

  // -------------------------------------------------------------- one step

  lemma JourneyTimes(s: State, r: Result, s1: State, r1: Result, s2: State, r2: Result, s3: State, r3: Result, t: int, turn: bool)
    requires Journey(s, r, s1, r1, s2, r2, s3, r3, t) && Timed(s, r, t) && t >= 0
    requires if turn then Decoding(s1) && Decoded(s1, r1, s2, r2, t) else s2 == s1 && r2 == r1
    requires Active(s) && s.generated > 0 ==> turn
    ensures Timed(s3, r3, t + 1)
    ensures Active(s3) && s3.generated > 0 ==> turn
  {
  }

  lemma StepKeepsTimed(config: Config, sys: Sys, t: int, mid: Sys, used: int, late: Sys, ids: seq<string>, after: Sys)
    requires Boundary(sys) && Usable(config) && Stages(config, sys, t, mid, used, late, ids, after) && t >= 0
    requires AllTimed(sys, t) && RankKept(config, sys.states)
    ensures AllTimed(after, t + 1)
    ensures forall i: nat | i < |after.states| && Active(after.states[i]) && after.states[i].generated > 0 ::
              i in DecodeTurns(config, mid.states)
  {
    EveryRequestTravels(config, sys, t, mid, used, late, ids, after);
    hide SysInv, Inv, DecodeTurns, InOrder, Journey, Timed, Boundary, RankKept, Stages;
    forall i: nat | i < |after.states|
      ensures Timed(after.states[i], after.results[i], t + 1)
      ensures Active(after.states[i]) && after.states[i].generated > 0 ==> i in DecodeTurns(config, mid.states)
    {
      if Active(sys.states[i]) && sys.states[i].generated > 0 {
        StartedGetsATurn(config, sys, t, mid, used, late, ids, after, i);
      }
      assert Travels(config, sys, t, mid, late, after, i);
      JourneyTimes(sys.states[i], sys.results[i], mid.states[i], mid.results[i],
                   late.states[i], late.results[i], after.states[i], after.results[i], t,
                   i in DecodeTurns(config, mid.states));
    }
  }

  lemma JourneyStaysDecoding(s: State, r: Result, s1: State, r1: Result, s2: State, r2: Result, s3: State, r3: Result, t: int)
    requires Journey(s, r, s1, r1, s2, r2, s3, r3, t)
    ensures s3.request == s1.request
    ensures Decoding(s3) ==> Decoding(s1)
  {
  }

  lemma StepKeepsRank(config: Config, sys: Sys, t: int, mid: Sys, used: int, late: Sys, ids: seq<string>, after: Sys)
    requires Boundary(sys) && Usable(config) && Stages(config, sys, t, mid, used, late, ids, after)
    requires forall i: nat | i < |after.states| && Active(after.states[i]) && after.states[i].generated > 0 ::
               i in DecodeTurns(config, mid.states)
    ensures RankKept(config, after.states)
  {
    EveryRequestTravels(config, sys, t, mid, used, late, ids, after);
    assert forall i | i in DecodeTurns(config, mid.states) :: i < |mid.states| && Decoding(mid.states[i]);
    hide SysInv, Inv, DecodeTurns, InOrder, Journey, Boundary, RankedAhead, Stages;
    forall j: nat | j < |sys.states|
      ensures after.states[j].request == mid.states[j].request
      ensures Decoding(after.states[j]) ==> Decoding(mid.states[j])
    {
      assert Travels(config, sys, t, mid, late, after, j);
      JourneyStaysDecoding(sys.states[j], sys.results[j], mid.states[j], mid.results[j],
                           late.states[j], late.results[j], after.states[j], after.results[j], t);
    }
    forall i: nat | i < |after.states| && Active(after.states[i]) && after.states[i].generated > 0
      ensures |RankedAhead(after.states, i)| < config.decodeWidth
    {
      RankedAheadShrinks(mid.states, after.states, i);
      TurnByRank(config, mid.states, i);
    }
  }

  /** How the first-token step and doneness of one request evolve over a step. */
  predicate FirstFacts(s: State, r: Result, s1: State, s3: State, r3: Result, t: int, turn: bool) {
    && s3.request == s1.request == s.request
    && (r.firstTokenStep >= 0 ==> r3.firstTokenStep == r.firstTokenStep)
    && r3.firstTokenStep <= t
    && (r.firstTokenStep < 0 <= r3.firstTokenStep ==> r3.firstTokenStep == t && turn && Decoding(s1))
    && (s.done ==> s3.done && r3.firstTokenStep == r.firstTokenStep)
    && (s1.done ==> s3.done)
    && (s.request.maxTokens == 0 ==> r3.firstTokenStep < 0)
    && (Active(s1) ==> Decoding(s1) || s.request.maxTokens == 0)
    && (turn ==> Touched(s1) && (s3.done || r3.firstTokenStep >= 0))
  }

  lemma JourneyFirst(s: State, r: Result, s1: State, r1: Result, s2: State, r2: Result, s3: State, r3: Result, t: int, turn: bool)
    requires Journey(s, r, s1, r1, s2, r2, s3, r3, t) && Timed(s, r, t) && t >= 0
    requires Active(s) ==> s.generated < s.request.maxTokens
    requires if turn then Decoding(s1) && Decoded(s1, r1, s2, r2, t) else s2 == s1 && r2 == r1
    ensures FirstFacts(s, r, s1, s3, r3, t, turn)
  {
  }

  lemma TravellerFirst(config: Config, sys: Sys, t: int, mid: Sys, used: int, late: Sys, ids: seq<string>, after: Sys, i: nat)
    requires Boundary(sys) && Stages(config, sys, t, mid, used, late, ids, after) && t >= 0
    requires i < |sys.states| && Timed(sys.states[i], sys.results[i], t)
    ensures |after.states| == |after.results| == |sys.states|
    ensures FirstFacts(sys.states[i], sys.results[i], mid.states[i], after.states[i], after.results[i], t,
                       i in DecodeTurns(config, mid.states))
  {
    EveryRequestTravels(config, sys, t, mid, used, late, ids, after);
    hide SysInv, Inv, DecodeTurns, InOrder, Journey, Timed, Stages, FirstFacts;
    assert Travels(config, sys, t, mid, late, after, i);
    JourneyFirst(sys.states[i], sys.results[i], mid.states[i], mid.results[i],
                 late.states[i], late.results[i], after.states[i], after.results[i], t, i in DecodeTurns(config, mid.states));
  }

  /** The pairwise step of `FirstTokensInOrder`. */
  lemma PairStaysInOrder(config: Config, sys: Sys, t: int, mid: Sys, used: int, late: Sys, ids: seq<string>, after: Sys, i: nat, j: nat)
    requires Boundary(sys) && Usable(config) && Stages(config, sys, t, mid, used, late, ids, after) && t >= 0
    requires |after.states| == |after.results| == |sys.states|
    requires i < |sys.states| && j < |sys.states| && Before(mid.states, j, i)
    requires Timed(sys.states[i], sys.results[i], t) && Timed(sys.states[j], sys.results[j], t)
    requires sys.results[i].firstTokenStep >= 0 ==> NoLater(sys.states[j], sys.results[j], sys.results[i])
    requires after.results[i].firstTokenStep >= 0
    ensures NoLater(after.states[j], after.results[j], after.results[i])
  {
    TravellerFirst(config, sys, t, mid, used, late, ids, after, i);
    TravellerFirst(config, sys, t, mid, used, late, ids, after, j);
    assert InOrder(mid.states);
    hide Boundary, DecodeTurns, InOrder, Stages;
    if sys.results[i].firstTokenStep < 0 {
      BeforeTouchedIsSettled(mid.states, i, j);
      if Decoding(mid.states[j]) {
        TurnByRank(config, mid.states, i);
      }
    }
  }

  ghost predicate TimeInv(config: Config, sys: Sys, t: int) {
    AllTimed(sys, t) && RankKept(config, sys.states) && FirstTokensInOrder(sys)
  }

  lemma StagesKeepFirsts(config: Config, sys: Sys, t: int, mid: Sys, used: int, late: Sys, ids: seq<string>, after: Sys)
    requires Boundary(sys) && Usable(config) && Stages(config, sys, t, mid, used, late, ids, after) && t >= 0
    requires AllTimed(sys, t) && FirstTokensInOrder(sys)
    requires SameRequests(sys.states, after.states) && |after.results| == |after.states|
    ensures FirstTokensInOrder(after)
  {
    hide Active, Boundary, CeilDiv, DecodeEffect, DecodeTurns, Decoding, FinishEffect;
    assert SameRequests(sys.states, mid.states);
    hide Stages, Timed, NoLater, Usable;
    forall i: nat, j: nat | i < |after.states| && j < |after.states| && Before(after.states, j, i)
                            && after.results[i].firstTokenStep >= 0
      ensures NoLater(after.states[j], after.results[j], after.results[i])
    {
      assert Before(sys.states, j, i) && Before(mid.states, j, i);
      PairStaysInOrder(config, sys, t, mid, used, late, ids, after, i, j);
    }
  }

  lemma StagesKeepTime(config: Config, sys: Sys, t: int, mid: Sys, used: int, late: Sys, ids: seq<string>, after: Sys)
    requires Boundary(sys) && Usable(config) && Stages(config, sys, t, mid, used, late, ids, after) && t >= 0
    requires TimeInv(config, sys, t)
    ensures TimeInv(config, after, t + 1)
  {
    StagesKeepBoundary(config, sys, t, mid, used, late, ids, after);
    hide Boundary, Stages, RankKept, Timed, FirstTokensInOrder;
    StepKeepsTimed(config, sys, t, mid, used, late, ids, after);
    StepKeepsRank(config, sys, t, mid, used, late, ids, after);
    StagesKeepFirsts(config, sys, t, mid, used, late, ids, after);
  }

  lemma StepKeepsTime(config: Config, sys: Sys, t: int)
    requires Boundary(sys) && Usable(config) && t >= 0 && TimeInv(config, sys, t)
    ensures Shaped(sys)
    ensures TimeInv(config, TakeStep(config, sys, t).0, t + 1)
  {
    hide Boundary, Stages, TimeInv;
    StepStages(config, sys, t);
    var (mid, used) := AfterPrefill(config, sys);
    var (late, ids) := AfterDecode(config, mid, t);
    StagesKeepTime(config, sys, t, mid, used, late, ids, FinishPhase(late, 0, t));
  }

  // ---------------------------------------------------------- cancellation

  predicate CancelledAs(s: State, r: Result, s': State, r': Result) {
    if s.done then s' == s && r' == r
    else s' == s.(done := true) && r' == r.(status := Cancelled, message := "cancelled")
  }

  ghost predicate CancelEffect(sys: Sys, from: nat, after: Sys) {
    && |sys.results| == |sys.states| == |after.states| == |after.results|
    && (forall i: nat | i < from && i < |sys.states| :: after.states[i] == sys.states[i] && after.results[i] == sys.results[i])
    && (forall i: nat | from <= i < |sys.states| ::
          CancelledAs(sys.states[i], sys.results[i], after.states[i], after.results[i]))
    && Sum(after.states, Generated) == Sum(sys.states, Generated)
    && Sum(after.states, Remaining) == Sum(sys.states, Remaining)
  }

  /** Cancelling marks exactly the unfinished requests and changes no token count. */
  lemma {:induction false} CancelMarks(sys: Sys, from: nat)
    requires Shaped(sys) && from <= |sys.states|
    ensures CancelEffect(sys, from, CancelFrom(sys, from))
    decreases |sys.states| - from
  {
    hide ReleaseSequence, Sum;
    if from < |sys.states| {
      var next := CancelOne(sys, from);
      SumUpdate(sys.states, from, next.states[from], Generated);
      SumUpdate(sys.states, from, next.states[from], Remaining);
      assert next.states == sys.states[from := next.states[from]] && next.results == sys.results[from := next.results[from]];
      CancelMarks(next, from + 1);
    }
  }

  // --------------------------------------------------------------- the run

  /** What a finished run promises about the steps in which tokens came. */
  ghost predicate WellTimed(sys: Sys) {
    && |sys.results| == |sys.states|
    && (forall i: nat | i < |sys.states| && sys.results[i].status == Completed && sys.states[i].request.maxTokens >= 1 ::
          sys.results[i].completionStep - sys.results[i].firstTokenStep == sys.states[i].request.maxTokens - 1)
    && FirstTokensInOrder(sys)
  }

  lemma CancelKeepsFirsts(sys: Sys, after: Sys)
    requires FirstTokensInOrder(sys) && CancelEffect(sys, 0, after)
    ensures FirstTokensInOrder(after)
  {
    hide Sum;
    forall i: nat, j: nat | i < |after.states| && j < |after.states| && Before(after.states, j, i)
                            && after.results[i].firstTokenStep >= 0
      ensures NoLater(after.states[j], after.results[j], after.results[i])
    {
      assert Before(sys.states, j, i);
    }
  }

  lemma DoneIsWellTimed(config: Config, sys: Sys, t: int)
    requires SysInv(sys) && TimeInv(config, sys, t)
    ensures AllDone(sys.states) ==> WellTimed(sys)
    ensures Shaped(sys) && WellTimed(CancelFrom(sys, 0))
  {
    SysFacts(sys);
    hide SysInv, Inv, RankKept, FirstTokensInOrder, Sum;
    CancelMarks(sys, 0);
    CancelKeepsFirsts(sys, CancelFrom(sys, 0));
    assert forall i: nat | i < |sys.states| :: Timed(sys.states[i], sys.results[i], t);
  }

  lemma {:induction false} RunIsWellTimed(config: Config, sys: Sys, t: nat, cancelled: nat -> bool)
    requires Boundary(sys) && Usable(config) && TimeInv(config, sys, t)
    ensures WellTimed(RunFrom(config, sys, t, cancelled).0)
    decreases Sum(sys.states, Work)
  {
    hide SysInv, NoIdleReady, InOrder, TimeInv, WellTimed, Work, TakeStep, CancelFrom;
    SysFacts(sys);
    SumNatural(sys.states);
    CountIsZero(sys.states);
    DoneIsWellTimed(config, sys, t);
    if !AllDone(sys.states) && !cancelled(t) {
      StepTheorem(config, sys, t);
      StepKeepsTime(config, sys, t);
      RunIsWellTimed(config, TakeStep(config, sys, t).0, t + 1, cancelled);
    }
  }
}
