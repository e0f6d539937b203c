/** A whole step and a whole run: every step keeps the invariants and uses up work, so every run ends. */
module SchedulerRun {
  import opened KvCache
  import opened KvInvariant
  import opened KvPrompt
  import opened KvSequence
  import opened Scheduler
  import opened SchedulerInvariant
  import opened SchedulerPhases
  import opened Sums

  predicate Usable(config: Config) {
    config.prefillBudget > 0 && config.decodeWidth > 0
  }

  /** Between steps, a ready request that is not done still has tokens to generate. */
  predicate NoIdleReady(states: seq<State>) {
    forall i: nat | i < |states| && Active(states[i]) :: states[i].generated < states[i].request.maxTokens
  }

  /** The invariant at every step boundary. */
  ghost predicate Boundary(sys: Sys) {
    SysInv(sys) && NoIdleReady(sys.states) && InOrder(sys.states)
  }

  lemma BoundaryFacts(sys: Sys)
    requires Boundary(sys)
    ensures Shaped(sys) && Inv(sys.kv)
    ensures forall i: nat | i < |sys.states| :: StateOk(sys.states[i])
  {
  }

  // ------------------------------------------------------------ one step

  function PrefillTurns(states: seq<State>): (xs: seq<nat>)
    ensures Indices(states, xs)
  {
    Rank(states, Where(states, Waiting, 0))
  }

  lemma PrefillOfStep(config: Config, sys: Sys)
    requires Boundary(sys)
    ensures Shaped(sys)
    ensures var xs := PrefillTurns(sys.states);
            var (mid, used) := AfterPrefill(config, sys);
            && PrefillEffect(sys, xs, config.prefillBudget, mid, used)
            && InOrder(mid.states)
            && (forall i: nat :: i in xs <==> i < |sys.states| && Waiting(sys.states[i]))
            && Ranked(sys.states, xs)
  {
    hide SysInv, Inv, PrefillEffect;
    SysFacts(sys);
    var xs := PrefillTurns(sys.states);
    Candidates(sys.states, Waiting);
    assert forall k | 0 <= k < |xs| :: xs[k] in xs;
    PrefillPhaseEffect(sys, xs, config.prefillBudget);
    PrefillKeepsOrder(sys, xs, config.prefillBudget);
  }

  /** The decode turns are a prefix of the ranked candidates. */
  lemma TurnsAreRanked(config: Config, states: seq<State>)
    ensures var ds := DecodeTurns(config, states);
            && Ranked(states, ds) && |ds| <= Max(0, config.decodeWidth)
            && (forall i | i in ds :: i < |states| && Decoding(states[i]))
            && (forall k | 0 <= k < |ds| :: Decoding(states[ds[k]]))
  {
    hide Before, Rank, Where, Decoding;
    var ranked := Rank(states, Where(states, Decoding, 0));
    Candidates(states, Decoding);
    var ds := DecodeTurns(config, states);
    assert ds <= ranked;
    assert forall k | 0 <= k < |ds| :: ds[k] == ranked[k] && ranked[k] in ranked;
  }

  lemma AfterDecodeIs(config: Config, mid: Sys, t: int)
    requires Shaped(mid)
    ensures AfterDecode(config, mid, t) == DecodePhase(mid, DecodeTurns(config, mid.states), t)
  {
    hide DecodePhase, DecodeTurns;
  }

  lemma DecodeOfStep(config: Config, mid: Sys, t: int)
    requires SysInv(mid) && t >= 0
    ensures Shaped(mid)
    ensures var ds := DecodeTurns(config, mid.states);
            var (after, ids) := AfterDecode(config, mid, t);
            && DecodeEffect(mid, ds, t, after, ids)
            && Ranked(mid.states, ds)
            && |ds| <= Max(0, config.decodeWidth)
            && (forall i | i in ds :: i < |mid.states| && Decoding(mid.states[i]))
  {
    hide *;
    SysFacts(mid);
    TurnsAreRanked(config, mid.states);
    AfterDecodeIs(config, mid, t);
    DecodePhaseEffect(mid, DecodeTurns(config, mid.states), t);
  }

  /** A decode candidate gets a turn exactly when fewer than `decodeWidth` candidates rank before it. */
  ghost function RankedAhead(states: seq<State>, i: nat): set<nat>
    requires i < |states|
  {
    set j: nat | j < |states| && Decoding(states[j]) && Before(states, j, i)
  }

  /** What stands before position `k` of a ranking is exactly what ranks before its element. */
  lemma RankedPrefix(states: seq<State>, xs: seq<nat>, k: nat)
    requires Indices(states, xs) && Ranked(states, xs) && k < |xs|
    ensures forall j: nat :: j in xs[..k] <==> j in xs && Before(states, j, xs[k])
  {
    forall j: nat
      ensures j in xs[..k] <==> j in xs && Before(states, j, xs[k])
    {
      if j in xs {
        var m :| 0 <= m < |xs| && xs[m] == j;
        assert m < k ==> xs[..k][m] == j && Before(states, xs[m], xs[k]);
        assert m > k ==> Before(states, xs[k], xs[m]);
        assert j in xs[..k] ==> Before(states, j, xs[k]);
      }
    }
  }

  lemma RankedAheadIsPrefix(states: seq<State>, ranked: seq<nat>, k: nat)
    requires Indices(states, ranked) && Ranked(states, ranked) && k < |ranked|
    requires forall j: nat :: j in ranked <==> j < |states| && Decoding(states[j])
    ensures |RankedAhead(states, ranked[k])| == k
  {
    RankedPrefix(states, ranked, k);
    assert RankedAhead(states, ranked[k]) == Ids(ranked[..k]);
    RankedIsDistinct(states, ranked[..k]);
    DistinctSize(ranked[..k]);
  }

  lemma TurnByRank(config: Config, states: seq<State>, i: nat)
    requires i < |states| && Decoding(states[i]) && config.decodeWidth > 0
    ensures i in DecodeTurns(config, states) <==> |RankedAhead(states, i)| < config.decodeWidth
    ensures i in DecodeTurns(config, states) ==>
              forall j: nat | j < |states| && Decoding(states[j]) && Before(states, j, i) :: j in DecodeTurns(config, states)
  {
    hide Before;
    var ranked := Rank(states, Where(states, Decoding, 0));
    Candidates(states, Decoding);
    assert i in ranked;
    var k :| 0 <= k < |ranked| && ranked[k] == i;
    RankedAheadIsPrefix(states, ranked, k);
    RankedPrefix(states, ranked, k);
    var width := Min(config.decodeWidth, |ranked|);
    assert DecodeTurns(config, states) == ranked[..width];
    if k < width {
      assert ranked[..width][k] == i;
      assert ranked[..k] == ranked[..width][..k];
    } else {
      RankedIsDistinct(states, ranked);
    }
  }

  lemma RankedIsDistinct(states: seq<State>, xs: seq<nat>)
    requires Indices(states, xs) && Ranked(states, xs)
    ensures Distinct(xs)
  {
    forall a, b | 0 <= a < b < |xs|
      ensures xs[a] != xs[b]
    {
      assert Before(states, xs[a], xs[b]);
    }
  }

  // ------------------------------------------------------------ progress

  lemma {:induction false} SumNatural(states: seq<State>)
    requires forall i: nat | i < |states| :: StateOk(states[i])
    ensures Sum(states, Work) >= 0
  {
    if states != [] {
      SumNatural(states[..|states| - 1]);
    }
  }

  /** The three stages of a step, with what each does. */
  ghost predicate Stages(config: Config, sys: Sys, t: int, mid: Sys, used: int, late: Sys, ids: seq<string>, after: Sys) {
    && |sys.results| == |sys.states| == |mid.states| == |mid.results| == |late.states| == |late.results|
    && PrefillEffect(sys, PrefillTurns(sys.states), config.prefillBudget, mid, used)
    && DecodeEffect(mid, DecodeTurns(config, mid.states), t, late, ids)
    && FinishEffect(late, 0, t, after)
    && InOrder(mid.states)
    && (forall i: nat :: i in PrefillTurns(sys.states) <==> i < |sys.states| && Waiting(sys.states[i]))
    && |DecodeTurns(config, mid.states)| <= Max(0, config.decodeWidth)
    && (forall i | i in DecodeTurns(config, mid.states) :: i < |mid.states| && Decoding(mid.states[i]))
  }

  lemma StepStages(config: Config, sys: Sys, t: int)
    requires Boundary(sys) && t >= 0
    ensures Shaped(sys)
    ensures var (mid, used) := AfterPrefill(config, sys);
            var (late, ids) := AfterDecode(config, mid, t);
            Stages(config, sys, t, mid, used, late, ids, FinishPhase(late, 0, t))
  {
    hide SysInv, Inv, Waiting, Decoding, InOrder, Admit, Decode, FinishOne;
    PrefillOfStep(config, sys);
    var (mid, used) := AfterPrefill(config, sys);
    DecodeOfStep(config, mid, t);
    var (late, ids) := AfterDecode(config, mid, t);
    FinishPhaseEffect(late, 0, t);
    SysFacts(mid);
    SysFacts(late);
  }

  /** What a step does to one request, stage by stage. */
  predicate Journey(s: State, r: Result, s1: State, r1: Result, s2: State, r2: Result, s3: State, r3: Result, t: int) {
    && StateOk(s) && StateOk(s1) && StateOk(s2) && StateOk(s3)
    && ResultOk(s, r) && ResultOk(s1, r1) && ResultOk(s2, r2) && ResultOk(s3, r3)
    && (if Waiting(s) then Prefilled(s, r, s1, r1) else s1 == s && r1 == r)
    && ((s2 == s1 && r2 == r1) || (Decoding(s1) && Decoded(s1, r1, s2, r2, t)))
    && Finished(s2, r2, s3, r3, t)
  }

  ghost predicate Travels(config: Config, sys: Sys, t: int, mid: Sys, late: Sys, after: Sys, i: nat)
    requires |sys.results| == |sys.states| == |mid.states| == |mid.results| == |late.states| == |late.results|
    requires |after.states| == |after.results| == |sys.states| && i < |sys.states|
  {
    && Journey(sys.states[i], sys.results[i], mid.states[i], mid.results[i],
               late.states[i], late.results[i], after.states[i], after.results[i], t)
    && (if i in DecodeTurns(config, mid.states)
        then Decoding(mid.states[i]) && Decoded(mid.states[i], mid.results[i], late.states[i], late.results[i], t)
        else late.states[i] == mid.states[i] && late.results[i] == mid.results[i])
  }

  lemma EveryRequestTravels(config: Config, sys: Sys, t: int, mid: Sys, used: int, late: Sys, ids: seq<string>, after: Sys)
    requires SysInv(sys) && Stages(config, sys, t, mid, used, late, ids, after)
    ensures |after.states| == |after.results| == |sys.states|
    ensures forall i: nat | i < |sys.states| :: Travels(config, sys, t, mid, late, after, i)
  {
    hide SysInv, Inv, DecodedIds, Sum, DecodeTurns, PrefillTurns, InOrder;
    SysFacts(sys);
    SysFacts(mid);
    SysFacts(late);
    SysFacts(after);
  }

  lemma JourneyKeepsOrder(s: State, r: Result, s1: State, r1: Result, s2: State, r2: Result, s3: State, r3: Result, t: int)
    requires Journey(s, r, s1, r1, s2, r2, s3, r3, t)
    ensures s3.request == s1.request == s.request
    ensures Touched(s3) ==> Touched(s1)
    ensures Settled(s1) ==> Settled(s3)
    ensures Active(s3) && (Active(s) ==> s.generated < s.request.maxTokens) ==> s3.generated < s3.request.maxTokens
    ensures Work(s3) <= Work(s2) <= Work(s1) <= Work(s)
  {
  }

  lemma OrderSurvives(a: seq<State>, b: seq<State>)
    requires InOrder(a) && SameRequests(a, b)
    requires forall i: nat | i < |a| :: (Touched(b[i]) ==> Touched(a[i])) && (Settled(a[i]) ==> Settled(b[i]))
    ensures InOrder(b)
  {
    forall i: nat, j: nat | i < |b| && j < |b| && Before(b, j, i) && Touched(b[i])
      ensures Settled(b[j])
    {
      assert Before(a, j, i);
    }
  }

  lemma StagesKeepBoundary(config: Config, sys: Sys, t: int, mid: Sys, used: int, late: Sys, ids: seq<string>, after: Sys)
    requires Boundary(sys) && Stages(config, sys, t, mid, used, late, ids, after)
    ensures Boundary(after) && SameRequests(sys.states, after.states)
    ensures forall i: nat | i < |sys.states| :: Work(after.states[i]) <= Work(sys.states[i])
  {
    hide DecodeEffect, DecodeTurns, Decoded, Holds, PrefillEffect;
    EveryRequestTravels(config, sys, t, mid, used, late, ids, after);
    hide SysInv, Inv, InOrder, Journey, Active, Touched, Settled;
    forall i: nat | i < |sys.states|
      ensures after.states[i].request == mid.states[i].request == sys.states[i].request
      ensures Touched(after.states[i]) ==> Touched(mid.states[i])
      ensures Settled(mid.states[i]) ==> Settled(after.states[i])
      ensures Active(after.states[i]) ==> after.states[i].generated < after.states[i].request.maxTokens
      ensures Work(after.states[i]) <= Work(sys.states[i])
    {
      assert Travels(config, sys, t, mid, late, after, i);
      JourneyKeepsOrder(sys.states[i], sys.results[i], mid.states[i], mid.results[i],
                        late.states[i], late.results[i], after.states[i], after.results[i], t);
    }
    OrderSurvives(mid.states, after.states);
  }

  // ------------------------------------------------------------- progress

  predicate AllDone(states: seq<State>) {
    forall i: nat | i < |states| :: states[i].done
  }

  lemma CountIsZero(states: seq<State>)
    ensures Count(states, Unfinished) == 0 <==> AllDone(states)
  {
    WhereSelects(states, Unfinished, 0);
    var xs := Where(states, Unfinished, 0);
    assert xs == [] || xs[0] in xs;
    if !AllDone(states) {
      var i: nat :| i < |states| && !states[i].done;
      assert i in xs;
    }
  }

  lemma JourneyAdvances(s: State, r: Result, s1: State, r1: Result, s2: State, r2: Result, s3: State, r3: Result, t: int)
    requires Journey(s, r, s1, r1, s2, r2, s3, r3, t)
    ensures Work(s1) < Work(s) ==> Work(s3) < Work(s)
    ensures NothingToDecode(s1) ==> Work(s3) < Work(s)
    ensures Decoding(s1) && Decoded(s1, r1, s2, r2, t) ==> Work(s3) < Work(s)
  {
  }

  ghost predicate Advances(sys: Sys, after: Sys, i: nat) {
    i < |sys.states| && |after.states| == |sys.states| && Work(after.states[i]) < Work(sys.states[i])
  }

  lemma TravellerAdvances(config: Config, sys: Sys, t: int, mid: Sys, used: int, late: Sys, ids: seq<string>, after: Sys, i: nat)
    requires SysInv(sys) && Stages(config, sys, t, mid, used, late, ids, after) && i < |sys.states|
    requires || Work(mid.states[i]) < Work(sys.states[i])
             || NothingToDecode(mid.states[i])
             || i in DecodeTurns(config, mid.states)
    ensures Advances(sys, after, i)
  {
    EveryRequestTravels(config, sys, t, mid, used, late, ids, after);
    hide SysInv, Stages, Journey, Work, DecodeTurns;
    assert Travels(config, sys, t, mid, late, after, i);
    JourneyAdvances(sys.states[i], sys.results[i], mid.states[i], mid.results[i],
                    late.states[i], late.results[i], after.states[i], after.results[i], t);
  }

  /** A request that is in line for the step: still to prefill, or ready. */
  lemma SomeoneInLine(config: Config, sys: Sys, t: int, mid: Sys, used: int, late: Sys, ids: seq<string>, after: Sys)
    returns (i: nat)
    requires Boundary(sys) && Usable(config) && Stages(config, sys, t, mid, used, late, ids, after)
    requires !AllDone(sys.states)
    ensures i < |sys.states| && (Work(mid.states[i]) < Work(sys.states[i]) || Active(mid.states[i]))
  {
    hide SysInv, InOrder, DecodeEffect, FinishEffect, Work, DecodeTurns;
    var xs := PrefillTurns(sys.states);
    if xs == [] {
      i :| i < |sys.states| && !sys.states[i].done;
      assert i !in xs;
    } else {
      i := xs[0];
    }
  }

  /** A request that the step certainly brings closer to its end. */
  lemma SomeoneAdvances(config: Config, sys: Sys, t: int, mid: Sys, used: int, late: Sys, ids: seq<string>, after: Sys)
    returns (i: nat)
    requires Boundary(sys) && Usable(config) && Stages(config, sys, t, mid, used, late, ids, after)
    requires !AllDone(sys.states)
    ensures Advances(sys, after, i)
  {
    i := SomeoneInLine(config, sys, t, mid, used, late, ids, after);
    assert StateOk(mid.states[i]) by {
      SysFacts(mid);
    }
    hide SysInv, InOrder, Stages, Work, DecodeTurns;
    if !(Work(mid.states[i]) < Work(sys.states[i])) && !NothingToDecode(mid.states[i]) {
      StillHasTokens(config, sys, t, mid, used, late, ids, after, i);
      i := FirstTurn(config, mid.states, i);
    }
    TravellerAdvances(config, sys, t, mid, used, late, ids, after, i);
  }

  lemma StillHasTokens(config: Config, sys: Sys, t: int, mid: Sys, used: int, late: Sys, ids: seq<string>, after: Sys, i: nat)
    requires Boundary(sys) && Stages(config, sys, t, mid, used, late, ids, after)
    requires i < |sys.states| && Active(mid.states[i]) && !NothingToDecode(mid.states[i])
    ensures Decoding(mid.states[i])
  {
    EveryRequestTravels(config, sys, t, mid, used, late, ids, after);
    hide SysInv, Stages, InOrder, DecodeTurns;
    assert Travels(config, sys, t, mid, late, after, i);
  }

  lemma FirstTurn(config: Config, states: seq<State>, y: nat) returns (i: nat)
    requires y < |states| && Decoding(states[y]) && Usable(config)
    ensures i < |states| && i in DecodeTurns(config, states)
  {
    Candidates(states, Decoding);
    var ranked := Rank(states, Where(states, Decoding, 0));
    assert y in ranked;
    i := DecodeTurns(config, states)[0];
  }

  /** Every step keeps the boundary invariant, and an unfinished run loses work with every step. */
  lemma StepTheorem(config: Config, sys: Sys, t: int)
    requires Boundary(sys) && Usable(config) && t >= 0
    ensures Shaped(sys)
    ensures var after := TakeStep(config, sys, t).0;
            && Boundary(after) && SameRequests(sys.states, after.states)
            && 0 <= Sum(after.states, Work) <= Sum(sys.states, Work)
            && (!AllDone(sys.states) ==> Sum(after.states, Work) < Sum(sys.states, Work))
  {
    hide SysInv, Inv, InOrder, Stages, Work, NoIdleReady;
    StepStages(config, sys, t);
    var (mid, used) := AfterPrefill(config, sys);
    var (late, ids) := AfterDecode(config, mid, t);
    var after := FinishPhase(late, 0, t);
    StagesKeepBoundary(config, sys, t, mid, used, late, ids, after);
    SysFacts(after);
    SumNatural(after.states);
    SumMonotone(after.states, sys.states, Work);
    if !AllDone(sys.states) {
      var i := SomeoneAdvances(config, sys, t, mid, used, late, ids, after);
      SumStrict(after.states, sys.states, Work, i);
    }
  }

  // -------------------------------------------------------------- the run

  /** The rest of a run from step `t` on; `cancelled(t)` is what the callback answers before step `t`. */
  ghost function RunFrom(config: Config, sys: Sys, t: nat, cancelled: nat -> bool): (r: (Sys, seq<Step>))
    requires Boundary(sys) && Usable(config)
    decreases Sum(sys.states, Work)
  {
    SysFacts(sys);
    CountIsZero(sys.states);
    SumNatural(sys.states);
    if Count(sys.states, Unfinished) == 0 then (sys, [])
    else if cancelled(t) then (CancelFrom(sys, 0), [])
    else
      StepTheorem(config, sys, t);
      var (next, step) := TakeStep(config, sys, t);
      var (last, steps) := RunFrom(config, next, t + 1, cancelled);
      (last, [step] + steps)
  }

  lemma RunUnfolds(config: Config, sys: Sys, t: nat, cancelled: nat -> bool)
    requires Boundary(sys) && Usable(config)
    requires Count(sys.states, Unfinished) != 0 && !cancelled(t)
    ensures Shaped(sys)
    ensures var (next, step) := TakeStep(config, sys, t);
            && Boundary(next) && step.decodedTokens >= 0
            && RunFrom(config, sys, t, cancelled).0 == RunFrom(config, next, t + 1, cancelled).0
            && RunFrom(config, sys, t, cancelled).1 == [step] + RunFrom(config, next, t + 1, cancelled).1
  {
    hide Inv, SysInv, NoIdleReady, InOrder;
    BoundaryFacts(sys);
    CountIsZero(sys.states);
    StepTheorem(config, sys, t);
  }

  lemma RunStops(config: Config, sys: Sys, t: nat, cancelled: nat -> bool)
    requires Boundary(sys) && Usable(config)
    ensures Shaped(sys)
    ensures Count(sys.states, Unfinished) == 0 ==> RunFrom(config, sys, t, cancelled) == (sys, [])
    ensures Count(sys.states, Unfinished) != 0 && cancelled(t) ==> RunFrom(config, sys, t, cancelled) == (CancelFrom(sys, 0), [])
  {
    hide Inv, SysInv, NoIdleReady, InOrder;
    BoundaryFacts(sys);
  }
}
