/** What the phases of a step do to every request. */
module SchedulerPhases {
  import opened KvCache
  import opened KvInvariant
  import opened Scheduler
  import opened SchedulerInvariant
  import opened Sums

  // --------------------------------------------------------------- ranking

  lemma BeforeIsStrictOrder(states: seq<State>, i: nat, j: nat, k: nat)
    requires i < |states| && j < |states| && k < |states|
    ensures !Before(states, i, i)
    ensures i != j ==> (Before(states, i, j) <==> !Before(states, j, i))
    ensures Before(states, i, j) && Before(states, j, k) ==> Before(states, i, k)
  {
  }

  lemma {:induction false} InsertRanks(states: seq<State>, x: nat, xs: seq<nat>)
    requires x < |states| && Indices(states, xs) && Ranked(states, xs) && x !in xs
    ensures Ranked(states, Insert(states, x, xs))
    ensures forall y :: y in Insert(states, x, xs) <==> y == x || y in xs
  {
    if xs == [] {
    } else if Before(states, x, xs[0]) {
      forall b | 0 <= b < |xs|
        ensures Before(states, x, xs[b])
      {
        BeforeIsStrictOrder(states, x, xs[0], xs[b]);
      }
    } else {
      var rest := xs[1..];
      assert xs == [xs[0]] + rest;
      InsertRanks(states, x, rest);
      var tail := Insert(states, x, rest);
      forall b | 0 <= b < |tail|
        ensures Before(states, xs[0], tail[b])
      {
        assert tail[b] in tail;
        if tail[b] != x {
          var k :| 0 <= k < |rest| && rest[k] == tail[b];
          assert xs[k + 1] == tail[b];
        }
      }
    }
  }

  predicate NoRepeats(xs: seq<nat>) {
    forall a, b | 0 <= a < b < |xs| :: xs[a] != xs[b]
  }

  /** `Rank` is the sort by priority: ordered, and with the same members. */
  lemma {:induction false} RankSorts(states: seq<State>, xs: seq<nat>)
    requires Indices(states, xs) && NoRepeats(xs)
    ensures Ranked(states, Rank(states, xs))
    ensures forall y :: y in Rank(states, xs) <==> y in xs
  {
    if xs != [] {
      RankSorts(states, xs[1..]);
      assert xs == [xs[0]] + xs[1..];
      InsertRanks(states, xs[0], Rank(states, xs[1..]));
    }
  }

  /** The order is strict and total, so there is only one such sort. */
  lemma {:induction false} RankIsUnique(states: seq<State>, xs: seq<nat>, ys: seq<nat>)
    requires Indices(states, xs) && Indices(states, ys) && Ranked(states, xs) && Ranked(states, ys)
    requires forall y :: y in xs <==> y in ys
    ensures xs == ys
  {
    if xs == [] {
      assert forall k | 0 <= k < |ys| :: ys[k] !in xs;
    } else {
      assert xs[0] in ys && ys != [] && ys[0] in xs;
      BeforeIsStrictOrder(states, xs[0], ys[0], xs[0]);
      assert xs[0] == ys[0];
      forall y
        ensures y in xs[1..] <==> y in ys[1..]
      {
        RestOfRanked(states, xs, y);
        RestOfRanked(states, ys, y);
      }
      RankIsUnique(states, xs[1..], ys[1..]);
      assert xs == [xs[0]] + xs[1..] && ys == [ys[0]] + ys[1..];
    }
  }

  lemma RestOfRanked(states: seq<State>, xs: seq<nat>, y: nat)
    requires Indices(states, xs) && Ranked(states, xs) && xs != []
    ensures y in xs[1..] <==> y in xs && y != xs[0]
  {
    assert xs == [xs[0]] + xs[1..];
    if y in xs[1..] {
      var k :| 1 <= k < |xs| && xs[k] == y;
      assert Before(states, xs[0], xs[k]);
    }
  }

  lemma {:induction false} WhereSelects(states: seq<State>, p: State -> bool, from: nat)
    requires from <= |states|
    ensures var xs := Where(states, p, from);
            && NoRepeats(xs)
            && (forall y: nat :: y in xs <==> from <= y < |states| && p(states[y]))
    decreases |states| - from
  {
    if from < |states| {
      WhereSelects(states, p, from + 1);
      var rest := Where(states, p, from + 1);
      assert Where(states, p, from) == (if p(states[from]) then [from] else []) + rest;
      assert from !in rest;
    }
  }

  /** The candidates of a phase: ranked, and exactly the states that satisfy `p`. */
  lemma Candidates(states: seq<State>, p: State -> bool)
    ensures var xs := Rank(states, Where(states, p, 0));
            && Ranked(states, xs)
            && (forall y: nat :: y in xs <==> y < |states| && p(states[y]))
  {
    WhereSelects(states, p, 0);
    RankSorts(states, Where(states, p, 0));
  }

  // ------------------------------------------------------ comparing states

  predicate SameRequests(a: seq<State>, b: seq<State>) {
    |a| == |b| && forall i: nat | i < |a| :: a[i].request == b[i].request
  }

  predicate Settled(s: State) { s.promptReady || s.done }

  predicate Touched(s: State) { s.promptAllocated || s.done }

  function Remaining(s: State): int { s.prefillRemaining }

  function Generated(s: State): int { s.generated }

  /** Work left for a state: its unread prompt, its missing tokens, and finishing. */
  function Work(s: State): int {
    if s.done then 0 else s.prefillRemaining + (s.request.maxTokens - s.generated) + 1
  }

  // --------------------------------------------------------------- prefill

  predicate Prefilled(s: State, r: Result, s': State, r': Result) {
    || (s' == s && r' == r)
    || Refused(s, r, s', r')
    || Filled(s, r, s', r', s.prefillRemaining - s'.prefillRemaining)
  }

  ghost predicate PrefillEffect(sys: Sys, xs: seq<nat>, budget: int, after: Sys, total: int)
    requires Indices(sys.states, xs) && |sys.results| == |sys.states|
  {
    && SysInv(after) && SameRequests(sys.states, after.states)
    && (forall i: nat | i < |sys.states| && i !in xs ::
          after.states[i] == sys.states[i] && after.results[i] == sys.results[i])
    && (forall i: nat | i < |sys.states| ::
          Prefilled(sys.states[i], sys.results[i], after.states[i], after.results[i]))
    && 0 <= total <= Max(0, budget)
    && total == Sum(sys.states, Remaining) - Sum(after.states, Remaining)
    && Sum(after.states, Generated) == Sum(sys.states, Generated)
    && (xs != [] && budget > 0 ==>
          var s, s' := sys.states[xs[0]], after.states[xs[0]];
          Work(s') < Work(s) || (!s'.done && s'.promptReady))
  }

  lemma PrefillStep(sys: Sys, xs: seq<nat>, budget: int, next: Sys, consumed: int, after: Sys, more: int)
    requires SysInv(sys) && Indices(sys.states, xs) && Ranked(sys.states, xs) && xs != [] && budget > 0
    requires Waiting(sys.states[xs[0]])
    requires Admitted(sys, xs[0], budget, next, consumed)
    requires Indices(next.states, xs[1..]) && |next.results| == |next.states|
    requires PrefillEffect(next, xs[1..], budget - consumed, after, more)
    ensures PrefillEffect(sys, xs, budget, after, consumed + more)
  {
    hide SysInv, Sum, Inv, CeilDiv, ResultOk, SequenceOk;
    SysFacts(sys);
    var i := xs[0];
    var rest := xs[1..];
    assert forall y :: y in xs <==> y == i || y in rest by {
      assert xs == [i] + rest;
    }
    assert i !in rest by {
      RestOfRanked(sys.states, xs, i);
    }
    SumUpdate(sys.states, i, next.states[i], Remaining);
    SumUpdate(sys.states, i, next.states[i], Generated);
  }

  lemma {:induction false} PrefillPhaseEffect(sys: Sys, xs: seq<nat>, budget: int)
    requires SysInv(sys) && Indices(sys.states, xs) && Ranked(sys.states, xs)
    requires forall k | 0 <= k < |xs| :: Waiting(sys.states[xs[k]])
    ensures var (after, total) := PrefillPhase(sys, xs, budget);
            PrefillEffect(sys, xs, budget, after, total)
    decreases |xs|
  {
    hide SysInv, Inv, PrefillEffect, Sum, Admit;
    if xs == [] || budget <= 0 {
      NothingPrefilled(sys, xs, budget);
    } else {
      SysFacts(sys);
      AdmitTurn(sys, xs[0], budget);
      var (next, consumed) := Admit(sys, xs[0], budget);
      forall k | 1 <= k < |xs|
        ensures xs[k] != xs[0]
      {
        assert Before(sys.states, xs[0], xs[k]);
      }
      PrefillPhaseEffect(next, xs[1..], budget - consumed);
      var (after, more) := PrefillPhase(next, xs[1..], budget - consumed);
      PrefillStep(sys, xs, budget, next, consumed, after, more);
    }
  }

  lemma NothingPrefilled(sys: Sys, xs: seq<nat>, budget: int)
    requires SysInv(sys) && Indices(sys.states, xs) && (xs == [] || budget <= 0)
    ensures PrefillEffect(sys, xs, budget, sys, 0)
  {
  }

  // ---------------------------------------------------------------- order

  /** Once a request has been touched, everything ranked before it is ready or done. */
  predicate InOrder(states: seq<State>) {
    forall i: nat, j: nat | i < |states| && j < |states| && Before(states, j, i) && Touched(states[i]) ::
      Settled(states[j])
  }

  predicate AheadSettled(states: seq<State>, xs: seq<nat>)
    requires Indices(states, xs)
  {
    forall k, j: nat | 0 <= k < |xs| && j < |states| && Before(states, j, xs[k]) && j !in xs :: Settled(states[j])
  }

  lemma AdmitKeepsOrder(states: seq<State>, xs: seq<nat>, s: State)
    requires Indices(states, xs) && Ranked(states, xs) && xs != [] && InOrder(states) && AheadSettled(states, xs)
    requires s.request == states[xs[0]].request && (Settled(states[xs[0]]) ==> Settled(s))
    ensures InOrder(states[xs[0] := s])
    ensures Settled(s) && Indices(states[xs[0] := s], xs[1..]) ==> AheadSettled(states[xs[0] := s], xs[1..])
  {
    var x := xs[0];
    var states' := states[x := s];
    assert xs == [x] + xs[1..];
    assert forall k | 0 <= k < |xs| :: !Before(states, xs[k], x);
    forall i: nat, j: nat | i < |states| && j < |states| && Before(states', j, i) && Touched(states'[i])
      ensures Settled(states'[j])
    {
      assert Before(states, j, i);
      if i == x {
        assert Before(states, j, xs[0]);
      }
    }
  }

  lemma {:induction false} PrefillKeepsOrder(sys: Sys, xs: seq<nat>, budget: int)
    requires SysInv(sys) && Indices(sys.states, xs) && Ranked(sys.states, xs)
    requires forall k | 0 <= k < |xs| :: Waiting(sys.states[xs[k]])
    requires InOrder(sys.states) && AheadSettled(sys.states, xs)
    ensures InOrder(PrefillPhase(sys, xs, budget).0.states)
    decreases |xs|
  {
    hide SysInv, Inv, Admit, InOrder, AheadSettled;
    if xs != [] && budget > 0 {
      SysFacts(sys);
      AdmitTurn(sys, xs[0], budget);
      var (next, consumed) := Admit(sys, xs[0], budget);
      forall k | 1 <= k < |xs|
        ensures xs[k] != xs[0]
      {
        assert Before(sys.states, xs[0], xs[k]);
      }
      AdmitKeepsOrder(sys.states, xs, next.states[xs[0]]);
      if budget - consumed > 0 {
        PrefillKeepsOrder(next, xs[1..], budget - consumed);
      }
    }
  }

  // --------------------------------------------------------------- decode

  predicate Decoded(s: State, r: Result, s': State, r': Result, t: int) {
    GotToken(s, r, s', r', t) || LostOut(s, r, s', r')
  }

  ghost predicate DecodeEffect(sys: Sys, xs: seq<nat>, t: int, after: Sys, ids: seq<string>)
    requires Indices(sys.states, xs) && |sys.results| == |sys.states|
  {
    && SysInv(after) && SameRequests(sys.states, after.states)
    && (forall i: nat | i < |sys.states| && i !in xs ::
          after.states[i] == sys.states[i] && after.results[i] == sys.results[i])
    && (forall i | i in xs ::
          Decoded(sys.states[i], sys.results[i], after.states[i], after.results[i], t))
    && |ids| == Sum(after.states, Generated) - Sum(sys.states, Generated)
    && |ids| <= |xs|
    && Sum(after.states, Remaining) == Sum(sys.states, Remaining)
    && DecodedIds(sys.states, xs, after.states, ids)
  }

  predicate NamedBy(states: seq<State>, xs: seq<nat>, id: string)
    requires Indices(states, xs)
  {
    exists k :: 0 <= k < |xs| && states[xs[k]].request.id == id
  }

  /** The reported ids are those of exactly the requests that got a token, each once. */
  predicate DecodedIds(states: seq<State>, xs: seq<nat>, after: seq<State>, ids: seq<string>)
    requires Indices(states, xs)
  {
    && |after| == |states|
    && (forall i | i in xs :: states[i].request.id in ids <==> after[i].generated == states[i].generated + 1)
    && (forall id | id in ids :: NamedBy(states, xs, id))
    && (forall a, b | 0 <= a < b < |ids| :: ids[a] != ids[b])
  }

  lemma DecodedIdsStep(states: seq<State>, xs: seq<nat>, next: seq<State>, after: seq<State>, decoded: bool, more: seq<string>)
    requires Indices(states, xs) && Ranked(states, xs) && xs != []
    requires |next| == |states| == |after|
    requires next == states[xs[0] := next[xs[0]]] && next[xs[0]].request == states[xs[0]].request
    requires next[xs[0]].generated == states[xs[0]].generated + if decoded then 1 else 0
    requires forall y | y in xs[1..] :: y < |states| && states[y].request.id != states[xs[0]].request.id
    requires Indices(next, xs[1..]) && DecodedIds(next, xs[1..], after, more)
    requires after[xs[0]] == next[xs[0]]
    ensures DecodedIds(states, xs, after, (if decoded then [states[xs[0]].request.id] else []) + more)
  {
    var x, rest := xs[0], xs[1..];
    var id := states[x].request.id;
    var ids := (if decoded then [id] else []) + more;
    assert xs == [x] + rest;
    assert x !in rest;
    forall other | other in more
      ensures NamedBy(states, xs, other) && other != id
    {
      assert NamedBy(next, rest, other);
      var k :| 0 <= k < |rest| && next[rest[k]].request.id == other;
      assert rest[k] in rest && xs[k + 1] == rest[k];
    }
    assert NamedBy(states, xs, id) by {
      assert states[xs[0]].request.id == id;
    }
    forall i | i in xs
      ensures states[i].request.id in ids <==> after[i].generated == states[i].generated + 1
    {
      if i != x {
        assert i in rest;
      }
    }
  }

  lemma DecodeStep(sys: Sys, xs: seq<nat>, t: int, next: Sys, decoded: bool, after: Sys, more: seq<string>)
    requires SysInv(sys) && Indices(sys.states, xs) && Ranked(sys.states, xs) && xs != []
    requires forall k | 0 <= k < |xs| :: Decoding(sys.states[xs[k]])
    requires DecodedOnce(sys, xs[0], t, next, decoded)
    requires Indices(next.states, xs[1..]) && |next.results| == |next.states|
    requires DecodeEffect(next, xs[1..], t, after, more)
    ensures DecodeEffect(sys, xs, t, after, (if decoded then [sys.states[xs[0]].request.id] else []) + more)
  {
    hide SysInv, DecodedIds, Sum, Decoding;
    var i := xs[0];
    var rest := xs[1..];
    assert forall y :: y in xs <==> y == i || y in rest by {
      assert xs == [i] + rest;
    }
    assert i !in rest by {
      RestOfRanked(sys.states, xs, i);
    }
    OthersHaveOtherIds(sys, xs);
    SumUpdate(sys.states, i, next.states[i], Remaining);
    SumUpdate(sys.states, i, next.states[i], Generated);
    DecodedIdsStep(sys.states, xs, next.states, after.states, decoded, more);
  }

  lemma OthersHaveOtherIds(sys: Sys, xs: seq<nat>)
    requires SysInv(sys) && Indices(sys.states, xs) && Ranked(sys.states, xs) && xs != []
    requires forall k | 0 <= k < |xs| :: Decoding(sys.states[xs[k]])
    ensures forall y | y in xs[1..] :: y < |sys.states| && sys.states[y].request.id != sys.states[xs[0]].request.id
  {
    forall y | y in xs[1..]
      ensures y < |sys.states| && sys.states[y].request.id != sys.states[xs[0]].request.id
    {
      var k :| 1 <= k < |xs| && xs[k] == y;
      assert Before(sys.states, xs[0], xs[k]);
      assert Live(sys.states[y]) && Live(sys.states[xs[0]]);
    }
  }

  lemma {:induction false} DecodePhaseEffect(sys: Sys, xs: seq<nat>, t: int)
    requires SysInv(sys) && Indices(sys.states, xs) && Ranked(sys.states, xs) && t >= 0
    requires forall k | 0 <= k < |xs| :: Decoding(sys.states[xs[k]])
    ensures Shaped(sys)
    ensures var (after, ids) := DecodePhase(sys, xs, t);
            DecodeEffect(sys, xs, t, after, ids)
    decreases |xs|
  {
    hide SysInv, Inv, DecodeEffect, Decode;
    SysFacts(sys);
    if xs == [] {
      NothingDecoded(sys, xs, t);
    } else {
      DecodeTurn(sys, xs[0], t);
      var (next, decoded) := Decode(sys, xs[0], t);
      forall k | 1 <= k < |xs|
        ensures xs[k] != xs[0]
      {
        assert Before(sys.states, xs[0], xs[k]);
      }
      DecodePhaseEffect(next, xs[1..], t);
      var (after, more) := DecodePhase(next, xs[1..], t);
      DecodeStep(sys, xs, t, next, decoded, after, more);
    }
  }

  lemma NothingDecoded(sys: Sys, xs: seq<nat>, t: int)
    requires SysInv(sys) && xs == []
    ensures DecodeEffect(sys, xs, t, sys, [])
  {
  }

  // --------------------------------------------------------------- finish

  predicate Finished(s: State, r: Result, s': State, r': Result, t: int) {
    if NothingToDecode(s) then FinishedEmpty(s, r, s', r', t) else s' == s && r' == r
  }

  ghost predicate FinishEffect(sys: Sys, from: nat, t: int, after: Sys)
    requires |sys.results| == |sys.states|
  {
    && SysInv(after) && SameRequests(sys.states, after.states)
    && (forall i: nat | i < |sys.states| && i < from ::
          after.states[i] == sys.states[i] && after.results[i] == sys.results[i])
    && (forall i: nat | from <= i < |sys.states| ::
          Finished(sys.states[i], sys.results[i], after.states[i], after.results[i], t))
    && Sum(after.states, Generated) == Sum(sys.states, Generated)
    && Sum(after.states, Remaining) == Sum(sys.states, Remaining)
  }

  lemma FinishStep(sys: Sys, from: nat, t: int, next: Sys, after: Sys)
    requires from < |sys.states| && OnlyAt(sys, next, from)
    requires if NothingToDecode(sys.states[from])
             then FinishedEmpty(sys.states[from], sys.results[from], next.states[from], next.results[from], t)
             else next == sys
    requires FinishEffect(next, from + 1, t, after)
    ensures FinishEffect(sys, from, t, after)
  {
    hide SysInv, Sum;
    SumUpdate(sys.states, from, next.states[from], Remaining);
    SumUpdate(sys.states, from, next.states[from], Generated);
  }

  lemma {:induction false} FinishPhaseEffect(sys: Sys, from: nat, t: int)
    requires SysInv(sys) && from <= |sys.states|
    ensures FinishEffect(sys, from, t, FinishPhase(sys, from, t))
    decreases |sys.states| - from
  {
    hide SysInv, Inv, FinishEffect, FinishOne;
    SysFacts(sys);
    if from == |sys.states| {
      NothingFinished(sys, from, t);
    } else {
      FinishTurn(sys, from, t);
      FinishPhaseEffect(FinishOne(sys, from, t), from + 1, t);
      FinishStep(sys, from, t, FinishOne(sys, from, t), FinishPhase(sys, from, t));
    }
  }

  lemma NothingFinished(sys: Sys, from: nat, t: int)
    requires SysInv(sys) && from == |sys.states|
    ensures FinishEffect(sys, from, t, sys)
  {
  }
}
