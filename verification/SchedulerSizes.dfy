/** How many cache blocks a request holds while it lives, and what its result reports. */
module SchedulerSizes {
  import opened KvCache
  import opened KvInvariant
  import opened KvOperations
  import opened KvPrompt
  import opened KvSequence
  import opened KvTheory
  import opened Scheduler
  import opened SchedulerInvariant
  import opened SchedulerPhases
  import opened SchedulerRun
  import opened SchedulerTiming
  import opened SchedulerCache
  import opened SchedulerTheorems
  import opened SchedulerTrace
  import opened Sums

  /** The blocks of a request's prompt and of `generated` tokens. */
  function Size(perBlock: int, q: Request, generated: int): int
    requires perBlock > 0
  {
    PrefixBlocks(perBlock, Max(0, q.promptTokens), q.key, q.prefixTokens)
    + SuffixBlocks(perBlock, Max(0, q.promptTokens), q.key, q.prefixTokens)
    + CeilDiv(generated, perBlock)
  }

  /** A live request holds the blocks of its prompt and its tokens so far; a result reports what the
      request held at its end. */
  ghost predicate SizeOk(sequences: map<string, Sequence>, perBlock: int, s: State, r: Result)
    requires perBlock > 0
  {
    && (Live(s) ==> s.request.id in sequences && |sequences[s.request.id].blockIds| == Size(perBlock, s.request, s.generated))
    && (s.done && s.promptAllocated && r.status != Cancelled ==> r.kvBlocks == Size(perBlock, s.request, s.generated))
    && (r.status == Completed ==> s.done && s.promptAllocated)
  }

  ghost predicate Sized(sys: Sys, perBlock: int) {
    && Shaped(sys) && sys.kv.tokensPerBlock == perBlock
    && forall i: nat | i < |sys.states| :: SizeOk(sys.kv.sequences, perBlock, sys.states[i], sys.results[i])
  }

  /** The other live requests' sequences stay as they are. */
  ghost predicate OthersStay(a: Sys, b: Sys, i: nat) {
    forall j: nat | j < |a.states| && j != i && Live(a.states[j]) && a.states[j].request.id in a.kv.sequences ::
      var id := a.states[j].request.id;
      id in b.kv.sequences && b.kv.sequences[id] == a.kv.sequences[id]
  }

  lemma SizedMoves(a: Sys, b: Sys, i: nat, perBlock: int)
    requires Sized(a, perBlock) && i < |a.states| && OnlyAt(a, b, i) && OthersStay(a, b, i)
    requires b.kv.tokensPerBlock == perBlock > 0
    requires SizeOk(b.kv.sequences, perBlock, b.states[i], b.results[i])
    ensures Sized(b, perBlock)
  {
    hide Size;
    forall j: nat | j < |b.states|
      ensures SizeOk(b.kv.sequences, perBlock, b.states[j], b.results[j])
    {
      assert SizeOk(a.kv.sequences, perBlock, a.states[j], a.results[j]);
    }
  }

  lemma OnlyOwnId(sys: Sys, i: nat, j: nat)
    requires SysInv(sys) && i < |sys.states| && j < |sys.states| && i != j && Live(sys.states[i]) && Live(sys.states[j])
    ensures sys.states[i].request.id != sys.states[j].request.id
  {
  }

  lemma AdmitKeepsSizes(sys: Sys, i: nat, budget: int, perBlock: int)
    requires SysInv(sys) && i < |sys.states| && Waiting(sys.states[i]) && budget > 0 && Sized(sys, perBlock)
    ensures Sized(Admit(sys, i, budget).0, perBlock)
  {
    hide AllocateBlocks, HasOwner, Holds, Orphans, PromptVictims, SysInv;
    SysFacts(sys);
    AdmitTurn(sys, i, budget);
    var after := Admit(sys, i, budget).0;
    var s := sys.states[i];
    var q := s.request;
    assert SizeOk(sys.kv.sequences, perBlock, s, sys.results[i]);
    hide AllocatePrompt, PromptAccepted, OverwritesPrefix, CeilDiv;
    if !s.promptAllocated {
      AllocatePromptTheorem(sys.kv, q.id, q.promptTokens, q.key, q.prefixTokens);
      PromptKeepsShape(sys.kv, q.id, q.promptTokens, q.key, q.prefixTokens);
      NothingGenerated(sys.kv.tokensPerBlock, s);
    }
    SizedMoves(sys, after, i, perBlock);
  }

  /** A refused prompt reports the blocks that its id holds at that moment: none, unless another live request has
      the same id. */
  lemma RefusedSize(sys: Sys, i: nat, budget: int)
    requires SysInv(sys) && i < |sys.states| && Waiting(sys.states[i]) && !sys.states[i].promptAllocated
    ensures var after, id := Admit(sys, i, budget).0, sys.states[i].request.id;
            && |after.states| == |after.results| == |sys.states|
            && (after.states[i].done ==>
                  after.results[i].kvBlocks == if id in sys.kv.sequences then |sys.kv.sequences[id].blockIds| else 0)
  {
    SysFacts(sys);
    var q := sys.states[i].request;
    hide SysInv, Holds, AllocatePrompt, PromptAccepted, OverwritesPrefix, Orphans, PromptVictims, CeilDiv;
    AllocatePromptTheorem(sys.kv, q.id, q.promptTokens, q.key, q.prefixTokens);
  }

  lemma NothingGenerated(perBlock: int, s: State)
    requires StateOk(s) && !s.promptAllocated && perBlock > 0
    ensures s.generated == 0 && CeilDiv(s.generated, perBlock) == 0
  {
  }

  lemma DecodeKeepsSizes(sys: Sys, i: nat, t: int, perBlock: int)
    requires SysInv(sys) && i < |sys.states| && Decoding(sys.states[i]) && t >= 0 && Sized(sys, perBlock)
    ensures Sized(Decode(sys, i, t).0, perBlock)
  {
    SysFacts(sys);
    DecodeTurn(sys, i, t);
    LiveOwns(sys, i);
    var after := Decode(sys, i, t).0;
    var s := sys.states[i];
    var id := s.request.id;
    assert SizeOk(sys.kv.sequences, perBlock, s, sys.results[i]);
    forall j: nat | j < |sys.states| && j != i && Live(sys.states[j])
      ensures sys.states[j].request.id != id
    {
      OnlyOwnId(sys, i, j);
    }
    hide SysInv, Holds, AppendTokens, AppendAccepted, Orphans, CeilDiv, StateOk, ResultOk, Size, SizeOk, Sized, FreeCount, Undone, GrowthBlocks;
    TokenSize(sys, i, t, perBlock);
    TokenLeavesOthers(sys, i, t);
    SizedMoves(sys, after, i, perBlock);
  }

  lemma SizeGrows(perBlock: int, q: Request, generated: int)
    requires perBlock > 0
    ensures Size(perBlock, q, generated + 1) == Size(perBlock, q, generated) + GrowthBlocks(perBlock, generated, 1)
  {
  }

  /** The append's outcome for the sequence itself. */
  lemma AppendSizes(kv: Kv, id: string)
    requires Inv(kv) && id in kv.sequences
    ensures kv.tokensPerBlock > 0
    ensures var (after, r) := AppendTokens(kv, id, 1);
            && id in after.sequences && after.sequences == kv.sequences[id := after.sequences[id]]
            && |after.sequences[id].blockIds| == |kv.sequences[id].blockIds|
                 + (if r.ok then GrowthBlocks(kv.tokensPerBlock, kv.sequences[id].generatedTokens, 1) else 0)
            && after.tokensPerBlock == kv.tokensPerBlock
  {
    hide Holds, AppendTokens, AppendAccepted, Orphans, GrowthBlocks, FreeCount;
    AppendTokensTheorem(kv, id, 1);
    AppendKeepsShape(kv, id, 1);
  }

  lemma TokenSize(sys: Sys, i: nat, t: int, perBlock: int)
    requires Shaped(sys) && Inv(sys.kv) && i < |sys.states| && Decoding(sys.states[i]) && perBlock == sys.kv.tokensPerBlock
    requires Owns(sys.kv.sequences, sys.states[i]) && SizeOk(sys.kv.sequences, perBlock, sys.states[i], sys.results[i])
    requires sys.states[i].promptAllocated
    ensures var after := Decode(sys, i, t).0;
            && after.kv.tokensPerBlock == perBlock
            && SizeOk(after.kv.sequences, perBlock, after.states[i], after.results[i])
  {
    hide Holds, AppendTokens, GrowthBlocks, Size;
    var s := sys.states[i];
    AppendSizes(sys.kv, s.request.id);
    SizeGrows(perBlock, s.request, s.generated);
  }

  lemma TokenLeavesOthers(sys: Sys, i: nat, t: int)
    requires Shaped(sys) && Inv(sys.kv) && i < |sys.states| && Owns(sys.kv.sequences, sys.states[i])
    requires forall j: nat | j < |sys.states| && j != i && Live(sys.states[j]) ::
               sys.states[j].request.id != sys.states[i].request.id
    ensures OthersStay(sys, Decode(sys, i, t).0, i)
  {
    hide Holds, AppendTokens, GrowthBlocks;
    AppendSizes(sys.kv, sys.states[i].request.id);
  }

  lemma FinishKeepsSizes(sys: Sys, i: nat, t: int, perBlock: int)
    requires SysInv(sys) && i < |sys.states| && Sized(sys, perBlock)
    ensures Sized(FinishOne(sys, i, t), perBlock)
  {
    hide CeilDiv, HasOwner, Holds;
    SysFacts(sys);
    FinishTurn(sys, i, t);
    var after := FinishOne(sys, i, t);
    var s := sys.states[i];
    if NothingToDecode(s) {
      LiveOwns(sys, i);
      assert SizeOk(sys.kv.sequences, perBlock, s, sys.results[i]);
      forall j: nat | j < |sys.states| && j != i && Live(sys.states[j])
        ensures sys.states[j].request.id != s.request.id
      {
        OnlyOwnId(sys, i, j);
      }
      ReleaseTheorem(sys.kv, s.request.id);
      hide SysInv, Orphans, StateOk, ResultOk;
      SizedMoves(sys, after, i, perBlock);
    }
  }

  // ------------------------------------------------------ through the phases

  lemma {:induction false} PrefillKeepsSizes(sys: Sys, xs: seq<nat>, budget: int, perBlock: int)
    requires SysInv(sys) && Indices(sys.states, xs) && Ranked(sys.states, xs) && Sized(sys, perBlock)
    requires forall k | 0 <= k < |xs| :: Waiting(sys.states[xs[k]])
    ensures Sized(PrefillPhase(sys, xs, budget).0, perBlock)
    decreases |xs|
  {
    hide SysInv, Inv, Admit, SizeOk;
    SysFacts(sys);
    if xs != [] && budget > 0 {
      AdmitTurn(sys, xs[0], budget);
      AdmitKeepsSizes(sys, xs[0], budget, perBlock);
      var (next, consumed) := Admit(sys, xs[0], budget);
      forall k | 1 <= k < |xs|
        ensures xs[k] != xs[0]
      {
        assert Before(sys.states, xs[0], xs[k]);
      }
      PrefillKeepsSizes(next, xs[1..], budget - consumed, perBlock);
    }
  }

  lemma {:induction false} DecodePhaseKeepsSizes(sys: Sys, xs: seq<nat>, t: int, perBlock: int)
    requires SysInv(sys) && Indices(sys.states, xs) && Ranked(sys.states, xs) && t >= 0 && Sized(sys, perBlock)
    requires forall k | 0 <= k < |xs| :: Decoding(sys.states[xs[k]])
    ensures Sized(DecodePhase(sys, xs, t).0, perBlock)
    decreases |xs|
  {
    hide SysInv, Inv, Decode, SizeOk;
    SysFacts(sys);
    if xs != [] {
      DecodeTurn(sys, xs[0], t);
      DecodeKeepsSizes(sys, xs[0], t, perBlock);
      var (next, decoded) := Decode(sys, xs[0], t);
      forall k | 1 <= k < |xs|
        ensures xs[k] != xs[0]
      {
        assert Before(sys.states, xs[0], xs[k]);
      }
      DecodePhaseKeepsSizes(next, xs[1..], t, perBlock);
    }
  }

  lemma {:induction false} FinishPhaseKeepsSizes(sys: Sys, from: nat, t: int, perBlock: int)
    requires SysInv(sys) && from <= |sys.states| && Sized(sys, perBlock)
    ensures Sized(FinishPhase(sys, from, t), perBlock)
    decreases |sys.states| - from
  {
    hide SysInv, Inv, FinishOne, SizeOk;
    SysFacts(sys);
    if from < |sys.states| {
      FinishTurn(sys, from, t);
      FinishKeepsSizes(sys, from, t, perBlock);
      FinishPhaseKeepsSizes(FinishOne(sys, from, t), from + 1, t, perBlock);
    }
  }

  lemma StepPrefillKeepsSizes(config: Config, sys: Sys, perBlock: int)
    requires Boundary(sys) && Sized(sys, perBlock)
    ensures var mid := AfterPrefill(config, sys).0; SysInv(mid) && Sized(mid, perBlock)
  {
    hide SysInv, InOrder, Sized, Inv;
    SysFacts(sys);
    Candidates(sys.states, Waiting);
    var xs := PrefillTurns(sys.states);
    assert forall k | 0 <= k < |xs| :: xs[k] in xs;
    PrefillKeepsSizes(sys, xs, config.prefillBudget, perBlock);
    PrefillPhaseEffect(sys, xs, config.prefillBudget);
  }

  lemma StepDecodeKeepsSizes(config: Config, mid: Sys, t: int, perBlock: int)
    requires SysInv(mid) && t >= 0 && Sized(mid, perBlock)
    ensures var late := AfterDecode(config, mid, t).0; SysInv(late) && Sized(late, perBlock)
  {
    hide SysInv, Sized, Inv;
    SysFacts(mid);
    DecodeOfStep(config, mid, t);
    var ds := DecodeTurns(config, mid.states);
    assert forall k | 0 <= k < |ds| :: ds[k] in ds;
    DecodePhaseKeepsSizes(mid, ds, t, perBlock);
  }

  lemma StepKeepsSizes(config: Config, sys: Sys, t: int, perBlock: int)
    requires Boundary(sys) && t >= 0 && Sized(sys, perBlock)
    ensures Sized(TakeStep(config, sys, t).0, perBlock)
  {
    hide SysInv, NoIdleReady, InOrder, SizeOk, AfterPrefill, AfterDecode, FinishPhase;
    StepPrefillKeepsSizes(config, sys, perBlock);
    var mid := AfterPrefill(config, sys).0;
    StepDecodeKeepsSizes(config, mid, t, perBlock);
    FinishPhaseKeepsSizes(AfterDecode(config, mid, t).0, 0, t, perBlock);
  }

  /** The results of a run report the blocks their requests held at the end. */
  ghost predicate Reported(last: Sys, perBlock: int) {
    && Shaped(last) && perBlock > 0
    && forall i: nat | i < |last.states| ::
         && (last.results[i].status == Completed ==> last.states[i].promptAllocated)
         && (last.results[i].status != Cancelled && last.states[i].done && last.states[i].promptAllocated ==>
               last.results[i].kvBlocks == Size(perBlock, last.states[i].request, last.states[i].generated))
  }

  lemma CancelReports(sys: Sys, perBlock: int)
    requires Sized(sys, perBlock)
    ensures Reported(CancelFrom(sys, 0), perBlock)
  {
    CancelMarks(sys, 0);
    hide Size;
    var after := CancelFrom(sys, 0);
    forall i: nat | i < |after.states|
      ensures after.results[i].status == Completed ==> after.states[i].promptAllocated
      ensures after.results[i].status != Cancelled && after.states[i].done && after.states[i].promptAllocated ==>
                after.results[i].kvBlocks == Size(perBlock, after.states[i].request, after.states[i].generated)
    {
      assert SizeOk(sys.kv.sequences, perBlock, sys.states[i], sys.results[i]);
      assert CancelledAs(sys.states[i], sys.results[i], after.states[i], after.results[i]);
    }
  }

  lemma SizedReports(sys: Sys, perBlock: int)
    requires Sized(sys, perBlock)
    ensures Reported(sys, perBlock)
  {
    hide Size;
    forall i: nat | i < |sys.states|
      ensures SizeOk(sys.kv.sequences, perBlock, sys.states[i], sys.results[i])
    {
    }
  }

  lemma {:induction false} RunReports(config: Config, sys: Sys, t: nat, cancelled: nat -> bool, perBlock: int)
    requires Boundary(sys) && Usable(config) && Sized(sys, perBlock)
    ensures Reported(RunFrom(config, sys, t, cancelled).0, perBlock)
    decreases Sum(sys.states, Work)
  {
    SysFacts(sys);
    hide SysInv, Inv, NoIdleReady, InOrder, Work, TakeStep, Sum, Sized, Reported;
    SumNatural(sys.states);
    CountIsZero(sys.states);
    if AllDone(sys.states) {
      SizedReports(sys, perBlock);
    } else if cancelled(t) {
      CancelReports(sys, perBlock);
    } else {
      StepTheorem(config, sys, t);
      StepKeepsSizes(config, sys, t, perBlock);
      RunReports(config, TakeStep(config, sys, t).0, t + 1, cancelled, perBlock);
    }
  }

  /** A completed request's result reports just enough blocks for its cacheable prompt tokens, its other prompt
      tokens and its generated tokens. */
  lemma SizeTheorem(config: Config, requests: seq<Request>, cancelled: nat -> bool, i: nat)
    requires i < |requests|
    ensures var last := FullRun(config, requests, cancelled).0;
            && i < |last.results|
            && (last.results[i].status == Completed ==>
                  var q, p, c := requests[i], Max(0, requests[i].promptTokens), SharedTokens(requests[i]);
                  JustEnoughFor(last.results[i].kvBlocks, Clamped(config).kvBlockTokens, c, p - c, Max(0, q.maxTokens)))
  {
    hide Boundary, TimeInv, SysInv, Inv, Reported, Demand, TakeStep, Holds;
    var c := Clamped(config);
    var start := Start(c, requests);
    StartIsValid(c, requests);
    StartIsValid(config, requests);
    StartIsSized(c, requests);
    RunReports(c, start, 0, cancelled, c.kvBlockTokens);
    RunEnds(c, start, 0, cancelled);
    RunSettles(c, start, 0, cancelled);
    var last := FullRun(config, requests, cancelled).0;
    assert Settles(last.states[i], last.results[i]);
    assert last.states[i].request == Normalized(requests[i]);
    ReportedSize(last, c.kvBlockTokens, requests[i], i);
    DemandIsJustEnough(c.kvBlockTokens, requests[i]);
  }

  lemma StartIsSized(config: Config, requests: seq<Request>)
    requires config.kvBlockTokens > 0
    ensures Sized(Start(config, requests), config.kvBlockTokens)
  {
  }

  lemma ReportedSize(last: Sys, perBlock: int, q: Request, i: nat)
    requires Reported(last, perBlock) && i < |last.states| && last.states[i].request == Normalized(q)
    requires Settles(last.states[i], last.results[i])
    ensures perBlock > 0 && i < |last.results|
    ensures last.results[i].status == Completed ==> last.results[i].kvBlocks == Demand(perBlock, q)
  {
  }
}
