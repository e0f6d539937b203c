/** How a run uses the cache: enough blocks for everyone means nobody is turned away, and
    consistent prefix keys mean nothing leaks. */
module SchedulerCache {
  import opened KvCache
  import opened KvInvariant
  import opened KvOperations
  import opened KvPrompt
  import opened KvSequence
  import opened KvTheory
  import opened Scheduler
  import opened SchedulerInvariant
  import opened SchedulerPhases
  import opened SchedulerRun
  import opened Sums

  // -------------------------------------------------------- consistent keys

  function SharedTokens(q: Request): int {
    Cacheable(Max(0, q.promptTokens), q.key, q.prefixTokens)
  }

  /** Requests that share a prefix key agree on how many tokens it covers. */
  predicate KeysAgree(states: seq<State>) {
    forall i: nat, j: nat | i < |states| && j < |states| ::
      var a, b := states[i].request, states[j].request;
      a.key == b.key && SharedTokens(a) > 0 && SharedTokens(b) > 0 ==> SharedTokens(a) == SharedTokens(b)
  }

  ghost predicate ComesFrom(states: seq<State>, key: string, count: int) {
    exists i: nat :: i < |states| && states[i].request.key == key && SharedTokens(states[i].request) == count > 0
  }

  ghost predicate EntriesComeFrom(states: seq<State>, kv: Kv) {
    forall key | key in kv.prefixes :: ComesFrom(states, key, kv.prefixes[key].tokenCount)
  }

  ghost predicate NoLeak(sys: Sys) {
    EntriesComeFrom(sys.states, sys.kv) && Orphans(sys.kv) == {}
  }

  lemma FewerEntriesComeFrom(a: Sys, b: Sys)
    requires EntriesComeFrom(a.states, a.kv) && SameRequests(a.states, b.states)
    requires forall key | key in b.kv.prefixes ::
               (key in a.kv.prefixes && b.kv.prefixes[key] == a.kv.prefixes[key])
               || ComesFrom(a.states, key, b.kv.prefixes[key].tokenCount)
    ensures EntriesComeFrom(b.states, b.kv)
  {
    forall key | key in b.kv.prefixes
      ensures ComesFrom(b.states, key, b.kv.prefixes[key].tokenCount)
    {
      assert ComesFrom(a.states, key, b.kv.prefixes[key].tokenCount);
      var i: nat :| i < |a.states| && a.states[i].request.key == key
                    && SharedTokens(a.states[i].request) == b.kv.prefixes[key].tokenCount > 0;
      assert b.states[i].request == a.states[i].request;
    }
  }

  lemma AgreeingNeverOverwrites(sys: Sys, i: nat)
    requires SysInv(sys) && NoLeak(sys) && KeysAgree(sys.states) && i < |sys.states|
    ensures Shaped(sys)
    ensures var q := sys.states[i].request; !OverwritesPrefix(sys.kv, q.promptTokens, q.key, q.prefixTokens)
  {
    var q := sys.states[i].request;
    if q.key in sys.kv.prefixes && SharedTokens(q) > 0 {
      assert ComesFrom(sys.states, q.key, sys.kv.prefixes[q.key].tokenCount);
      var j: nat :| j < |sys.states| && sys.states[j].request.key == q.key
                    && SharedTokens(sys.states[j].request) == sys.kv.prefixes[q.key].tokenCount > 0;
    }
  }

  lemma AdmitLeaksNothing(sys: Sys, i: nat, budget: int)
    requires SysInv(sys) && i < |sys.states| && Waiting(sys.states[i]) && budget > 0
    requires NoLeak(sys) && KeysAgree(sys.states)
    ensures NoLeak(Admit(sys, i, budget).0)
  {
    hide AllocateBlocks, Inv, PromptVictims, Referenced, ResultOk, Retain, Shaped, StateOk;
    AdmitTurn(sys, i, budget);
    SysFacts(sys);
    var after := Admit(sys, i, budget).0;
    var q := sys.states[i].request;
    hide SysInv, Holds, AllocatePrompt, PromptAccepted, OverwritesPrefix, Orphans;
    if !sys.states[i].promptAllocated {
      AllocatePromptTheorem(sys.kv, q.id, q.promptTokens, q.key, q.prefixTokens);
      AgreeingNeverOverwrites(sys, i);
      assert ComesFrom(sys.states, q.key, SharedTokens(q)) || SharedTokens(q) <= 0;
    }
    FewerEntriesComeFrom(sys, after);
  }

  lemma DecodeLeaksNothing(sys: Sys, i: nat, t: int)
    requires SysInv(sys) && i < |sys.states| && Decoding(sys.states[i]) && t >= 0
    requires NoLeak(sys)
    ensures NoLeak(Decode(sys, i, t).0)
  {
    hide AllocateBlocks, AppendAccepted, FreeCount, GrowthBlocks, Holds;
    DecodeTurn(sys, i, t);
    var after := Decode(sys, i, t).0;
    var id := sys.states[i].request.id;
    LiveOwns(sys, i);
    SysFacts(sys);
    hide SysInv, AppendTokens, Orphans, StateOk, ResultOk;
    AppendTokensTheorem(sys.kv, id, 1);
    ReleaseTheorem(AppendTokens(sys.kv, id, 1).0, id);
    FewerEntriesComeFrom(sys, after);
  }

  lemma FinishLeaksNothing(sys: Sys, i: nat, t: int)
    requires SysInv(sys) && i < |sys.states| && NoLeak(sys)
    ensures NoLeak(FinishOne(sys, i, t))
  {
    FinishTurn(sys, i, t);
    SysFacts(sys);
    hide SysInv, Holds, Orphans, StateOk, ResultOk;
    ReleaseTheorem(sys.kv, sys.states[i].request.id);
    FewerEntriesComeFrom(sys, FinishOne(sys, i, t));
  }

  // --------------------------------------------------------------- capacity

  /** The blocks a request may still have to allocate. */
  function Need(perBlock: int, s: State): int
    requires perBlock > 0
  {
    if s.done then 0
    else
      (if s.promptAllocated then 0
       else PrefixBlocks(perBlock, Max(0, s.request.promptTokens), s.request.key, s.request.prefixTokens)
            + SuffixBlocks(perBlock, Max(0, s.request.promptTokens), s.request.key, s.request.prefixTokens))
      + CeilDiv(s.request.maxTokens, perBlock) - CeilDiv(s.generated, perBlock)
  }

  function NeedOf(perBlock: int): State -> int
    requires perBlock > 0
  {
    (s: State) => Need(perBlock, s)
  }

  predicate DistinctIds(states: seq<State>) {
    && (forall i: nat | i < |states| :: states[i].request.id != "")
    && (forall i: nat, j: nat | i < j < |states| :: states[i].request.id != states[j].request.id)
  }

  ghost predicate AllServed(sys: Sys) {
    |sys.results| == |sys.states| && forall i: nat | i < |sys.states| && sys.states[i].done :: sys.results[i].status == Completed
  }

  /** The free blocks cover everything the unfinished requests may still need. */
  ghost predicate Provided(sys: Sys) {
    && sys.kv.tokensPerBlock > 0
    && Sum(sys.states, NeedOf(sys.kv.tokensPerBlock)) <= FreeCount(sys.kv.blocks)
    && AllServed(sys)
  }

  lemma NeedIsNatural(perBlock: int, s: State)
    requires perBlock > 0 && StateOk(s)
    ensures Need(perBlock, s) >= 0
  {
    CeilDivMonotone(s.generated, s.request.maxTokens, perBlock);
  }

  /** A request's own need is covered. */
  lemma OwnNeedIsFree(sys: Sys, i: nat)
    requires SysInv(sys) && Provided(sys) && i < |sys.states|
    ensures Need(sys.kv.tokensPerBlock, sys.states[i]) <= FreeCount(sys.kv.blocks)
  {
    SysFacts(sys);
    hide SysInv, Need, FreeCount;
    var f := NeedOf(sys.kv.tokensPerBlock);
    forall j | 0 <= j < |sys.states|
      ensures f(sys.states[j]) >= 0
    {
      NeedIsNatural(sys.kv.tokensPerBlock, sys.states[j]);
    }
    SumAtLeast(sys.states, f, i);
  }

  lemma FreeMeansPromptFits(kv: Kv, prompt: int, key: string, prefixTokens: int)
    requires Inv(kv) && prompt >= 0 && kv.tokensPerBlock > 0
    requires PrefixBlocks(kv.tokensPerBlock, prompt, key, prefixTokens)
           + SuffixBlocks(kv.tokensPerBlock, prompt, key, prefixTokens) <= FreeCount(kv.blocks)
    ensures PromptFits(kv, prompt, key, prefixTokens)
  {
    FreeAndPinnedAreDisjoint(kv, {});
    if IsHit(kv, Cacheable(prompt, key, prefixTokens), key) {
      var held := Hold(kv, key);
      HoldKeepsInvariant(kv, key);
      HoldPins(kv, key);
      FreeAndPinnedAreDisjoint(held, Ids(kv.prefixes[key].blockIds));
    }
  }

  lemma NewIdIsNotLive(sys: Sys, i: nat)
    requires SysInv(sys) && DistinctIds(sys.states) && i < |sys.states| && !Live(sys.states[i])
    ensures sys.states[i].request.id !in sys.kv.sequences
  {
    assert !HasOwner(sys.states, sys.states[i].request.id);
  }

  /** Replacing one state by one that needs no more than the blocks given up keeps the run provided. */
  lemma ProvisionMoves(a: Sys, b: Sys, i: nat)
    requires Provided(a) && i < |a.states| && OnlyAt(a, b, i) && b.kv.tokensPerBlock == a.kv.tokensPerBlock
    requires Need(a.kv.tokensPerBlock, b.states[i]) - Need(a.kv.tokensPerBlock, a.states[i])
             <= FreeCount(b.kv.blocks) - FreeCount(a.kv.blocks)
    requires b.states[i].done ==> b.results[i].status == Completed
    ensures Provided(b)
  {
    hide Need, FreeCount;
    SumUpdate(a.states, i, b.states[i], NeedOf(a.kv.tokensPerBlock));
  }

  lemma AdmitIsServed(sys: Sys, i: nat, budget: int)
    requires SysInv(sys) && i < |sys.states| && Waiting(sys.states[i]) && budget > 0
    requires Provided(sys) && DistinctIds(sys.states)
    ensures Provided(Admit(sys, i, budget).0)
  {
    SysFacts(sys);
    AdmitTurn(sys, i, budget);
    var after := Admit(sys, i, budget).0;
    var s := sys.states[i];
    var q := s.request;
    if s.promptAllocated {
      hide SysInv, Holds, FreeCount, CeilDiv, PrefixBlocks, SuffixBlocks;
      ProvisionMoves(sys, after, i);
    } else {
      OwnNeedIsFree(sys, i);
      NeedOfNew(sys.kv.tokensPerBlock, s);
      FreeMeansPromptFits(sys.kv, q.promptTokens, q.key, q.prefixTokens);
      NewIdIsNotLive(sys, i);
      hide SysInv, Holds, FreeCount, CeilDiv, PrefixBlocks, SuffixBlocks, PromptFits, AllocatePrompt, OverwritesPrefix, PromptVictims;
      AllocatePromptTheorem(sys.kv, q.id, q.promptTokens, q.key, q.prefixTokens);
      PromptKeepsShape(sys.kv, q.id, q.promptTokens, q.key, q.prefixTokens);
      ProvisionMoves(sys, after, i);
    }
  }

  lemma NeedOfNew(perBlock: int, s: State)
    requires perBlock > 0 && StateOk(s) && !s.done && !s.promptAllocated
    ensures s.generated == 0
    ensures PrefixBlocks(perBlock, s.request.promptTokens, s.request.key, s.request.prefixTokens)
          + SuffixBlocks(perBlock, s.request.promptTokens, s.request.key, s.request.prefixTokens) <= Need(perBlock, s)
  {
  }

  lemma NeedOfToken(perBlock: int, s: State)
    requires perBlock > 0 && StateOk(s) && Decoding(s)
    ensures 0 <= GrowthBlocks(perBlock, s.generated, 1) <= Need(perBlock, s)
    ensures Need(perBlock, s.(generated := s.generated + 1)) == Need(perBlock, s) - GrowthBlocks(perBlock, s.generated, 1)
    ensures Need(perBlock, s.(generated := s.generated + 1)) >= 0
  {
    CeilDivMonotone(s.generated, s.generated + 1, perBlock);
    CeilDivMonotone(s.generated + 1, s.request.maxTokens, perBlock);
  }

  /** With the run provided for, a decode candidate's append succeeds within its own need. */
  lemma TokenFits(sys: Sys, i: nat)
    requires SysInv(sys) && i < |sys.states| && Decoding(sys.states[i]) && Provided(sys)
    ensures Shaped(sys)
    ensures var s := sys.states[i];
            var (kv, r) := AppendTokens(sys.kv, s.request.id, 1);
            && r.ok && Inv(kv) && kv.tokensPerBlock == sys.kv.tokensPerBlock
            && FreeCount(kv.blocks) >= FreeCount(sys.kv.blocks) - GrowthBlocks(sys.kv.tokensPerBlock, s.generated, 1)
  {
    var s := sys.states[i];
    SysFacts(sys);
    LiveOwns(sys, i);
    OwnNeedIsFree(sys, i);
    NeedOfToken(sys.kv.tokensPerBlock, s);
    FreeAndPinnedAreDisjoint(sys.kv, {});
    hide SysInv, Holds, FreeCount, GrowthBlocks, AppendTokens, CeilDiv, Pinned, Provided, Need;
    AppendTokensTheorem(sys.kv, s.request.id, 1);
    AppendKeepsShape(sys.kv, s.request.id, 1);
  }

  /** What a token does to its request and to the free blocks. */
  lemma TokenDecoded(sys: Sys, i: nat, t: int)
    requires Shaped(sys) && i < |sys.states| && Decoding(sys.states[i])
    requires var (kv, r) := AppendTokens(sys.kv, sys.states[i].request.id, 1); r.ok && Inv(kv) && kv.tokensPerBlock > 0
    ensures var s, kv, after := sys.states[i], AppendTokens(sys.kv, sys.states[i].request.id, 1).0, Decode(sys, i, t).0;
            && after.kv.tokensPerBlock == kv.tokensPerBlock && FreeCount(after.kv.blocks) >= FreeCount(kv.blocks)
            && after.states[i] == s.(generated := s.generated + 1, done := s.generated + 1 == s.request.maxTokens)
            && (after.states[i].done ==> after.results[i].status == Completed)
  {
    hide Inv, AppendTokens, FreeCount, Orphans;
    ReleaseTheorem(AppendTokens(sys.kv, sys.states[i].request.id, 1).0, sys.states[i].request.id);
  }

  lemma NeedAfterToken(perBlock: int, s: State)
    requires perBlock > 0 && StateOk(s) && Decoding(s)
    ensures var after := s.(generated := s.generated + 1, done := s.generated + 1 == s.request.maxTokens);
            Need(perBlock, after) <= Need(perBlock, s) - GrowthBlocks(perBlock, s.generated, 1)
  {
    hide GrowthBlocks, CeilDiv;
    NeedOfToken(perBlock, s);
  }

  lemma DecodedMovesOne(sys: Sys, i: nat, t: int, after: Sys, decoded: bool)
    requires i < |sys.states| && |sys.results| == |sys.states| && DecodedOnce(sys, i, t, after, decoded)
    ensures OnlyAt(sys, after, i)
  {
    hide OnlyAt, GotToken, LostOut;
  }

  lemma ProvidedUse(sys: Sys)
    requires Provided(sys)
    ensures sys.kv.tokensPerBlock > 0
  {
    hide AllServed, FreeCount;
  }

  lemma DecodeIsServed(sys: Sys, i: nat, t: int)
    requires SysInv(sys) && i < |sys.states| && Decoding(sys.states[i]) && t >= 0
    requires Provided(sys)
    ensures Provided(Decode(sys, i, t).0)
  {
    hide *;
    SysFacts(sys);
    ProvidedUse(sys);
    DecodeTurn(sys, i, t);
    var (after, decoded) := Decode(sys, i, t);
    ShapedUse(sys);
    DecodedMovesOne(sys, i, t, after, decoded);
    TokenFits(sys, i);
    TokenDecoded(sys, i, t);
    NeedAfterToken(sys.kv.tokensPerBlock, sys.states[i]);
    MovedState(sys, after, i);
    ProvisionMoves(sys, after, i);
  }

  lemma ShapedUse(sys: Sys)
    requires Shaped(sys)
    ensures |sys.results| == |sys.states|
  {
  }

  lemma MovedState(a: Sys, b: Sys, i: nat)
    requires i < |a.states| && OnlyAt(a, b, i)
    ensures i < |b.states| && i < |b.results|
  {
  }

  lemma FinishIsServed(sys: Sys, i: nat, t: int)
    requires SysInv(sys) && i < |sys.states| && Provided(sys)
    ensures Provided(FinishOne(sys, i, t))
  {
    SysFacts(sys);
    FinishTurn(sys, i, t);
    var after := FinishOne(sys, i, t);
    if NothingToDecode(sys.states[i]) {
      NeedIsNatural(sys.kv.tokensPerBlock, sys.states[i]);
      hide SysInv, Holds, FreeCount, CeilDiv;
      ReleaseTheorem(sys.kv, sys.states[i].request.id);
      ProvisionMoves(sys, after, i);
    }
  }

  // ------------------------------------------------------ through the phases

  /** What a run keeps when keys agree, and when the cache is large enough. */
  ghost predicate Kept(sys: Sys, agree: bool, fits: bool) {
    && (agree ==> KeysAgree(sys.states) && NoLeak(sys))
    && (fits ==> DistinctIds(sys.states) && Provided(sys))
  }

  lemma {:induction false} PrefillKeeps(sys: Sys, xs: seq<nat>, budget: int, agree: bool, fits: bool)
    requires SysInv(sys) && Indices(sys.states, xs) && Ranked(sys.states, xs)
    requires forall k | 0 <= k < |xs| :: Waiting(sys.states[xs[k]])
    requires Kept(sys, agree, fits)
    ensures Shaped(sys) && Kept(PrefillPhase(sys, xs, budget).0, agree, fits)
    decreases |xs|
  {
    hide SysInv, Inv, Admit, NoLeak, Provided;
    SysFacts(sys);
    if xs != [] && budget > 0 {
      AdmitTurn(sys, xs[0], budget);
      var (next, consumed) := Admit(sys, xs[0], budget);
      if agree {
        AdmitLeaksNothing(sys, xs[0], budget);
      }
      if fits {
        AdmitIsServed(sys, xs[0], budget);
      }
      forall k | 1 <= k < |xs|
        ensures xs[k] != xs[0]
      {
        assert Before(sys.states, xs[0], xs[k]);
      }
      PrefillKeeps(next, xs[1..], budget - consumed, agree, fits);
    }
  }

  lemma {:induction false} DecodeKeeps(sys: Sys, xs: seq<nat>, t: int, agree: bool, fits: bool)
    requires SysInv(sys) && Indices(sys.states, xs) && Ranked(sys.states, xs) && t >= 0
    requires forall k | 0 <= k < |xs| :: Decoding(sys.states[xs[k]])
    requires Kept(sys, agree, fits)
    ensures Shaped(sys) && Kept(DecodePhase(sys, xs, t).0, agree, fits)
    decreases |xs|
  {
    hide SysInv, Inv, Decode, NoLeak, Provided;
    SysFacts(sys);
    if xs != [] {
      DecodeTurn(sys, xs[0], t);
      var (next, decoded) := Decode(sys, xs[0], t);
      if agree {
        DecodeLeaksNothing(sys, xs[0], t);
      }
      if fits {
        DecodeIsServed(sys, xs[0], t);
      }
      forall k | 1 <= k < |xs|
        ensures xs[k] != xs[0]
      {
        assert Before(sys.states, xs[0], xs[k]);
      }
      DecodeKeeps(next, xs[1..], t, agree, fits);
    }
  }

  lemma {:induction false} FinishKeeps(sys: Sys, from: nat, t: int, agree: bool, fits: bool)
    requires SysInv(sys) && from <= |sys.states| && Kept(sys, agree, fits)
    ensures Shaped(sys) && Kept(FinishPhase(sys, from, t), agree, fits)
    decreases |sys.states| - from
  {
    hide SysInv, Inv, FinishOne, NoLeak, Provided;
    SysFacts(sys);
    if from < |sys.states| {
      FinishTurn(sys, from, t);
      if agree {
        FinishLeaksNothing(sys, from, t);
      }
      if fits {
        FinishIsServed(sys, from, t);
      }
      FinishKeeps(FinishOne(sys, from, t), from + 1, t, agree, fits);
    }
  }

  lemma StepPrefillKeeps(config: Config, sys: Sys, agree: bool, fits: bool)
    requires Boundary(sys) && Kept(sys, agree, fits)
    ensures Shaped(sys)
    ensures var mid := AfterPrefill(config, sys).0; SysInv(mid) && Kept(mid, agree, fits)
  {
    hide SysInv, InOrder, Kept, Inv;
    SysFacts(sys);
    Candidates(sys.states, Waiting);
    var xs := PrefillTurns(sys.states);
    assert forall k | 0 <= k < |xs| :: xs[k] in xs;
    PrefillKeeps(sys, xs, config.prefillBudget, agree, fits);
    PrefillPhaseEffect(sys, xs, config.prefillBudget);
  }

  lemma StepDecodeKeeps(config: Config, mid: Sys, t: int, agree: bool, fits: bool)
    requires SysInv(mid) && t >= 0 && Kept(mid, agree, fits)
    ensures Shaped(mid)
    ensures var late := AfterDecode(config, mid, t).0; SysInv(late) && Kept(late, agree, fits)
  {
    hide SysInv, Kept, Inv;
    SysFacts(mid);
    DecodeOfStep(config, mid, t);
    var ds := DecodeTurns(config, mid.states);
    assert forall k | 0 <= k < |ds| :: ds[k] in ds;
    DecodeKeeps(mid, ds, t, agree, fits);
  }

  lemma StepKeeps(config: Config, sys: Sys, t: int, agree: bool, fits: bool)
    requires Boundary(sys) && t >= 0 && Kept(sys, agree, fits)
    ensures Shaped(sys) && Kept(TakeStep(config, sys, t).0, agree, fits)
  {
    hide SysInv, NoIdleReady, InOrder, Kept, AfterPrefill, AfterDecode, FinishPhase;
    StepPrefillKeeps(config, sys, agree, fits);
    var mid := AfterPrefill(config, sys).0;
    StepDecodeKeeps(config, mid, t, agree, fits);
    FinishKeeps(AfterDecode(config, mid, t).0, 0, t, agree, fits);
  }
}
