/** What holds after every sequence of allocator calls, from an empty cache. */
module KvHistory {
  import opened KvCache
  import opened KvInvariant
  import opened KvTheory
  import opened KvOperations
  import opened KvPrompt
  import opened KvSequence

  datatype Call =
    | Prompt(id: string, tokens: int, key: string, prefixTokens: int)
    | Append(id: string, count: int)
    | Release(id: string)

  ghost function Apply(kv: Kv, call: Call): Kv {
    if kv.tokensPerBlock <= 0 then kv else
    match call
    case Prompt(id, tokens, key, prefixTokens) => AllocatePrompt(kv, id, tokens, key, prefixTokens).0
    case Append(id, count) => AppendTokens(kv, id, count).0
    case Release(id) => ReleaseSequence(kv, id)
  }

  lemma ApplyKeepsShape(kv: Kv, call: Call)
    requires kv.tokensPerBlock > 0
    ensures Apply(kv, call).tokensPerBlock == kv.tokensPerBlock && |Apply(kv, call).blocks| == |kv.blocks|
  {
    match call
    case Prompt(id, tokens, key, prefixTokens) => PromptKeepsShape(kv, id, tokens, key, prefixTokens);
    case Append(id, count) => AppendKeepsShape(kv, id, count);
    case Release(id) =>
  }

  lemma ApplyKeepsInvariant(kv: Kv, call: Call)
    requires Inv(kv)
    ensures kv.tokensPerBlock > 0
    ensures Inv(Apply(kv, call)) && Orphans(kv) <= Orphans(Apply(kv, call))
    ensures Apply(kv, call).tokensPerBlock == kv.tokensPerBlock && |Apply(kv, call).blocks| == |kv.blocks|
  {
    ApplyKeepsShape(kv, call);
    hide Holds, Orphans, AllocatePrompt, AppendTokens, ReleaseSequence;
    EntriesAreOk(kv);
    match call
    case Prompt(id, tokens, key, prefixTokens) => AllocatePromptTheorem(kv, id, tokens, key, prefixTokens);
    case Append(id, count) => AppendTokensTheorem(kv, id, count);
    case Release(id) => ReleaseTheorem(kv, id);
  }

  /** The state after `calls`. */
  ghost function After(kv: Kv, calls: seq<Call>): Kv {
    if calls == [] then kv else Apply(After(kv, calls[..|calls| - 1]), calls[|calls| - 1])
  }

  lemma {:induction false} AfterKeepsInvariant(kv: Kv, calls: seq<Call>)
    requires Inv(kv)
    ensures Inv(After(kv, calls))
  {
    if calls != [] {
      hide Holds, Apply;
      AfterKeepsInvariant(kv, calls[..|calls| - 1]);
      ApplyKeepsInvariant(After(kv, calls[..|calls| - 1]), calls[|calls| - 1]);
    }
  }

  lemma FreshIsValid(totalBlocks: int, tokensPerBlock: int)
    ensures Inv(Fresh(totalBlocks, tokensPerBlock))
    ensures Pinned(Fresh(totalBlocks, tokensPerBlock)) == {}
    ensures FreeCount(Fresh(totalBlocks, tokensPerBlock).blocks) == ClampPositive(totalBlocks, 1)
  {
    var kv := Fresh(totalBlocks, tokensPerBlock);
    assert forall b: nat | b < |kv.blocks| :: Owners(kv.sequences, b) == {};
    assert FreeSet(kv.blocks) == Below(|kv.blocks|);
  }

  // ----------------------------------------------------- no leaked blocks

  ghost predicate Overwrites(kv: Kv, call: Call) {
    && kv.tokensPerBlock > 0
    && call.Prompt?
    && PromptAccepted(kv, call.id, call.tokens, call.key, call.prefixTokens)
    && OverwritesPrefix(kv, call.tokens, call.key, call.prefixTokens)
  }

  ghost predicate NeverOverwrites(kv: Kv, calls: seq<Call>) {
    calls == [] ||
    (NeverOverwrites(kv, calls[..|calls| - 1]) && !Overwrites(After(kv, calls[..|calls| - 1]), calls[|calls| - 1]))
  }

  /** Orphaned blocks stay orphaned, so a history leaks if and only if some call overwrote a cached
      prefix with one of another length. */
  lemma {:induction false} LeaksExactlyOnOverwrite(kv: Kv, calls: seq<Call>)
    requires Inv(kv) && Orphans(kv) == {}
    ensures Orphans(After(kv, calls)) == {} <==> NeverOverwrites(kv, calls)
  {
    if calls != [] {
      var init, call := calls[..|calls| - 1], calls[|calls| - 1];
      var before := After(kv, init);
      hide Holds, Orphans, PromptAccepted, OverwritesPrefix;
      LeaksExactlyOnOverwrite(kv, init);
      AfterKeepsInvariant(kv, init);
      ApplyKeepsInvariant(before, call);
      match call
      case Prompt(id, tokens, key, prefixTokens) => OrphansExactlyOnOverwrite(before, id, tokens, key, prefixTokens);
      case Append(id, count) => AppendTokensTheorem(before, id, count);
      case Release(id) => ReleaseTheorem(before, id);
    }
  }

  function CallPrefix(call: Call): int
    requires call.Prompt?
  {
    Cacheable(Max(0, call.tokens), call.key, call.prefixTokens)
  }

  /** A prefix key always comes with the same number of cacheable tokens. */
  ghost predicate KeysConsistent(calls: seq<Call>) {
    forall i, j | 0 <= i < |calls| && 0 <= j < |calls| && calls[i].Prompt? && calls[j].Prompt? ::
      calls[i].key == calls[j].key && CallPrefix(calls[i]) > 0 && CallPrefix(calls[j]) > 0 ==>
        CallPrefix(calls[i]) == CallPrefix(calls[j])
  }

  ghost predicate CameFrom(calls: seq<Call>, key: string, count: int) {
    exists i :: 0 <= i < |calls| && calls[i].Prompt? && calls[i].key == key && CallPrefix(calls[i]) > 0
             && CallPrefix(calls[i]) == count
  }

  ghost predicate EntriesCameFrom(kv: Kv, calls: seq<Call>) {
    forall key | key in kv.prefixes :: CameFrom(calls, key, kv.prefixes[key].tokenCount)
  }

  lemma CameFromExtends(calls: seq<Call>, key: string, count: int)
    requires calls != [] && CameFrom(calls[..|calls| - 1], key, count)
    ensures CameFrom(calls, key, count)
  {
    var i :| 0 <= i < |calls| - 1 && calls[i].Prompt? && calls[i].key == key && CallPrefix(calls[i]) > 0
             && CallPrefix(calls[i]) == count;
  }

  /** The call itself cached this prefix. */
  ghost predicate CachedBy(call: Call, key: string, count: int) {
    call.Prompt? && call.key == key && CallPrefix(call) == count > 0
  }

  lemma ApplyCaches(kv: Kv, call: Call)
    requires Inv(kv)
    ensures var after := Apply(kv, call);
            forall key | key in after.prefixes ::
              (key in kv.prefixes && kv.prefixes[key] == after.prefixes[key])
              || CachedBy(call, key, after.prefixes[key].tokenCount)
  {
    hide AllocatePrompt, AppendAccepted, AppendTokens, CacheOk, Holds;
    EntriesAreOk(kv);
    hide Orphans, PromptAccepted, PromptVictims, Victims, Undone;
    match call
    case Prompt(id, tokens, key, prefixTokens) => AllocatePromptTheorem(kv, id, tokens, key, prefixTokens);
    case Append(id, count) => AppendTokensTheorem(kv, id, count);
    case Release(id) => ReleaseTheorem(kv, id);
  }

  /** A prefix in the cache was put there by a call with that key and that many cacheable tokens. */
  lemma ApplyTracksEntries(kv: Kv, calls: seq<Call>)
    requires Inv(kv) && calls != [] && EntriesCameFrom(kv, calls[..|calls| - 1])
    ensures EntriesCameFrom(Apply(kv, calls[|calls| - 1]), calls)
  {
    hide Inv, Apply;
    var call := calls[|calls| - 1];
    var after := Apply(kv, call);
    ApplyCaches(kv, call);
    forall key | key in after.prefixes
      ensures CameFrom(calls, key, after.prefixes[key].tokenCount)
    {
      if key in kv.prefixes && kv.prefixes[key] == after.prefixes[key] {
        CameFromExtends(calls, key, after.prefixes[key].tokenCount);
      } else {
        assert CachedBy(calls[|calls| - 1], key, after.prefixes[key].tokenCount);
      }
    }
  }

  lemma {:induction false} ConsistentNeverOverwrites(kv: Kv, calls: seq<Call>)
    requires Inv(kv) && kv.prefixes == map[] && KeysConsistent(calls)
    ensures NeverOverwrites(kv, calls) && EntriesCameFrom(After(kv, calls), calls)
  {
    if calls != [] {
      var init, call := calls[..|calls| - 1], calls[|calls| - 1];
      assert calls[|calls| - 1] == call;
      hide Holds, PromptAccepted;
      ConsistentNeverOverwrites(kv, init);
      var before := After(kv, init);
      AfterKeepsInvariant(kv, init);
      ApplyTracksEntries(before, calls);
      if call.Prompt? && call.key in before.prefixes {
        CameFromExtends(calls, call.key, before.prefixes[call.key].tokenCount);
      }
    }
  }

  /** The ownership theorem: after any calls, every reference count is exactly the number of live
      sequences listing the block, unshared blocks have one owner, and - when keys are used
      consistently - a block is occupied exactly while it is referenced or cached, so nothing
      leaks. */
  lemma OwnershipTheorem(totalBlocks: int, tokensPerBlock: int, calls: seq<Call>)
    ensures var kv := After(Fresh(totalBlocks, tokensPerBlock), calls);
            && (forall b: nat | b < |kv.blocks| ::
                  && kv.blocks[b].refCount == |Owners(kv.sequences, b)|
                  && (kv.blocks[b].prefixKey == "" ==> |Owners(kv.sequences, b)| <= 1))
            && (forall k, l, b | k in kv.prefixes && l in kv.prefixes && k != l ::
                  b in kv.prefixes[k].blockIds ==> b !in kv.prefixes[l].blockIds)
            && (KeysConsistent(calls) ==>
                  forall b: nat | b < |kv.blocks| ::
                    kv.blocks[b].occupied <==> b in Referenced(kv) || b in CachedBlocks(kv))
  {
    FreshIsValid(totalBlocks, tokensPerBlock);
    var empty := Fresh(totalBlocks, tokensPerBlock);
    var kv := After(empty, calls);
    AfterKeepsInvariant(empty, calls);
    InvariantMeansOwnership(kv);
    if KeysConsistent(calls) {
      ConsistentNeverOverwrites(empty, calls);
      LeaksExactlyOnOverwrite(empty, calls);
      NoOrphansMeansNoLeak(kv);
    }
  }

  lemma InvariantMeansOwnership(kv: Kv)
    requires Inv(kv)
    ensures forall b: nat | b < |kv.blocks| ::
              && kv.blocks[b].refCount == |Owners(kv.sequences, b)|
              && (kv.blocks[b].prefixKey == "" ==> |Owners(kv.sequences, b)| <= 1)
    ensures forall k, l, b | k in kv.prefixes && l in kv.prefixes && k != l ::
              b in kv.prefixes[k].blockIds ==> b !in kv.prefixes[l].blockIds
  {
    forall b: nat | b < |kv.blocks|
      ensures kv.blocks[b].refCount == |Owners(kv.sequences, b)|
      ensures kv.blocks[b].prefixKey == "" ==> |Owners(kv.sequences, b)| <= 1
    {
      assert BlockOk(kv, {}, b);
    }
    forall k, l, b | k in kv.prefixes && l in kv.prefixes && k != l && b in kv.prefixes[k].blockIds
      ensures b !in kv.prefixes[l].blockIds
    {
      assert EntryOk(kv, k) && EntryOk(kv, l);
    }
  }

  lemma NoOrphansMeansNoLeak(kv: Kv)
    requires Inv(kv) && Orphans(kv) == {}
    ensures forall b: nat | b < |kv.blocks| ::
              kv.blocks[b].occupied <==> b in Referenced(kv) || b in CachedBlocks(kv)
  {
    forall b: nat | b < |kv.blocks|
      ensures kv.blocks[b].occupied <==> b in Referenced(kv) || b in CachedBlocks(kv)
    {
      assert BlockOk(kv, {}, b);
      assert b !in Orphans(kv);
      if IsCached(kv, b) {
        assert EntryOk(kv, kv.blocks[b].prefixKey);
      }
    }
  }

  // ------------------------------------------------ the allocation criterion

  /** The blocks live sequences list. */
  ghost function InUse(kv: Kv): set<nat> {
    set id, b | id in kv.sequences && b in kv.sequences[id].blockIds :: b
  }

  lemma InUseIsReferenced(kv: Kv)
    requires Inv(kv)
    ensures InUse(kv) == Referenced(kv)
  {
    forall id, b | id in kv.sequences && b in kv.sequences[id].blockIds
      ensures b in Referenced(kv)
    {
      OwnedIsReferenced(kv, {}, id, b);
    }
    forall b | b in Referenced(kv)
      ensures b in InUse(kv)
    {
      assert BlockOk(kv, {}, b);
      assert Owners(kv.sequences, b) != {};
      var id :| id in Owners(kv.sequences, b);
    }
  }

  /** Eviction on demand is complete: when keys are used consistently, a prompt or an append succeeds exactly
      when the blocks it lacks fit beside those of live sequences, the prefix it hits counting as live. */
  lemma AllocationTheorem(
    total: int, perBlock: int, calls: seq<Call>, id: string, tokens: int, key: string, prefixTokens: int, count: int)
    requires KeysConsistent(calls)
    ensures var kv := After(Fresh(total, perBlock), calls);
            && kv.tokensPerBlock > 0
            && (var p, c := Max(0, tokens), Cacheable(Max(0, tokens), key, prefixTokens);
                AllocatePrompt(kv, id, tokens, key, prefixTokens).1.ok <==>
                  id != "" && id !in kv.sequences && PromptHasRoom(kv, key, c, p - c))
            && (AppendTokens(kv, id, count).1.ok <==>
                  && id in kv.sequences
                  && var g := kv.sequences[id].generatedTokens; count <= 0 || GrowthHasRoom(kv, g, g + count))
  {
    hide *;
    var kv := After(Fresh(total, perBlock), calls);
    ConsistentKeepsNoOrphans(total, perBlock, calls);
    InUseIsReferenced(kv);
    EntriesAreOk(kv);
    PromptIsCriterion(kv, id, tokens, key, prefixTokens);
    AppendIsCriterion(kv, id, count);
  }

  /** With `a` blocks just enough for the cacheable tokens and `b` for the others, what a prompt has to
      allocate fits. */
  ghost predicate PromptHasRoom(kv: Kv, key: string, cacheable: int, others: int) {
    forall a: int, b: int | JustEnough(a, cacheable, kv.tokensPerBlock) && JustEnough(b, others, kv.tokensPerBlock) ::
      if cacheable > 0 && key in kv.prefixes && kv.prefixes[key].tokenCount == cacheable
      then b <= |kv.blocks| - |InUse(kv) + Ids(kv.prefixes[key].blockIds)|
      else a + b <= |kv.blocks| - |InUse(kv)|
  }

  /** With `a` blocks just enough for the tokens so far and `b` for the new total, the difference fits. */
  ghost predicate GrowthHasRoom(kv: Kv, tokens: int, total: int) {
    forall a: int, b: int | JustEnough(a, tokens, kv.tokensPerBlock) && JustEnough(b, total, kv.tokensPerBlock) ::
      b - a <= |kv.blocks| - |InUse(kv)|
  }

  lemma ConsistentKeepsNoOrphans(total: int, perBlock: int, calls: seq<Call>)
    requires KeysConsistent(calls)
    ensures var kv := After(Fresh(total, perBlock), calls);
            Inv(kv) && Orphans(kv) == {} && Pinned(kv) == Referenced(kv)
  {
    hide Inv, Holds, After, KeysConsistent;
    var empty := Fresh(total, perBlock);
    FreshIsValid(total, perBlock);
    AfterKeepsInvariant(empty, calls);
    ConsistentNeverOverwrites(empty, calls);
    LeaksExactlyOnOverwrite(empty, calls);
  }

  lemma OnlyCeilDivIsJustEnough(perBlock: int, tokens: int)
    requires perBlock > 0
    ensures forall n: int :: JustEnough(n, tokens, perBlock) <==> n == CeilDiv(tokens, perBlock)
  {
    hide CeilDiv, JustEnough;
    CeilDivIsJustEnough(tokens, perBlock);
    forall n: int | JustEnough(n, tokens, perBlock)
      ensures n == CeilDiv(tokens, perBlock)
    {
      JustEnoughIsUnique(n, CeilDiv(tokens, perBlock), tokens, perBlock);
    }
  }

  lemma RoomForPrompt(kv: Kv, key: string, c: int, r: int)
    requires kv.tokensPerBlock > 0
    ensures PromptHasRoom(kv, key, c, r) <==>
              var a, b := CeilDiv(c, kv.tokensPerBlock), CeilDiv(r, kv.tokensPerBlock);
              if c > 0 && key in kv.prefixes && kv.prefixes[key].tokenCount == c
              then b <= |kv.blocks| - |InUse(kv) + Ids(kv.prefixes[key].blockIds)|
              else a + b <= |kv.blocks| - |InUse(kv)|
  {
    hide CeilDiv, JustEnough, InUse, Ids;
    var n := kv.tokensPerBlock;
    OnlyCeilDivIsJustEnough(n, c);
    OnlyCeilDivIsJustEnough(n, r);
    assert JustEnough(CeilDiv(c, n), c, n) && JustEnough(CeilDiv(r, n), r, n);
  }

  lemma RoomForGrowth(kv: Kv, tokens: int, total: int)
    requires kv.tokensPerBlock > 0
    ensures GrowthHasRoom(kv, tokens, total) <==>
              CeilDiv(total, kv.tokensPerBlock) - CeilDiv(tokens, kv.tokensPerBlock) <= |kv.blocks| - |InUse(kv)|
  {
    hide CeilDiv, JustEnough, InUse;
    var n := kv.tokensPerBlock;
    OnlyCeilDivIsJustEnough(n, tokens);
    OnlyCeilDivIsJustEnough(n, total);
    assert JustEnough(CeilDiv(tokens, n), tokens, n) && JustEnough(CeilDiv(total, n), total, n);
  }

  lemma PromptIsCriterion(kv: Kv, id: string, tokens: int, key: string, prefixTokens: int)
    requires Inv(kv) && kv.tokensPerBlock > 0 && Pinned(kv) == InUse(kv)
    ensures var p, c := Max(0, tokens), Cacheable(Max(0, tokens), key, prefixTokens);
            AllocatePrompt(kv, id, tokens, key, prefixTokens).1.ok <==>
              id != "" && id !in kv.sequences && PromptHasRoom(kv, key, c, p - c)
  {
    hide Inv, AllocatePrompt, InUse, Pinned, CeilDiv, JustEnough, Orphans, FreeCount, PromptVictims, OverwritesPrefix;
    AllocatePromptTheorem(kv, id, tokens, key, prefixTokens);
    var p, c := Max(0, tokens), Cacheable(Max(0, tokens), key, prefixTokens);
    RoomForPrompt(kv, key, c, p - c);
  }

  lemma AppendIsCriterion(kv: Kv, id: string, count: int)
    requires Inv(kv) && kv.tokensPerBlock > 0 && Pinned(kv) == InUse(kv)
    ensures AppendTokens(kv, id, count).1.ok <==>
              && id in kv.sequences
              && var g := kv.sequences[id].generatedTokens; count <= 0 || GrowthHasRoom(kv, g, g + count)
  {
    hide Inv, AppendTokens, InUse, Pinned, CeilDiv, JustEnough, Orphans, FreeCount;
    AppendTokensTheorem(kv, id, count);
    if id in kv.sequences {
      var g := kv.sequences[id].generatedTokens;
      RoomForGrowth(kv, g, g + count);
    }
  }

  /** The second of two prompts under one key, of another length, succeeds and orphans a block. */
  lemma LeakStep(kv0: Kv, kv1: Kv, kv2: Kv)
    requires kv0 == Fresh(2, 4)
    requires Inv(kv0) && kv0.tokensPerBlock > 0 && kv1 == Apply(kv0, Prompt("a", 4, "k", -1))
    requires Inv(kv1) && kv1.tokensPerBlock > 0 && kv2 == Apply(kv1, Prompt("b", 1, "k", -1))
    ensures Inv(kv2) && Orphans(kv2) != {} && kv2.sequences.Keys == {"a", "b"}
  {
    FreshIsValid(2, 4);
    hide Holds, Orphans, Referenced, FreeSet, AllocatePrompt, IdleKeys;
    AllocatePromptTheorem(kv0, "a", 4, "k", -1);
    ApplyKeepsInvariant(kv0, Prompt("a", 4, "k", -1));
    FreeAndPinnedAreDisjoint(kv1, {});
    assert Victims(kv1, 1) == [] by {
      IdleKeysSpec(kv1);
    }
    AllocatePromptTheorem(kv1, "b", 1, "k", -1);
    OrphansExactlyOnOverwrite(kv1, "b", 1, "k", -1);
  }

  /** Reusing a key with another prefix length leaks: two sequences come and go, nothing is live,
      and a block is lost for good. */
  lemma LeakExample()
    ensures var calls := [Prompt("a", 4, "k", -1), Prompt("b", 1, "k", -1), Release("a"), Release("b")];
            && After(Fresh(2, 4), calls).sequences == map[]
            && Orphans(After(Fresh(2, 4), calls)) != {}
  {
    hide After, AppendTokens, ClampPositive, FreeCount;
    FreshIsValid(2, 4);
    hide Holds, Orphans, AllocatePrompt, Fresh, ReleaseSequence;
    var kv0 := Fresh(2, 4);
    var a, b := Prompt("a", 4, "k", -1), Prompt("b", 1, "k", -1);
    EntriesAreOk(kv0);
    var kv1 := Apply(kv0, a);
    ApplyKeepsInvariant(kv0, a);
    var kv2 := Apply(kv1, b);
    LeakStep(kv0, kv1, kv2);
    ReleaseTheorem(kv2, "a");
    ReleaseTheorem(ReleaseSequence(kv2, "a"), "b");
    AfterFour(kv0, a, b, Release("a"), Release("b"));
    EntriesAreOk(kv2);
    EntriesAreOk(ReleaseSequence(kv2, "a"));
  }

  lemma AfterFour(kv: Kv, a: Call, b: Call, c: Call, d: Call)
    ensures After(kv, [a, b, c, d]) == Apply(Apply(Apply(Apply(kv, a), b), c), d)
  {
    hide Apply;
    assert [a, b, c, d][..3] == [a, b, c] && [a, b, c][..2] == [a, b] && [a, b][..1] == [a];
    assert After(kv, [a]) == Apply(kv, a);
    assert After(kv, [a, b]) == Apply(Apply(kv, a), b);
    assert After(kv, [a, b, c]) == Apply(Apply(Apply(kv, a), b), c);
  }

  // ------------------------------------------------- blocks per sequence

  ghost function AcceptedTokens(kv: Kv, call: Call, id: string): int {
    if kv.tokensPerBlock > 0 && call.Append? && call.id == id && AppendTokens(kv, id, call.count).1.ok
    then Max(0, call.count) else 0
  }

  /** How many of the tokens appended to `id` in `calls` were accepted. */
  ghost function Appended(kv: Kv, calls: seq<Call>, id: string): int {
    if calls == [] then 0
    else Appended(kv, calls[..|calls| - 1], id) + AcceptedTokens(After(kv, calls[..|calls| - 1]), calls[|calls| - 1], id)
  }

  /** A sequence with `prompt` prompt blocks and `generated` tokens holds exactly their blocks. */
  ghost predicate HoldsBlocks(kv: Kv, perBlock: int, id: string, prompt: int, generated: int) {
    && kv.tokensPerBlock == perBlock > 0
    && id in kv.sequences
    && kv.sequences[id].generatedTokens == generated
    && |kv.sequences[id].blockIds| == prompt + CeilDiv(generated, perBlock)
  }

  lemma ApplyKeepsOthers(kv: Kv, call: Call, id: string)
    requires Inv(kv) && id in kv.sequences
    requires call != Release(id) && !(call.Append? && call.id == id)
    ensures kv.tokensPerBlock > 0
    ensures id in Apply(kv, call).sequences && Apply(kv, call).sequences[id] == kv.sequences[id]
  {
    hide AllocateBlocks, AllocateMiss, AppendTokens, Holds;
    EntriesAreOk(kv);
    hide AllocatePrompt, AppendAccepted, PromptAccepted;
    match call
    case Prompt(other, tokens, key, prefixTokens) => AllocatePromptTheorem(kv, other, tokens, key, prefixTokens);
    case Append(other, count) => AppendTokensTheorem(kv, other, count);
    case Release(other) => ReleaseTheorem(kv, other);
  }

  lemma AppendHolds(kv: Kv, perBlock: int, id: string, count: int, prompt: int, generated: int)
    requires Inv(kv) && HoldsBlocks(kv, perBlock, id, prompt, generated)
    ensures var after := Apply(kv, Append(id, count));
            var more := if AppendTokens(kv, id, count).1.ok then Max(0, count) else 0;
            HoldsBlocks(after, perBlock, id, prompt, generated + more)
  {
    hide Holds, AppendTokens, AppendAccepted, CeilDiv;
    AppendTokensTheorem(kv, id, count);
    ApplyKeepsInvariant(kv, Append(id, count));
  }

  lemma LiveBecauseHolding(kv: Kv, perBlock: int, id: string, prompt: int, generated: int)
    requires HoldsBlocks(kv, perBlock, id, prompt, generated)
    ensures id in kv.sequences
  {
  }

  lemma SameSequenceHolds(kv: Kv, perBlock: int, after: Kv, id: string, prompt: int, generated: int)
    requires HoldsBlocks(kv, perBlock, id, prompt, generated)
    requires after.tokensPerBlock == kv.tokensPerBlock
    requires id in kv.sequences && id in after.sequences && after.sequences[id] == kv.sequences[id]
    ensures HoldsBlocks(after, perBlock, id, prompt, generated)
  {
  }

  lemma HoldsAfterCall(kv: Kv, perBlock: int, id: string, prompt: int, generated: int, call: Call)
    requires Inv(kv) && HoldsBlocks(kv, perBlock, id, prompt, generated)
    requires call != Release(id)
    ensures HoldsBlocks(Apply(kv, call), perBlock, id, prompt, generated + AcceptedTokens(kv, call, id))
  {
    hide Holds, HoldsBlocks, Apply, AppendAccepted;
    ApplyKeepsInvariant(kv, call);
    if call.Append? && call.id == id {
      AppendHolds(kv, perBlock, id, call.count, prompt, generated);
    } else {
      LiveBecauseHolding(kv, perBlock, id, prompt, generated);
      ApplyKeepsOthers(kv, call, id);
      SameSequenceHolds(kv, perBlock, Apply(kv, call), id, prompt, generated);
    }
  }

  /** A live sequence holds its prompt's blocks plus the blocks of its accepted tokens, however
      those were split over appends and whatever else was called in between. */
  lemma {:induction false} BlocksHeldTheorem(kv: Kv, perBlock: int, id: string, prompt: int, generated: int, calls: seq<Call>)
    requires Inv(kv) && HoldsBlocks(kv, perBlock, id, prompt, generated)
    requires forall k | 0 <= k < |calls| :: calls[k] != Release(id)
    ensures HoldsBlocks(After(kv, calls), perBlock, id, prompt, generated + Appended(kv, calls, id))
  {
    hide Inv, HoldsBlocks, Apply, AcceptedTokens, After, Appended;
    LastCall(kv, calls, id);
    if calls != [] {
      var init, call := calls[..|calls| - 1], calls[|calls| - 1];
      assert forall k | 0 <= k < |init| :: init[k] == calls[k];
      BlocksHeldTheorem(kv, perBlock, id, prompt, generated, init);
      AfterKeepsInvariant(kv, init);
      HoldsAfterCall(After(kv, init), perBlock, id, prompt, generated + Appended(kv, init, id), call);
    }
  }

  lemma LastCall(kv: Kv, calls: seq<Call>, id: string)
    ensures calls == [] ==> After(kv, calls) == kv && Appended(kv, calls, id) == 0
    ensures calls != [] ==>
              var before := After(kv, calls[..|calls| - 1]);
              && After(kv, calls) == Apply(before, calls[|calls| - 1])
              && Appended(kv, calls, id)
                 == Appended(kv, calls[..|calls| - 1], id) + AcceptedTokens(before, calls[|calls| - 1], id)
  {
  }

  lemma PromptHolds(kv: Kv, id: string, tokens: int, key: string, prefixTokens: int)
    requires Inv(kv) && kv.tokensPerBlock > 0 && PromptAccepted(kv, id, tokens, key, prefixTokens)
    ensures var start := Apply(kv, Prompt(id, tokens, key, prefixTokens));
            var blocks := PrefixBlocks(kv.tokensPerBlock, Max(0, tokens), key, prefixTokens)
                        + SuffixBlocks(kv.tokensPerBlock, Max(0, tokens), key, prefixTokens);
            Inv(start) && HoldsBlocks(start, kv.tokensPerBlock, id, blocks, 0)
  {
    hide Holds, AllocatePrompt, CeilDiv, PromptAccepted, PrefixBlocks, SuffixBlocks, Undone, PromptVictims, IsHit;
    AllocatePromptTheorem(kv, id, tokens, key, prefixTokens);
    ApplyKeepsInvariant(kv, Prompt(id, tokens, key, prefixTokens));
    NoPrefixTokensNoBlocks(0, kv.tokensPerBlock);
  }

  /** From its prompt on, a sequence has just enough blocks for its cacheable prompt tokens, its other prompt
      tokens, and the tokens accepted so far. */
  lemma SequenceSizeTheorem(kv: Kv, id: string, tokens: int, key: string, prefixTokens: int, calls: seq<Call>)
    requires Inv(kv) && kv.tokensPerBlock > 0 && PromptAccepted(kv, id, tokens, key, prefixTokens)
    requires forall k | 0 <= k < |calls| :: calls[k] != Release(id)
    ensures var start := Apply(kv, Prompt(id, tokens, key, prefixTokens));
            var p, c, g := Max(0, tokens), Cacheable(Max(0, tokens), key, prefixTokens), Appended(start, calls, id);
            JustEnoughFor(SequenceBlockCount(After(start, calls), id), kv.tokensPerBlock, c, p - c, g)
  {
    hide *;
    PromptHolds(kv, id, tokens, key, prefixTokens);
    var start := Apply(kv, Prompt(id, tokens, key, prefixTokens));
    MaxIsNatural(tokens);
    var p, c, g := Max(0, tokens), Cacheable(Max(0, tokens), key, prefixTokens), Appended(start, calls, id);
    PromptBlocksAre(kv.tokensPerBlock, p, key, prefixTokens);
    var blocks := PrefixBlocks(kv.tokensPerBlock, p, key, prefixTokens) + SuffixBlocks(kv.tokensPerBlock, p, key, prefixTokens);
    BlocksHeldTheorem(start, kv.tokensPerBlock, id, blocks, 0, calls);
    HeldIsCount(After(start, calls), kv.tokensPerBlock, id, blocks, g);
    CeilDivsAreJustEnough(kv.tokensPerBlock, c, p - c, g);
  }

  lemma MaxIsNatural(n: int)
    ensures Max(0, n) >= 0
  {
  }

  lemma PromptBlocksAre(perBlock: int, prompt: int, key: string, prefixTokens: int)
    requires perBlock > 0 && prompt >= 0
    ensures var c := Cacheable(prompt, key, prefixTokens);
            PrefixBlocks(perBlock, prompt, key, prefixTokens) + SuffixBlocks(perBlock, prompt, key, prefixTokens)
            == CeilDiv(c, perBlock) + CeilDiv(prompt - c, perBlock)
  {
    hide CeilDiv, Cacheable;
  }

  lemma HeldIsCount(kv: Kv, perBlock: int, id: string, prompt: int, generated: int)
    requires HoldsBlocks(kv, perBlock, id, prompt, generated)
    ensures perBlock > 0 && SequenceBlockCount(kv, id) == prompt + CeilDiv(generated, perBlock)
  {
    hide CeilDiv;
  }
}
