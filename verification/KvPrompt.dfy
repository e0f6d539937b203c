/** Prompt allocation as a whole: the exact success condition, the exact eviction, and exactly
    when blocks are orphaned. */
module KvPrompt {
  import opened KvCache
  import opened KvInvariant
  import opened KvTheory
  import opened KvOperations
  import KeyOrder

  // -------------------------------------------- eviction in two phases

  lemma {:induction false} RunShift(prefixes: map<string, PrefixEntry>, keys: seq<string>, free: int, need: int, d: int)
    requires forall k | k in keys :: k in prefixes
    ensures Run(prefixes, keys, free + d, need + d) == Run(prefixes, keys, free, need)
  {
    if free < need && keys != [] {
      RunShift(prefixes, keys[1..], free + |prefixes[keys[0]].blockIds|, need, d);
    }
  }

  /** Making room for `p` blocks, using them, then making room for `s` more evicts what making room
      for `p + s` does. */
  lemma {:induction false} RunSplit(prefixes: map<string, PrefixEntry>, keys: seq<string>, free: int, p: int, s: int)
    requires forall k | k in keys :: k in prefixes
    requires s >= 0
    requires free + TotalBlocks(prefixes, Run(prefixes, keys, free, p)) >= p
    ensures var r := Run(prefixes, keys, free, p);
            && r <= keys
            && Run(prefixes, keys, free, p + s)
               == r + Run(prefixes, keys[|r|..], free + TotalBlocks(prefixes, r) - p, s)
  {
    var r := Run(prefixes, keys, free, p);
    if free >= p {
      assert keys[0..] == keys;
      RunShift(prefixes, keys, free - p, s, p);
    } else if keys != [] {
      var size := |prefixes[keys[0]].blockIds|;
      var rest := Run(prefixes, keys[1..], free + size, p);
      assert r == [keys[0]] + rest && r[1..] == rest;
      assert TotalBlocks(prefixes, r) == size + TotalBlocks(prefixes, rest);
      RunSplit(prefixes, keys[1..], free + size, p, s);
      assert keys[|r|..] == keys[1..][|rest|..];
      assert Run(prefixes, keys, free, p + s) == [keys[0]] + Run(prefixes, keys[1..], free + size, p + s);
    }
  }

  lemma {:induction false} RunIgnoresOthers(a: map<string, PrefixEntry>, b: map<string, PrefixEntry>, keys: seq<string>, free: int, need: int)
    requires forall k | k in keys :: k in a && k in b && a[k] == b[k]
    ensures Run(a, keys, free, need) == Run(b, keys, free, need)
  {
    if free < need && keys != [] {
      RunIgnoresOthers(a, b, keys[1..], free + |a[keys[0]].blockIds|, need);
    }
  }

  lemma AscendingSuffix(keys: seq<string>, m: nat)
    requires KeyOrder.Ascending(keys) && m <= |keys|
    ensures KeyOrder.Ascending(keys[m..])
    ensures forall k :: k in keys[m..] <==> k in keys && k !in keys[..m]
  {
    var before, after := keys[..m], keys[m..];
    assert keys == before + after;
    forall k | k in before
      ensures k !in after
    {
      var i :| 0 <= i < m && keys[i] == k;
      forall j | m <= j < |keys|
        ensures keys[j] != k
      {
        KeyOrder.AscendingIsDistinct(keys, i, j);
      }
    }
  }

  lemma IdleAfterFirstPhase(kv: Kv, p: int, key: string, first: Kv, prefix: seq<nat>)
    requires Accounted(kv, p, key, first, prefix) && HandedOut(kv, key, first, prefix)
    ensures Victims(kv, p) <= IdleKeys(kv)
    ensures IdleKeys(first) == IdleKeys(kv)[|Victims(kv, p)|..]
  {
    hide Pinned, Orphans, FreeCount, BlocksOf, Victims, IdleKeys, Owners;
    var gone := Victims(kv, p);
    VictimsSpec(kv, p);
    IdleKeysSpec(kv);
    IdleKeysSpec(first);
    AscendingSuffix(IdleKeys(kv), |gone|);
    assert IdleKeys(kv)[..|gone|] == gone;
    forall k | k in first.prefixes
      ensures EntryIsIdle(first.blocks, first.prefixes[k]) == EntryIsIdle(kv.blocks, kv.prefixes[k])
    {
      assert forall b | b in first.prefixes[k].blockIds :: b in Ids(first.prefixes[k].blockIds);
    }
    KeyOrder.AscendingIsUnique(IdleKeys(first), IdleKeys(kv)[|gone|..]);
  }

  lemma RoomAfterFirstPhase(kv: Kv, p: int, key: string, first: Kv, prefix: seq<nat>)
    requires Inv(kv) && |prefix| == p && Accounted(kv, p, key, first, prefix)
    ensures FreeCount(first.blocks) == FreeCount(kv.blocks) + TotalBlocks(kv.prefixes, Victims(kv, p)) - p >= 0
  {
    hide Pinned, Orphans, Holds, FreeCount, Victims, TotalBlocks;
    VictimsSpec(kv, p);
    EntriesAreOk(kv);
    BlocksOfSize(kv, Victims(kv, p));
  }

  lemma VictimsAreARun(kv: Kv, need: int)
    ensures forall k | k in IdleKeys(kv) :: k in kv.prefixes
    ensures Victims(kv, need) == Run(kv.prefixes, IdleKeys(kv), FreeCount(kv.blocks), need)
  {
    IdleKeysSpec(kv);
  }

  lemma TwoPhasesEvictAsOne(kv: Kv, p: int, s: int, key: string, first: Kv, prefix: seq<nat>)
    requires Inv(kv) && s >= 0 && |prefix| == p
    requires Accounted(kv, p, key, first, prefix) && HandedOut(kv, key, first, prefix)
    ensures Victims(kv, p + s) == Victims(kv, p) + Victims(first, s)
  {
    IdleAfterFirstPhase(kv, p, key, first, prefix);
    RoomAfterFirstPhase(kv, p, key, first, prefix);
    hide Pinned, Orphans, Inv, HandedOut, FreeCount, Victims, IdleKeys, Run, TotalBlocks, BlocksOf;
    VictimsAreARun(kv, p);
    VictimsAreARun(kv, p + s);
    VictimsAreARun(first, s);
    RunSplit(kv.prefixes, IdleKeys(kv), FreeCount(kv.blocks), p, s);
    RunIgnoresOthers(first.prefixes, kv.prefixes, IdleKeys(first), FreeCount(first.blocks), s);
  }

  lemma EntriesAreOk(kv: Kv)
    requires Inv(kv)
    ensures CacheOk(kv) && kv.tokensPerBlock > 0
  {
  }

  // ---------------------------------------------------------- a miss

  /** The entry that a miss on `key` replaces is still there after eviction. */
  ghost predicate Replaces(kv: Kv, key: string, cacheable: int, n: int) {
    cacheable > 0 && key in kv.prefixes && key !in Victims(kv, n)
  }

  ghost predicate MissDone(kv: Kv, after: Kv, key: string, cacheable: int, n: int) {
    && (cacheable > 0 ==>
          && key in after.prefixes && after.prefixes[key].tokenCount == cacheable
          && after.prefixes == Without(kv.prefixes, Victims(kv, n))[key := after.prefixes[key]])
    && (cacheable <= 0 ==> after.prefixes == Without(kv.prefixes, Victims(kv, n)))
    && Orphans(after) == Orphans(kv) + (if Replaces(kv, key, cacheable, n) then Ids(kv.prefixes[key].blockIds) else {})
  }

  lemma WithoutTwice(prefixes: map<string, PrefixEntry>, a: seq<string>, b: seq<string>)
    ensures Without(Without(prefixes, a), b) == Without(prefixes, a + b)
  {
  }

  /** With room for prefix and suffix, a miss commits. */
  lemma MissSucceeds(kv: Kv, id: string, prompt: int, key: string, cacheable: int, p: int, s: int)
    requires Inv(kv) && id != "" && id !in kv.sequences
    requires s >= 0 && p == CeilDiv(cacheable, kv.tokensPerBlock) && (cacheable > 0 ==> key != "")
    requires p + s + |Pinned(kv)| <= |kv.blocks|
    ensures var (after, r) := AllocateMiss(kv, id, prompt, key, cacheable, p, s);
            && r == Allocation(true, false, p + s, "")
            && Inv(after) && Attached(kv, after, id, prompt, p, s)
            && MissDone(kv, after, key, cacheable, p + s)
            && FreeCount(after.blocks) >= FreeCount(kv.blocks) - p - s
  {
    hide Holds, CeilDiv, AllocateBlocks, Pinned, FreeCount, Victims, Owners, Orphans, Distinct;
    EntriesAreOk(kv);
    var (first, prefix) := AllocateBlocks(kv, p, key);
    var (mid, suffix) := AllocateBlocks(first, s, "");
    MissAllocates(kv, key, p, s);
    MissVictims(kv, key, p, s);
    WithoutTwice(kv.prefixes, Victims(kv, p), Victims(first, s));
    var q := Sequence(prompt, 0, p, prefix + suffix);
    NoPrefixTokensNoBlocks(cacheable, kv.tokensPerBlock);
    MissCommits(kv, id, key, cacheable, p, s, first, prefix, mid, suffix, q);
    RecachedOrphans(mid, Ids(prefix) + Ids(suffix), mid.sequences[id := q], key, cacheable, prefix);
    MissOrphans(kv, mid, key, cacheable, p + s, prefix);
  }

  lemma NoPrefixTokensNoBlocks(cacheable: int, perBlock: int)
    requires perBlock > 0
    ensures cacheable <= 0 ==> CeilDiv(cacheable, perBlock) == 0
  {
  }

  lemma MissVictims(kv: Kv, key: string, p: int, s: int)
    requires Inv(kv) && p >= 0 && s >= 0 && p + |Pinned(kv)| <= |kv.blocks|
    ensures var first := AllocateBlocks(kv, p, key).0;
            Victims(kv, p + s) == Victims(kv, p) + Victims(first, s)
  {
    hide Holds, AllocateBlocks, Pinned, Victims, HandedOut;
    AllocateBlocksOutcome(kv, {}, p, key);
    var (first, prefix) := AllocateBlocks(kv, p, key);
    TwoPhasesEvictAsOne(kv, p, s, key, first, prefix);
  }

  lemma MissOrphans(kv: Kv, mid: Kv, key: string, cacheable: int, n: int, prefix: seq<nat>)
    requires mid.prefixes == Without(kv.prefixes, Victims(kv, n))
    requires Orphans(mid) == Orphans(kv) + (if key == "" then {} else Ids(prefix))
    requires Ids(prefix) !! Pinned(kv)
    requires key == "" ==> Ids(prefix) == {}
    ensures var replaced := if cacheable > 0 && key in mid.prefixes then Ids(mid.prefixes[key].blockIds) else {};
            Orphans(mid) - Ids(prefix) + replaced
            == Orphans(kv) + (if Replaces(kv, key, cacheable, n) then Ids(kv.prefixes[key].blockIds) else {})
  {
    hide Orphans, Victims, Referenced;
    assert Orphans(kv) <= Pinned(kv);
    assert Orphans(mid) - Ids(prefix) == Orphans(kv);
  }

  lemma HandedBack(kv: Kv, key: string, p: int, s: int, first: Kv, prefix: seq<nat>, mid: Kv)
    requires MissAllocated(kv, key, p, s, first, prefix, mid, []) && (key == "" ==> prefix == [])
    ensures var after := mid.(blocks := Update(mid.blocks, Ids(prefix), Freed));
            Inv(after) && Undone(kv, after)
  {
    hide Holds, Orphans, Referenced, Distinct, IdleKeys, Ids, InRange;
    NoIds(Ids(prefix));
    HandBackKeepsInvariant(mid, prefix);
    assert Orphans(kv) <= Pinned(kv);
  }

  lemma MissFailsAtSuffix(kv: Kv, id: string, prompt: int, key: string, cacheable: int, p: int, s: int)
    requires Inv(kv) && p >= 0 && s >= 0 && (key == "" ==> p == 0)
    requires p + |Pinned(kv)| <= |kv.blocks| < p + s + |Pinned(kv)|
    ensures var (after, r) := AllocateMiss(kv, id, prompt, key, cacheable, p, s);
            && r == Failed("kv cache exhausted")
            && Inv(after) && Undone(kv, after)
            && after.prefixes == Without(kv.prefixes, Victims(kv, p + s))
  {
    hide Inv, AllocateBlocks, FreeCount, Victims, Owners, Orphans, Referenced, Undone, Pinned;
    var (first, prefix) := AllocateBlocks(kv, p, key);
    var (mid, suffix) := AllocateBlocks(first, s, "");
    MissAllocates(kv, key, p, s);
    MissVictims(kv, key, p, s);
    WithoutTwice(kv.prefixes, Victims(kv, p), Victims(first, s));
    HandedBack(kv, key, p, s, first, prefix, mid);
  }

  lemma MissFailsAtPrefix(kv: Kv, id: string, prompt: int, key: string, cacheable: int, p: int, s: int)
    requires Inv(kv) && p >= 0 && s >= 0
    requires p + |Pinned(kv)| > |kv.blocks|
    ensures var (after, r) := AllocateMiss(kv, id, prompt, key, cacheable, p, s);
            && r == Failed("kv cache exhausted")
            && Inv(after) && Undone(kv, after)
            && after.prefixes == Without(kv.prefixes, Victims(kv, p + s))
  {
    hide Holds, AllocateBlocks, FreeCount, Victims, IdleKeys, Owners, Orphans, Referenced;
    AllocateBlocksOutcome(kv, {}, p, key);
    NoIds({});
    NoIds(Orphans(kv));
    TooMuchEvictsAll(kv, p);
    TooMuchEvictsAll(kv, p + s);
  }

  /** Without room for prefix and suffix, a miss takes everything back. */
  lemma MissFails(kv: Kv, id: string, prompt: int, key: string, cacheable: int, p: int, s: int)
    requires Inv(kv) && p >= 0 && s >= 0 && (key == "" ==> p == 0)
    requires p + s + |Pinned(kv)| > |kv.blocks|
    ensures var (after, r) := AllocateMiss(kv, id, prompt, key, cacheable, p, s);
            && r == Failed("kv cache exhausted")
            && Inv(after) && Undone(kv, after)
            && after.prefixes == Without(kv.prefixes, Victims(kv, p + s))
  {
    hide Inv, AllocateMiss, Victims, Undone, Pinned;
    if p + |Pinned(kv)| <= |kv.blocks| {
      MissFailsAtSuffix(kv, id, prompt, key, cacheable, p, s);
    } else {
      MissFailsAtPrefix(kv, id, prompt, key, cacheable, p, s);
    }
  }

  /** A need that cannot be met evicts every idle prefix. */
  lemma TooMuchEvictsAll(kv: Kv, need: int)
    requires Inv(kv) && need + |Pinned(kv)| > |kv.blocks|
    ensures Victims(kv, need) == IdleKeys(kv)
  {
    EvictFreesAllItCan(kv, {}, need);
    VictimsSpec(kv, need);
    IdleKeysSpec(kv);
    BlocksOfSize(kv, Victims(kv, need));
    RunIsShortest(kv.prefixes, IdleKeys(kv), FreeCount(kv.blocks), need);
  }

  // ------------------------------------------------------ the operation

  /** Whether the blocks a prompt needs fit beside the pinned ones; a prompt that hits the prefix
      cache needs no new prefix blocks but pins the ones it shares. */
  ghost predicate PromptFits(kv: Kv, prompt: int, key: string, prefixTokens: int)
    requires kv.tokensPerBlock > 0 && prompt >= 0
  {
    var c := Cacheable(prompt, key, prefixTokens);
    var p := PrefixBlocks(kv.tokensPerBlock, prompt, key, prefixTokens);
    var s := SuffixBlocks(kv.tokensPerBlock, prompt, key, prefixTokens);
    if IsHit(kv, c, key) then s + |Pinned(kv) + Ids(kv.prefixes[key].blockIds)| <= |kv.blocks|
    else p + s + |Pinned(kv)| <= |kv.blocks|
  }

  /** What the call evicts: the shortest key-ordered run of idle prefixes that meets the need. */
  ghost function PromptVictims(kv: Kv, prompt: int, key: string, prefixTokens: int): seq<string>
    requires kv.tokensPerBlock > 0 && prompt >= 0
  {
    var c := Cacheable(prompt, key, prefixTokens);
    var p := PrefixBlocks(kv.tokensPerBlock, prompt, key, prefixTokens);
    var s := SuffixBlocks(kv.tokensPerBlock, prompt, key, prefixTokens);
    if IsHit(kv, c, key) then Victims(Hold(kv, key), s) else Victims(kv, p + s)
  }

  /** A prompt is accepted exactly when its id is new and non-empty and its blocks fit. */
  ghost predicate PromptAccepted(kv: Kv, id: string, promptTokens: int, key: string, prefixTokens: int)
    requires kv.tokensPerBlock > 0
  {
    id != "" && id !in kv.sequences && PromptFits(kv, Max(0, promptTokens), key, prefixTokens)
  }

  /** The call overwrites a cached prefix of the same key but another length, and so orphans its blocks. */
  ghost predicate OverwritesPrefix(kv: Kv, promptTokens: int, key: string, prefixTokens: int)
    requires kv.tokensPerBlock > 0
  {
    var prompt := Max(0, promptTokens);
    var c := Cacheable(prompt, key, prefixTokens);
    && c > 0 && key in kv.prefixes && kv.prefixes[key].tokenCount != c
    && key !in PromptVictims(kv, prompt, key, prefixTokens)
  }

  ghost predicate PromptOutcome(kv: Kv, id: string, promptTokens: int, key: string, prefixTokens: int, after: Kv, r: Allocation)
    requires kv.tokensPerBlock > 0
  {
    var prompt := Max(0, promptTokens);
    var p := PrefixBlocks(kv.tokensPerBlock, prompt, key, prefixTokens);
    var s := SuffixBlocks(kv.tokensPerBlock, prompt, key, prefixTokens);
    var c := Cacheable(prompt, key, prefixTokens);
    && (r.ok <==> PromptAccepted(kv, id, promptTokens, key, prefixTokens))
    && (!r.ok ==> Undone(kv, after) && !r.cacheHit && r.attachedBlocks == 0)
    && (r.ok ==>
          && Attached(kv, after, id, prompt, p, s)
          && r.attachedBlocks == p + s
          && (r.cacheHit <==> IsHit(kv, c, key))
          && FreeCount(after.blocks) >= FreeCount(kv.blocks) - p - s
          && Orphans(after) == Orphans(kv) +
               if OverwritesPrefix(kv, promptTokens, key, prefixTokens) then Ids(kv.prefixes[key].blockIds) else {})
    && (id != "" && id !in kv.sequences ==>
          var kept := Without(kv.prefixes, PromptVictims(kv, prompt, key, prefixTokens));
          if r.ok && c > 0 && !IsHit(kv, c, key)
          then key in after.prefixes && after.prefixes[key].tokenCount == c && after.prefixes == kept[key := after.prefixes[key]]
          else after.prefixes == kept)
    && (id == "" || id in kv.sequences ==> after == kv)
  }

  lemma HitOutcome(kv: Kv, id: string, promptTokens: int, key: string, prefixTokens: int)
    requires Inv(kv) && id != "" && id !in kv.sequences
    requires IsHit(kv, Cacheable(Max(0, promptTokens), key, prefixTokens), key)
    ensures kv.tokensPerBlock > 0
    ensures var (after, r) := AllocatePrompt(kv, id, promptTokens, key, prefixTokens);
            Inv(after) && PromptOutcome(kv, id, promptTokens, key, prefixTokens, after, r)
  {
    hide Holds, CeilDiv, AllocateHit, AllocateMiss, FreeCount, Victims, Hold, Orphans, Referenced;
    EntriesAreOk(kv);
    assert EntryOk(kv, key);
    var prompt := Max(0, promptTokens);
    var p := PrefixBlocks(kv.tokensPerBlock, prompt, key, prefixTokens);
    var s := SuffixBlocks(kv.tokensPerBlock, prompt, key, prefixTokens);
    if PromptFits(kv, prompt, key, prefixTokens) {
      HitSucceeds(kv, id, prompt, key, p, s);
      NoIds(Orphans(kv));
    } else {
      HitFails(kv, id, prompt, key, p, s);
    }
  }

  lemma MissOutcome(kv: Kv, id: string, promptTokens: int, key: string, prefixTokens: int)
    requires Inv(kv) && id != "" && id !in kv.sequences
    requires !IsHit(kv, Cacheable(Max(0, promptTokens), key, prefixTokens), key)
    ensures kv.tokensPerBlock > 0
    ensures var (after, r) := AllocatePrompt(kv, id, promptTokens, key, prefixTokens);
            Inv(after) && PromptOutcome(kv, id, promptTokens, key, prefixTokens, after, r)
  {
    hide Holds, CeilDiv, AllocateHit, AllocateMiss, FreeCount, Victims, Hold, Orphans, Referenced, Owners, Cacheable, IdleKeys;
    EntriesAreOk(kv);
    var prompt := Max(0, promptTokens);
    var c := Cacheable(prompt, key, prefixTokens);
    var p := PrefixBlocks(kv.tokensPerBlock, prompt, key, prefixTokens);
    var s := SuffixBlocks(kv.tokensPerBlock, prompt, key, prefixTokens);
    var missed := if c > 0 then kv.(stats := kv.stats.(prefixMisses := kv.stats.prefixMisses + 1)) else kv;
    StatsDoNotMatter(kv, missed, {});
    NoPrefixTokensNoBlocks(c, kv.tokensPerBlock);
    if PromptFits(kv, prompt, key, prefixTokens) {
      MissSucceeds(missed, id, prompt, key, c, p, s);
    } else {
      MissFails(missed, id, prompt, key, c, p, s);
    }
  }

  /** The prompt theorem: every call keeps the invariant, succeeds exactly when its blocks fit,
      evicts exactly the shortest run that helps, and orphans blocks exactly when it overwrites a
      prefix of another length. */
  lemma AllocatePromptTheorem(kv: Kv, id: string, promptTokens: int, key: string, prefixTokens: int)
    requires Inv(kv)
    ensures kv.tokensPerBlock > 0
    ensures var (after, r) := AllocatePrompt(kv, id, promptTokens, key, prefixTokens);
            Inv(after) && PromptOutcome(kv, id, promptTokens, key, prefixTokens, after, r)
  {
    hide Holds, CeilDiv, AllocateHit, AllocateMiss, PromptFits, Victims;
    EntriesAreOk(kv);
    if id != "" && id !in kv.sequences {
      if IsHit(kv, Cacheable(Max(0, promptTokens), key, prefixTokens), key) {
        HitOutcome(kv, id, promptTokens, key, prefixTokens);
      } else {
        MissOutcome(kv, id, promptTokens, key, prefixTokens);
      }
    }
  }

  /** A call orphans blocks if and only if it succeeds and overwrites a prefix of another length. */
  lemma OrphansExactlyOnOverwrite(kv: Kv, id: string, promptTokens: int, key: string, prefixTokens: int)
    requires Inv(kv)
    ensures kv.tokensPerBlock > 0
    ensures var after := AllocatePrompt(kv, id, promptTokens, key, prefixTokens).0;
            Orphans(after) != Orphans(kv) <==>
              PromptAccepted(kv, id, promptTokens, key, prefixTokens) && OverwritesPrefix(kv, promptTokens, key, prefixTokens)
  {
    AllocatePromptTheorem(kv, id, promptTokens, key, prefixTokens);
    if OverwritesPrefix(kv, promptTokens, key, prefixTokens) {
      CachedIsNotOrphaned(kv, key);
    }
  }

  lemma CachedIsNotOrphaned(kv: Kv, key: string)
    requires Inv(kv) && key in kv.prefixes
    ensures Ids(kv.prefixes[key].blockIds) != {}
    ensures Ids(kv.prefixes[key].blockIds) !! Orphans(kv)
  {
    var e := kv.prefixes[key];
    assert EntryOk(kv, key);
    CeilDivPositive(e.tokenCount, kv.tokensPerBlock);
    assert e.blockIds[0] in Ids(e.blockIds);
  }

  lemma CeilDivPositive(value: int, divisor: int)
    requires value > 0 && divisor > 0
    ensures CeilDiv(value, divisor) >= 1
  {
    assert (value + divisor - 1) / divisor >= divisor / divisor;
  }
}
