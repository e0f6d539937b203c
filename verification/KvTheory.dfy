/** What each allocator operation guarantees, for every state that satisfies the invariant. */
module KvTheory {
  import opened KvCache
  import opened KvInvariant
  import KeyOrder

  // ------------------------------------------------------ cache dimensions

  lemma AllocateKeepsShape(kv: Kv, n: int, key: string)
    ensures var after := AllocateBlocks(kv, n, key).0;
            after.tokensPerBlock == kv.tokensPerBlock && |after.blocks| == |kv.blocks|
  {
  }

  lemma PromptKeepsShape(kv: Kv, id: string, tokens: int, key: string, prefixTokens: int)
    requires kv.tokensPerBlock > 0
    ensures var after := AllocatePrompt(kv, id, tokens, key, prefixTokens).0;
            after.tokensPerBlock == kv.tokensPerBlock && |after.blocks| == |kv.blocks|
  {
    hide AllocateBlocks, CeilDiv, Cacheable;
    var prompt := Max(0, tokens);
    var p := PrefixBlocks(kv.tokensPerBlock, prompt, key, prefixTokens);
    var s := SuffixBlocks(kv.tokensPerBlock, prompt, key, prefixTokens);
    var missed := kv.(stats := kv.stats.(prefixMisses := kv.stats.prefixMisses + 1));
    if key in kv.prefixes {
      AllocateKeepsShape(Hold(kv, key), s, "");
    }
    AllocateKeepsShape(kv, p, key);
    AllocateKeepsShape(AllocateBlocks(kv, p, key).0, s, "");
    AllocateKeepsShape(missed, p, key);
    AllocateKeepsShape(AllocateBlocks(missed, p, key).0, s, "");
  }

  lemma AppendKeepsShape(kv: Kv, id: string, count: int)
    requires kv.tokensPerBlock > 0
    ensures var after := AppendTokens(kv, id, count).0;
            after.tokensPerBlock == kv.tokensPerBlock && |after.blocks| == |kv.blocks|
  {
    if id in kv.sequences {
      AllocateKeepsShape(kv, GrowthBlocks(kv.tokensPerBlock, kv.sequences[id].generatedTokens, count), "");
    }
  }

  // ---------------------------------------------------- allocating blocks

  ghost function FreeFrom(blocks: seq<Block>, from: nat): set<nat> {
    set b: nat | from <= b < |blocks| && !blocks[b].occupied
  }

  /** The scan picks distinct free blocks, as many as asked for when there are that many, and
      skips no free block below one it picks. */
  lemma {:induction false} LowestFreeSpec(blocks: seq<Block>, from: nat, n: nat)
    requires from <= |blocks|
    ensures var ids := LowestFree(blocks, from, n);
            && Distinct(ids)
            && Ids(ids) <= FreeFrom(blocks, from)
            && |ids| == Min(n, |FreeFrom(blocks, from)|)
            && (forall b, c | b in ids && c in FreeFrom(blocks, from) && c < b :: c in ids)
    decreases |blocks| - from
  {
    if n == 0 {
    } else if from == |blocks| {
      assert FreeFrom(blocks, from) == {};
    } else if blocks[from].occupied {
      LowestFreeSpec(blocks, from + 1, n);
      assert FreeFrom(blocks, from) == FreeFrom(blocks, from + 1);
    } else {
      LowestFreeSpec(blocks, from + 1, n - 1);
      assert FreeFrom(blocks, from) == FreeFrom(blocks, from + 1) + {from};
      var rest := LowestFree(blocks, from + 1, n - 1);
      assert forall b | b in rest :: b in Ids(rest);
    }
  }

  lemma OccupyKeepsInvariant(kv: Kv, held: set<nat>, ids: seq<nat>, key: string)
    requires Holds(kv, held)
    requires Distinct(ids) && Ids(ids) <= FreeSet(kv.blocks)
    ensures Holds(Occupy(kv, ids, key), held + Ids(ids))
    ensures Ids(ids) !! held
  {
    var after := Occupy(kv, ids, key);
    forall b: nat | b < |kv.blocks|
      ensures BlockOk(after, held + Ids(ids), b)
      ensures b in ids ==> b !in held
    {
      assert BlockOk(kv, held, b);
    }
    forall id | id in kv.sequences
      ensures SequenceOk(after, id)
    {
      assert SequenceOk(kv, id);
      forall b | b in kv.sequences[id].blockIds
        ensures b !in Ids(ids)
      {
        OwnedIsReferenced(kv, held, id, b);
      }
    }
    forall k | k in kv.prefixes
      ensures EntryOk(after, k) && Ids(kv.prefixes[k].blockIds) !! Ids(ids)
    {
      assert EntryOk(kv, k);
    }
  }

  /** A free block has no owner and belongs to no prefix. */
  lemma FreeIsUnused(kv: Kv, held: set<nat>, b: nat)
    requires Holds(kv, held) && b in FreeSet(kv.blocks)
    ensures kv.blocks[b].refCount == 0 && kv.blocks[b].prefixKey == "" && Owners(kv.sequences, b) == {}
    ensures forall k | k in kv.prefixes :: b !in kv.prefixes[k].blockIds
  {
    assert BlockOk(kv, held, b);
    forall k | k in kv.prefixes
      ensures b !in kv.prefixes[k].blockIds
    {
      assert EntryOk(kv, k);
    }
  }

  lemma OccupyPins(kv: Kv, held: set<nat>, ids: seq<nat>, key: string)
    requires Holds(kv, held)
    requires Distinct(ids) && Ids(ids) <= FreeSet(kv.blocks)
    ensures var after := Occupy(kv, ids, key);
            && Referenced(after) == Referenced(kv) + Ids(ids)
            && Orphans(after) == Orphans(kv) + (if key == "" then {} else Ids(ids))
  {
    var after := Occupy(kv, ids, key);
    forall b: nat | b < |kv.blocks|
      ensures IsCached(after, b) == IsCached(kv, b)
      ensures b in ids ==> !IsCached(kv, b) && kv.blocks[b].prefixKey == ""
    {
      if b in Ids(ids) {
        FreeIsUnused(kv, held, b);
      }
    }
  }

  lemma PinnedGrows(kv: Kv, after: Kv, ids: set<nat>, orphans: set<nat>)
    requires orphans <= ids
    requires Referenced(after) == Referenced(kv) + ids && Orphans(after) == Orphans(kv) + orphans
    ensures Pinned(after) == Pinned(kv) + ids
  {
  }

  lemma OccupyCounts(kv: Kv, ids: seq<nat>, key: string)
    requires Distinct(ids) && Ids(ids) <= FreeSet(kv.blocks)
    requires FreeSet(kv.blocks) !! Pinned(kv)
    requires Pinned(Occupy(kv, ids, key)) == Pinned(kv) + Ids(ids)
    ensures |Pinned(Occupy(kv, ids, key))| == |Pinned(kv)| + |ids|
    ensures FreeCount(Occupy(kv, ids, key).blocks) == FreeCount(kv.blocks) - |ids|
  {
    DistinctSize(ids);
    OccupyTakesFree(kv, ids, key);
  }

  lemma OccupyTakesFree(kv: Kv, ids: seq<nat>, key: string)
    requires Ids(ids) <= FreeSet(kv.blocks)
    ensures FreeSet(Occupy(kv, ids, key).blocks) == FreeSet(kv.blocks) - Ids(ids)
  {
  }

  lemma OccupyOutcome(kv: Kv, held: set<nat>, ids: seq<nat>, key: string)
    requires Holds(kv, held)
    requires Distinct(ids) && Ids(ids) <= FreeSet(kv.blocks)
    ensures var after := Occupy(kv, ids, key);
            && Pinned(after) == Pinned(kv) + Ids(ids)
            && |Pinned(after)| == |Pinned(kv)| + |ids|
            && Orphans(after) == Orphans(kv) + (if key == "" then {} else Ids(ids))
            && FreeCount(after.blocks) == FreeCount(kv.blocks) - |ids|
  {
    var after := Occupy(kv, ids, key);
    OccupyPins(kv, held, ids, key);
    PinnedGrows(kv, after, Ids(ids), if key == "" then {} else Ids(ids));
    FreeAndPinnedAreDisjoint(kv, held);
    OccupyCounts(kv, ids, key);
  }

  /** What a call that asks for `n` blocks leaves unchanged or counts. */
  ghost predicate Accounted(kv: Kv, n: int, key: string, after: Kv, ids: seq<nat>) {
    && after.sequences == kv.sequences
    && after.tokensPerBlock == kv.tokensPerBlock
    && |after.blocks| == |kv.blocks|
    && after.prefixes == kv.prefixes - (set k | k in Victims(kv, n))
    && (|ids| == n <==> n + |Pinned(kv)| <= |kv.blocks|)
    && (|ids| != n ==> ids == [])
    && Pinned(after) == Pinned(kv) + Ids(ids)
    && |Pinned(after)| == |Pinned(kv)| + |ids|
    && Orphans(after) == Orphans(kv) + (if key == "" then {} else Ids(ids))
    && FreeCount(after.blocks) == FreeCount(kv.blocks) + |BlocksOf(kv.prefixes, Victims(kv, n))| - |ids|
  }

  /** The blocks a call hands out were nobody's; no other block's reference count moves. */
  ghost predicate HandedOut(kv: Kv, key: string, after: Kv, ids: seq<nat>) {
    && |after.blocks| == |kv.blocks|
    && Distinct(ids) && InRange(ids, |kv.blocks|)
    && (forall b | b in Ids(ids) ::
          && b < |kv.blocks| && after.blocks[b] == Block(true, 1, key) && kv.blocks[b].refCount == 0
          && Owners(kv.sequences, b) == {})
    && (forall b: nat | b < |kv.blocks| && b !in Ids(ids) :: after.blocks[b].refCount == kv.blocks[b].refCount)
    && Ids(ids) !! Pinned(kv)
    && (forall k | k in after.prefixes :: Ids(after.prefixes[k].blockIds) !! Ids(ids))
    && (forall b | b in Pinned(kv) :: after.blocks[b] == kv.blocks[b])
  }

  lemma OccupyHandsOut(kv: Kv, held: set<nat>, ids: seq<nat>, key: string)
    requires Holds(kv, held)
    requires Distinct(ids) && Ids(ids) <= FreeSet(kv.blocks)
    ensures HandedOut(kv, key, Occupy(kv, ids, key), ids)
  {
    FreeAndPinnedAreDisjoint(kv, held);
    assert forall i | 0 <= i < |ids| :: ids[i] in Ids(ids);
    forall b | b in Ids(ids)
      ensures kv.blocks[b].refCount == 0 && Owners(kv.sequences, b) == {}
      ensures forall k | k in kv.prefixes :: b !in kv.prefixes[k].blockIds
    {
      FreeIsUnused(kv, held, b);
    }
  }

  lemma NoIds(s: set<nat>)
    ensures s + Ids([]) == s && s + {} == s && Ids([]) == {}
  {
  }

  lemma AllocateNothing(kv: Kv, held: set<nat>, key: string)
    requires Holds(kv, held)
    ensures Accounted(kv, 0, key, kv, []) && HandedOut(kv, key, kv, []) && Holds(kv, held + Ids([]))
  {
    hide IdleKeys, Ids, IsCached, Orphans, Pinned;
    NoIds(held);
    NoIds(Pinned(kv));
    NoIds(Orphans(kv));
    FreeAndPinnedAreDisjoint(kv, held);
    assert Victims(kv, 0) == [];
    assert BlocksOf(kv.prefixes, []) == {};
    assert kv.prefixes - (set k | k in Victims(kv, 0)) == kv.prefixes;
  }

  lemma LowestFreeSuffices(kv: Kv, n: nat)
    requires FreeCount(kv.blocks) >= n
    ensures var ids := LowestFree(kv.blocks, 0, n);
            |ids| == n && Distinct(ids) && Ids(ids) <= FreeSet(kv.blocks)
  {
    LowestFreeSpec(kv.blocks, 0, n);
    assert FreeFrom(kv.blocks, 0) == FreeSet(kv.blocks);
  }

  lemma AllocateSomethingHandsOut(kv: Kv, held: set<nat>, n: int, key: string)
    requires Holds(kv, held) && n > 0 && FreeCount(Evict(kv, n).blocks) >= n
    ensures var (after, ids) := AllocateBlocks(kv, n, key);
            && HandedOut(kv, key, after, ids)
            && Holds(after, held + Ids(ids)) && Ids(ids) !! held
  {
    var roomy := Evict(kv, n);
    var ids := LowestFree(roomy.blocks, 0, n);
    EvictFreesAllItCan(kv, held, n);
    LowestFreeSuffices(roomy, n);
    OccupyKeepsInvariant(roomy, held, ids, key);
    OccupyHandsOut(roomy, held, ids, key);
    assert Pinned(roomy) == Pinned(kv);
  }

  lemma AllocateSomethingAccounts(kv: Kv, held: set<nat>, n: int, key: string)
    requires Holds(kv, held) && n > 0 && FreeCount(Evict(kv, n).blocks) >= n
    ensures var (after, ids) := AllocateBlocks(kv, n, key);
            Accounted(kv, n, key, after, ids)
  {
    var roomy := Evict(kv, n);
    var ids := LowestFree(roomy.blocks, 0, n);
    EvictFreesAllItCan(kv, held, n);
    LowestFreeSuffices(roomy, n);
    OccupyOutcome(roomy, held, ids, key);
    assert Pinned(roomy) == Pinned(kv);
  }

  lemma AllocateTooMuch(kv: Kv, held: set<nat>, n: int, key: string)
    requires Holds(kv, held) && n > 0 && FreeCount(Evict(kv, n).blocks) < n
    ensures var (after, ids) := AllocateBlocks(kv, n, key);
            Accounted(kv, n, key, after, []) && HandedOut(kv, key, after, []) && Holds(after, held)
  {
    NoIds(Pinned(kv));
    NoIds(Orphans(kv));
    EvictFreesAllItCan(kv, held, n);
    var roomy := Evict(kv, n);
    var (after, ids) := AllocateBlocks(kv, n, key);
    StatsDoNotMatter(roomy, after, held);
  }

  lemma StatsDoNotMatter(kv: Kv, after: Kv, held: set<nat>)
    requires after == kv.(stats := after.stats)
    ensures Holds(kv, held) ==> Holds(after, held)
    ensures Referenced(after) == Referenced(kv) && Orphans(after) == Orphans(kv)
    ensures forall need :: Victims(after, need) == Victims(kv, need)
  {
    assert CacheOk(kv) ==> CacheOk(after);
    assert forall id | id in kv.sequences :: SequenceOk(after, id) == SequenceOk(kv, id);
    assert forall b: nat | b < |kv.blocks| :: BlockOk(after, held, b) == BlockOk(kv, held, b);
    assert forall b: nat | b < |kv.blocks| :: IsCached(after, b) == IsCached(kv, b);
    IdleIgnoresStats(kv, after, KeyOrder.Sorted(kv.prefixes.Keys));
  }

  lemma {:induction false} IdleIgnoresStats(kv: Kv, after: Kv, keys: seq<string>)
    requires after == kv.(stats := after.stats)
    requires forall k | k in keys :: k in kv.prefixes
    ensures IdleAmong(after, keys) == IdleAmong(kv, keys)
  {
    if keys != [] {
      IdleIgnoresStats(kv, after, keys[1..]);
    }
  }

  /** Allocation succeeds exactly when the request fits beside the pinned blocks, and a failure
      changes no reference count. */
  lemma AllocateBlocksOutcome(kv: Kv, held: set<nat>, n: int, key: string)
    requires Holds(kv, held) && n >= 0
    ensures var (after, ids) := AllocateBlocks(kv, n, key);
            && Accounted(kv, n, key, after, ids) && HandedOut(kv, key, after, ids)
            && Holds(after, held + Ids(ids)) && Ids(ids) !! held
  {
    NoIds(held);
    if n == 0 {
      AllocateNothing(kv, held, key);
    } else if FreeCount(Evict(kv, n).blocks) >= n {
      AllocateSomethingHandsOut(kv, held, n, key);
      AllocateSomethingAccounts(kv, held, n, key);
    } else {
      AllocateTooMuch(kv, held, n, key);
    }
  }
}
