/** The allocator's running counters: what each call adds to them. */
module KvStats {
  import opened KvCache
  import opened KvInvariant
  import opened KvTheory
  import opened KvSequence
  import KeyOrder

  /** The occupied blocks. */
  ghost function Occupied(blocks: seq<Block>): set<nat> {
    set b: nat | b < |blocks| && blocks[b].occupied
  }

  lemma UsedIsOccupied(blocks: seq<Block>)
    ensures UsedCount(blocks) == |Occupied(blocks)|
  {
    var all := Below(|blocks|);
    assert all == FreeSet(blocks) + Occupied(blocks);
  }

  /** What eviction and allocation add: an eviction for every prefix that goes, a failure when the blocks are
      not handed out, and never a hit or a miss. */
  ghost predicate Counted(before: Stats, after: Stats, gone: int, failed: bool) {
    && after.prefixHits == before.prefixHits && after.prefixMisses == before.prefixMisses
    && after.evictions == before.evictions + gone
    && after.failures == before.failures + (if failed then 1 else 0)
  }

  lemma {:induction false} AscendingSize(keys: seq<string>)
    requires KeyOrder.Ascending(keys)
    ensures |set k | k in keys| == |keys|
  {
    hide KeyOrder.Less;
    if keys == [] {
      assert (set k | k in keys) == {};
    } else {
      var n := |keys| - 1;
      AscendingSize(keys[..n]);
      forall i | 0 <= i < n
        ensures keys[i] != keys[n]
      {
        KeyOrder.AscendingIsDistinct(keys, i, n);
      }
      assert keys == keys[..n] + [keys[n]];
      assert (set k | k in keys) == (set k | k in keys[..n]) + {keys[n]};
    }
  }

  lemma DropCounts(prefixes: map<string, PrefixEntry>, keys: seq<string>)
    requires KeyOrder.Ascending(keys) && forall k | k in keys :: k in prefixes
    ensures |prefixes - (set k | k in keys)| == |prefixes| - |keys|
  {
    hide KeyOrder.Ascending;
    AscendingSize(keys);
    var gone := set k | k in keys;
    assert (prefixes - gone).Keys == prefixes.Keys - gone;
    MapSize(prefixes);
    MapSize(prefixes - gone);
  }

  lemma MapSize(m: map<string, PrefixEntry>)
    ensures |m| == |m.Keys|
  {
  }

  lemma AllocateCounts(kv: Kv, n: int, key: string)
    ensures var (after, ids) := AllocateBlocks(kv, n, key);
            && Counted(kv.stats, after.stats, |kv.prefixes| - |after.prefixes|, n > 0 && |ids| != n)
            && (|ids| != n ==> ids == [])
            && (n <= 0 ==> after == kv && ids == [])
  {
    hide Victims, IdleKeys, FreeCount;
    VictimsSpec(kv, n);
    DropCounts(kv.prefixes, Victims(kv, n));
    if n > 0 && FreeCount(Evict(kv, n).blocks) >= n {
      LowestFreeSpec(Evict(kv, n).blocks, 0, n);
      FreeFromStart(Evict(kv, n).blocks);
    }
  }

  lemma FreeFromStart(blocks: seq<Block>)
    ensures |FreeFrom(blocks, 0)| == FreeCount(blocks)
  {
    assert FreeFrom(blocks, 0) == FreeSet(blocks);
  }

  lemma HitCounts(kv: Kv, id: string, prompt: int, key: string, p: int, s: int)
    requires key in kv.prefixes
    ensures var (after, r) := AllocateHit(kv, id, prompt, key, p, s);
            && (r.cacheHit <==> r.ok) && r.message == (if r.ok then "" else "kv cache exhausted")
            && after.stats.prefixHits == kv.stats.prefixHits + (if r.ok then 1 else 0)
            && after.stats.prefixMisses == kv.stats.prefixMisses
            && (s >= 0 ==> after.stats.failures == kv.stats.failures + (if r.ok then 0 else 1))
            && after.stats.evictions == kv.stats.evictions + |kv.prefixes| - |after.prefixes|
  {
    hide AllocateBlocks, Update;
    AllocateCounts(Hold(kv, key), s, "");
  }

  lemma MissCounts(kv: Kv, id: string, prompt: int, key: string, cacheable: int, p: int, s: int)
    requires p >= 0 && s >= 0
    ensures var (after, r) := AllocateMiss(kv, id, prompt, key, cacheable, p, s);
            && !r.cacheHit && r.message == (if r.ok then "" else "kv cache exhausted")
            && after.stats.prefixHits == kv.stats.prefixHits && after.stats.prefixMisses == kv.stats.prefixMisses
            && after.stats.failures == kv.stats.failures + (if r.ok then 0 else 1)
            && (!r.ok ==> after.stats.evictions == kv.stats.evictions + |kv.prefixes| - |after.prefixes|)
  {
    hide AllocateBlocks, Update;
    AllocateCounts(kv, p, key);
    AllocateCounts(AllocateBlocks(kv, p, key).0, s, "");
  }

  /** What a prompt adds: a hit when it shares a cached prefix and succeeds, a miss when it has cacheable tokens and
      does not find them cached, a failure when its blocks do not fit. */
  lemma PromptCounts(kv: Kv, id: string, promptTokens: int, key: string, prefixTokens: int)
    requires kv.tokensPerBlock > 0
    ensures var (after, r) := AllocatePrompt(kv, id, promptTokens, key, prefixTokens);
            var c := Cacheable(Max(0, promptTokens), key, prefixTokens);
            var unknown := id != "" && id !in kv.sequences;
            var cached := key in kv.prefixes && kv.prefixes[key].tokenCount == c;
            && after.stats.prefixHits == kv.stats.prefixHits + (if r.cacheHit then 1 else 0)
            && (r.cacheHit <==> r.ok && c > 0 && cached)
            && after.stats.prefixMisses == kv.stats.prefixMisses + (if unknown && c > 0 && !cached then 1 else 0)
            && after.stats.failures == kv.stats.failures + (if unknown && !r.ok then 1 else 0)
            && (!r.ok ==> r.message == if id == "" then "sequence id is required"
                                       else if id in kv.sequences then "sequence already exists" else "kv cache exhausted")
            && (r.ok ==> r.message == "")
            && (!r.ok ==> after.stats.evictions == kv.stats.evictions + |kv.prefixes| - |after.prefixes|)
  {
    hide AllocateHit, AllocateMiss, PrefixBlocks, SuffixBlocks;
    var prompt := Max(0, promptTokens);
    var c := Cacheable(prompt, key, prefixTokens);
    var p := PrefixBlocks(kv.tokensPerBlock, prompt, key, prefixTokens);
    var s := SuffixBlocks(kv.tokensPerBlock, prompt, key, prefixTokens);
    if IsHit(kv, c, key) {
      HitCounts(kv, id, prompt, key, p, s);
    } else {
      var missed := if c > 0 then kv.(stats := kv.stats.(prefixMisses := kv.stats.prefixMisses + 1)) else kv;
      MissCounts(missed, id, prompt, key, c, p, s);
    }
  }

  /** An append and a release add no hit and no miss; an append that fails counts one failure. */
  lemma AppendCounts(kv: Kv, id: string, count: int)
    requires Inv(kv)
    ensures kv.tokensPerBlock > 0
    ensures var (after, r) := AppendTokens(kv, id, count);
            && Counted(kv.stats, after.stats, |kv.prefixes| - |after.prefixes|, id in kv.sequences && !r.ok)
            && (!r.ok ==> r.message == if id in kv.sequences then "kv cache exhausted" else "sequence does not exist")
            && (r.ok ==> r.message == "" && (count <= 0 ==> r.attachedBlocks == 0)) && !r.cacheHit
            && ReleaseSequence(kv, id).stats == kv.stats
  {
    hide AllocateBlocks, GrowthBlocks, Update;
    assert kv.tokensPerBlock > 0;
    if id in kv.sequences && count > 0 {
      GrowthIsNatural(kv, id, count);
      AllocateCounts(kv, GrowthBlocks(kv.tokensPerBlock, kv.sequences[id].generatedTokens, count), "");
    }
  }
}
