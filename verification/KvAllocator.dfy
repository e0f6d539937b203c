/** The block allocator as it runs: fields updated in place, block by block.  Every method is
    proved to do to the fields exactly what the function of the same name in `KvCache` says. */
module KvAllocator {
  import opened KvCache
  import opened KvInvariant
  import opened KvTheory
  import opened KvPrompt
  import opened KvOperations
  import opened KvSequence
  import opened KvStats
  import KeyOrder

  /** The largest number of occupied blocks in any of these states. */
  ghost function Peak(states: seq<seq<Block>>): int {
    if states == [] then 0 else Max(Peak(states[..|states| - 1]), UsedCount(states[|states| - 1]))
  }

  /** At most one block was written. */
  ghost predicate OneWrite(a: seq<Block>, b: seq<Block>) {
    |b| == |a| && exists i: nat :: i < |a| && b == a[i := b[i]]
  }

  /** Each of these states comes from the one before it by one write, so none has been left out. */
  ghost predicate Gapless(states: seq<seq<Block>>) {
    forall k | 0 < k < |states| :: OneWrite(states[k - 1], states[k])
  }

  lemma GaplessExtends(states: seq<seq<Block>>, i: nat, x: Block)
    requires Gapless(states) && states != [] && i < |states[|states| - 1]|
    ensures Gapless(states + [states[|states| - 1][i := x]])
  {
    var last := states[|states| - 1];
    var after := states + [last[i := x]];
    assert last[i := x] == last[i := last[i := x][i]];
    forall k | 0 < k < |after|
      ensures OneWrite(after[k - 1], after[k])
    {
      if k < |states| {
        assert OneWrite(states[k - 1], states[k]);
      }
    }
  }

  lemma PeakExtends(states: seq<seq<Block>>, blocks: seq<Block>)
    ensures Peak(states + [blocks]) == Max(Peak(states), UsedCount(blocks))
  {
    assert (states + [blocks])[..|states|] == states;
  }

  lemma UsedAfterWrite(blocks: seq<Block>, i: nat, b: Block)
    requires i < |blocks|
    ensures FreeCount(blocks[i := b])
         == FreeCount(blocks) + (if b.occupied then 0 else 1) - (if blocks[i].occupied then 0 else 1)
  {
    var rest := FreeSet(blocks) - {i};
    assert FreeSet(blocks) == rest + (if blocks[i].occupied then {} else {i});
    assert FreeSet(blocks[i := b]) == rest + (if b.occupied then {} else {i});
  }

  lemma EvictNothing(kv: Kv, need: int)
    requires FreeCount(kv.blocks) >= need
    ensures Evict(kv, need) == kv
  {
    assert Victims(kv, need) == [];
    StartsFull(kv);
  }

  /** Dropping other entries does not change whether an entry is idle. */
  lemma IdleUnaffected(kv: Kv, done: seq<string>, key: string)
    requires CacheOk(kv) && KeyOrder.Ascending(done)
    requires forall k | k in done :: k in kv.prefixes
    requires key in kv.prefixes && key !in done
    ensures key in DropEntries(kv, done).prefixes && DropEntries(kv, done).prefixes[key] == kv.prefixes[key]
    ensures EntryIsIdle(DropEntries(kv, done).blocks, kv.prefixes[key]) == EntryIsIdle(kv.blocks, kv.prefixes[key])
  {
    BlocksOfSize(kv, done);
    assert EntryOk(kv, key);
  }

  lemma DropOneMore(kv: Kv, done: seq<string>, key: string)
    requires key in kv.prefixes && key !in done
    ensures var before, after := DropEntries(kv, done), DropEntries(kv, done + [key]);
            && after.blocks == Update(before.blocks, Ids(kv.prefixes[key].blockIds), Freed)
            && after.prefixes == before.prefixes - {key}
            && after.stats == before.stats.(evictions := before.stats.evictions + 1)
  {
    var before, after := DropEntries(kv, done), DropEntries(kv, done + [key]);
    assert BlocksOf(kv.prefixes, done + [key]) == BlocksOf(kv.prefixes, done) + Ids(kv.prefixes[key].blockIds);
    assert (set k | k in done + [key]) == (set k | k in done) + {key};
    assert after.blocks == Update(before.blocks, Ids(kv.prefixes[key].blockIds), Freed);
  }

  lemma AscendingAppend(keys: seq<string>, i: nat, done: seq<string>)
    requires KeyOrder.Ascending(keys) && i < |keys| && KeyOrder.Ascending(done)
    requires forall k | k in done :: k in keys[..i]
    ensures keys[i] !in done && KeyOrder.Ascending(done + [keys[i]])
    ensures forall k | k in done + [keys[i]] :: k in keys[..i + 1]
    ensures forall k | k in done :: k in keys[..i + 1]
  {
    assert keys[..i + 1] == keys[..i] + [keys[i]];
    forall j | 0 <= j < |done|
      ensures KeyOrder.Less(done[j], keys[i]) && done[j] != keys[i]
    {
      assert done[j] in keys[..i];
      KeyOrder.LessIsTotal(keys[i], keys[i]);
    }
  }

  class KvBlockAllocator {
    const tokensPerBlock: int
    var blocks: seq<Block>
    var sequences: map<string, Sequence>
    var prefixCache: map<string, PrefixEntry>
    var stats: KvCache.Stats
    /** Every value `blocks` has had, one write apart. */
    ghost var history: seq<seq<Block>>

    ghost function View(): Kv
      reads this
    {
      Kv(tokensPerBlock, blocks, sequences, prefixCache, stats)
    }

    ghost predicate Recorded()
      reads this
    {
      history != [] && history[|history| - 1] == blocks && Gapless(history)
    }

    /** The high watermark is the largest number of occupied blocks ever, transient states included: every
        method only adds to `history`. */
    ghost predicate Watermarked()
      reads this
    {
      Recorded() && stats.highWatermark == Peak(history)
    }

    ghost predicate Valid()
      reads this
    {
      Inv(View()) && Watermarked()
    }

    constructor (totalBlocks: int, perBlock: int)
      ensures Valid()
      ensures View() == Fresh(totalBlocks, perBlock)
      ensures history == [blocks]
    {
      tokensPerBlock := ClampPositive(perBlock, 1);
      blocks := seq(ClampPositive(totalBlocks, 1), _ => FREE);
      sequences := map[];
      prefixCache := map[];
      stats := KvCache.Stats.Stats(0, 0, 0, 0, 0);
      history := [seq(ClampPositive(totalBlocks, 1), _ => FREE)];
      new;
      assert forall b: nat | b < |blocks| :: Owners(sequences, b) == {};
      assert FreeSet(blocks) == Below(|blocks|);
    }

    /** The only place where a block changes. */
    method SetBlock(i: nat, b: Block)
      requires i < |blocks| && Recorded()
      modifies this`blocks, this`history
      ensures Recorded() && blocks == old(blocks)[i := b] && history == old(history) + [blocks]
      ensures Peak(history) == Max(old(Peak(history)), UsedCount(blocks))
      ensures FreeCount(blocks)
           == old(FreeCount(blocks)) + (if b.occupied then 0 else 1) - (if old(blocks[i].occupied) then 0 else 1)
    {
      hide FreeCount;
      UsedAfterWrite(blocks, i, b);
      GaplessExtends(history, i, b);
      blocks := blocks[i := b];
      PeakExtends(history, blocks);
      history := history + [blocks];
    }

    method FreeBlockCount() returns (n: nat)
      ensures n == FreeCount(blocks)
    {
      n := 0;
      assert FreeSet(blocks[..0]) == {};
      for i := 0 to |blocks|
        invariant n == |FreeSet(blocks[..i])|
      {
        assert FreeSet(blocks[..i + 1]) == FreeSet(blocks[..i]) + (if blocks[i].occupied then {} else {i});
        if !blocks[i].occupied {
          n := n + 1;
        }
      }
      assert blocks[..|blocks|] == blocks;
    }

    method UsedBlockCount() returns (n: int)
      ensures n == UsedCount(blocks)
    {
      var free := FreeBlockCount();
      n := |blocks| - free;
    }

    method PrefixEntryIsIdle(entry: PrefixEntry) returns (idle: bool)
      ensures idle == EntryIsIdle(blocks, entry)
    {
      for i := 0 to |entry.blockIds|
        invariant forall j | 0 <= j < i :: entry.blockIds[j] < |blocks| && blocks[entry.blockIds[j]].refCount == 0
      {
        var b := entry.blockIds[i];
        assert b in entry.blockIds;
        if b >= |blocks| {
          return false;
        }
        if blocks[b].refCount != 0 {
          return false;
        }
      }
      return true;
    }

    /** Frees the listed blocks; ids that name no block are skipped. */
    method FreeBlocks(ids: seq<nat>)
      requires Recorded()
      modifies this`blocks, this`history
      ensures old(history) <= history
      ensures blocks == Update(old(blocks), Ids(ids), Freed)
      ensures Recorded() && Peak(history) == old(Peak(history))
    {
      ghost var before, peak := blocks, Peak(history);
      RecordedPeak();
      for i := 0 to |ids|
        invariant |blocks| == |before|
        invariant forall b: nat | b < |blocks| :: blocks[b] == if b in ids[..i] then FREE else before[b]
        invariant old(history) <= history
        invariant Recorded() && Peak(history) == peak >= UsedCount(blocks)
      {
        if ids[i] < |blocks| {
          SetBlock(ids[i], FREE);
        }
        assert ids[..i + 1] == ids[..i] + [ids[i]];
      }
      assert ids[..|ids|] == ids;
    }

    lemma RecordedPeak()
      requires Recorded()
      ensures UsedCount(blocks) <= Peak(history)
    {
    }

    method EvictOne(key: string, ghost kv: Kv, ghost done: seq<string>)
      requires View() == DropEntries(kv, done) && CacheOk(kv) && Recorded()
      requires AllIdle(kv, done) && key in kv.prefixes && key !in done
      requires KeyOrder.Ascending(done) && KeyOrder.Ascending(done + [key])
      modifies this`blocks, this`prefixCache, this`stats, this`history
      ensures old(history) <= history
      ensures View() == DropEntries(kv, done + [key])
      ensures Recorded() && Peak(history) == old(Peak(history))
      ensures FreeCount(blocks) == old(FreeCount(blocks)) + |kv.prefixes[key].blockIds|
    {
      hide IdleKeys, BlocksOf, Gapless, CeilDiv, EntryOk;
      DropOneMore(kv, done, key);
      FreeAfterDrop(kv, done);
      FreeAfterDrop(kv, done + [key]);
      TotalAppends(kv.prefixes, done, key);
      assert EntryOk(kv, key);
      FreeBlocks(prefixCache[key].blockIds);
      prefixCache := prefixCache - {key};
      stats := stats.(evictions := stats.evictions + 1);
    }

    /** Drops idle prefixes in key order until enough blocks are free. */
    method EvictIdlePrefixesUntil(required: int)
      requires CacheOk(View()) && Recorded()
      modifies this`blocks, this`prefixCache, this`stats, this`history
      ensures old(history) <= history
      ensures View() == Evict(old(View()), required)
      ensures forall v, k | v in old(prefixCache) && v !in prefixCache
                            && k in prefixCache && EntryIsIdle(old(blocks), old(prefixCache)[k]) ::
                KeyOrder.ComesFirst(v, k)
      ensures Recorded() && Peak(history) == old(Peak(history))
    {
      hide FreeCount, EntryIsIdle, CacheOk, KeyOrder.Ascending, Peak, Gapless, DropEntries, Victims, IdleKeys, Progress,
           KeyOrder.ComesFirst;
      ghost var kv := View();
      EvictKeepsSequences(kv, required);
      IdleVictimsComeFirst(kv, required);
      ghost var done: seq<string> := [];
      var keys := KeyOrder.Sorted(prefixCache.Keys);
      var i := 0;
      StartsFull(kv);
      ProgressStarts(kv, required);
      while i < |keys|
        invariant i <= |keys|
        invariant View() == DropEntries(kv, done)
        invariant old(history) <= history
        invariant Recorded() && Peak(history) == old(Peak(history))
        invariant Progress(kv, keys, i, done, FreeCount(blocks), required)
      {
        var free := FreeBlockCount();
        if free >= required {
          break;
        }
        var key := keys[i];
        ProgressGoesOn(kv, keys, i, done, free, required);
        var idle := PrefixEntryIsIdle(prefixCache[key]);
        if idle {
          EvictOne(key, kv, done);
          done := done + [key];
        }
        i := i + 1;
      }
      ProgressEnds(kv, keys, i, done, FreeCount(blocks), required);
    }

    method EnsureFreeBlocks(count: int) returns (enough: bool)
      requires CacheOk(View()) && Recorded()
      modifies this`blocks, this`prefixCache, this`stats, this`history
      ensures old(history) <= history
      ensures View() == Evict(old(View()), count)
      ensures enough == (count <= FreeCount(blocks))
      ensures Recorded() && Peak(history) == old(Peak(history))
      ensures stats.highWatermark == old(stats.highWatermark)
    {
      hide FreeCount, Victims, Gapless;
      var free := FreeBlockCount();
      if count <= free {
        EvictNothing(View(), count);
        return true;
      }
      EvictIdlePrefixesUntil(count);
      free := FreeBlockCount();
      enough := count <= free;
    }

    /** Hands out the lowest `count` free blocks, evicting for them if need be. */
    method AllocateBlocks(count: int, key: string) returns (ids: seq<nat>)
      requires CacheOk(View()) && Watermarked()
      modifies this`blocks, this`prefixCache, this`stats, this`history
      ensures old(history) <= history
      ensures (View(), ids) == KvCache.AllocateBlocks(old(View()), count, key)
      ensures Watermarked()
    {
      hide FreeCount, Evict, Peak, Gapless;
      ids := [];
      if count <= 0 {
        return;
      }
      var enough := EnsureFreeBlocks(count);
      if !enough {
        stats := stats.(failures := stats.failures + 1);
        return;
      }
      ids := TakeLowest(count, key);
      RefreshHighWatermark();
    }

    method TakeLowest(count: nat, key: string) returns (ids: seq<nat>)
      requires Recorded()
      modifies this`blocks, this`history
      ensures old(history) <= history
      ensures ids == LowestFree(old(blocks), 0, count)
      ensures blocks == Update(old(blocks), Ids(ids), _ => Block(true, 1, key))
      ensures Recorded() && Peak(history) == Max(old(Peak(history)), UsedCount(blocks))
    {
      hide FreeCount, Peak, Gapless;
      ghost var before := blocks;
      RecordedPeak();
      ids := [];
      var index := 0;
      assert LowestFree(before, 0, count) == ids + LowestFree(before, 0, count);
      while index < |blocks| && |ids| < count
        invariant index <= |blocks| == |before|
        invariant |ids| <= count && forall b | b in ids :: b < index
        invariant LowestFree(before, 0, count) == ids + LowestFree(before, index, count - |ids|)
        invariant forall b: nat | b < |blocks| :: blocks[b] == if b in ids then Block(true, 1, key) else before[b]
        invariant old(history) <= history
        invariant Recorded() && Peak(history) == Max(old(Peak(history)), UsedCount(blocks))
        invariant UsedCount(blocks) >= UsedCount(before)
      {
        if !blocks[index].occupied {
          assert before[index] == blocks[index];
          SetBlock(index, Block(true, 1, key));
          ids := ids + [index];
        }
        index := index + 1;
      }
      assert ids == LowestFree(before, 0, count);
      assert blocks == Update(before, Ids(ids), _ => Block(true, 1, key));
    }

    method RefreshHighWatermark()
      requires Recorded() && Peak(history) == Max(stats.highWatermark, UsedCount(blocks))
      modifies this`stats
      ensures stats == old(stats).(highWatermark := Max(old(stats.highWatermark), UsedCount(blocks)))
      ensures Watermarked()
    {
      var used := UsedBlockCount();
      stats := stats.(highWatermark := Max(stats.highWatermark, used));
    }

    method RetainAll(ids: seq<nat>)
      requires Recorded() && InRange(ids, |blocks|) && Distinct(ids)
      modifies this`blocks, this`history
      ensures old(history) <= history
      ensures blocks == Update(old(blocks), Ids(ids), Retain)
      ensures Recorded() && Peak(history) == old(Peak(history))
    {
      ghost var before := blocks;
      RecordedPeak();
      for i := 0 to |ids|
        invariant |blocks| == |before|
        invariant forall b: nat | b < |blocks| :: blocks[b] == if b in ids[..i] then Retain(before[b]) else before[b]
        invariant old(history) <= history
        invariant Recorded() && Peak(history) == old(Peak(history)) >= UsedCount(blocks)
      {
        var b := ids[i];
        assert ids[..i + 1] == ids[..i] + [b] && b !in ids[..i];
        SetBlock(b, blocks[b].(refCount := blocks[b].refCount + 1));
      }
      assert ids[..|ids|] == ids;
    }

    method UnretainAll(ids: seq<nat>)
      requires Recorded() && InRange(ids, |blocks|) && Distinct(ids)
      modifies this`blocks, this`history
      ensures old(history) <= history
      ensures blocks == Update(old(blocks), Ids(ids), Unretain)
      ensures Recorded() && Peak(history) == old(Peak(history))
    {
      ghost var before := blocks;
      RecordedPeak();
      for i := 0 to |ids|
        invariant |blocks| == |before|
        invariant forall b: nat | b < |blocks| :: blocks[b] == if b in ids[..i] then Unretain(before[b]) else before[b]
        invariant old(history) <= history
        invariant Recorded() && Peak(history) == old(Peak(history)) >= UsedCount(blocks)
      {
        var b := ids[i];
        assert ids[..i + 1] == ids[..i] + [b] && b !in ids[..i];
        SetBlock(b, blocks[b].(refCount := blocks[b].refCount - 1));
      }
      assert ids[..|ids|] == ids;
    }

    method AllocatePrompt(id: string, promptTokens: int, key: string, prefixTokens: int) returns (r: Allocation)
      requires Valid()
      modifies this`blocks, this`sequences, this`prefixCache, this`stats, this`history
      ensures old(history) <= history
      ensures Valid()
      ensures (View(), r) == KvCache.AllocatePrompt(old(View()), id, promptTokens, key, prefixTokens)
      ensures PromptOutcome(old(View()), id, promptTokens, key, prefixTokens, View(), r)
      ensures var p := Max(0, promptTokens); var c := Cacheable(p, key, prefixTokens);
              r.ok ==>
                && id in sequences && JustEnough(sequences[id].prefixBlockCount, c, tokensPerBlock)
                && JustEnough(|sequences[id].blockIds| - sequences[id].prefixBlockCount, p - c, tokensPerBlock)
    {
      hide Inv, CacheOk, PromptOutcome, JustEnough, AllocateHit, AllocateMiss, FreeCount, Peak, Gapless, CeilDiv;
      AllocatePromptTheorem(View(), id, promptTokens, key, prefixTokens);
      PromptIsJustEnough(View(), id, promptTokens, key, prefixTokens);
      EntriesAreOk(View());
      if id == "" {
        return Failed("sequence id is required");
      }
      if id in sequences {
        return Failed("sequence already exists");
      }
      var prompt := Max(0, promptTokens);
      var cacheable := Cacheable(prompt, key, prefixTokens);
      var prefixCount := CeilDiv(cacheable, tokensPerBlock);
      var suffixCount := CeilDiv(prompt - cacheable, tokensPerBlock);
      if cacheable > 0 {
        if key in prefixCache && prefixCache[key].tokenCount == cacheable {
          HeldCacheIsOk(View(), key);
          r := AttachCached(id, prompt, key, prefixCount, suffixCount);
          return;
        }
        CacheIgnoresStats(View(), stats.(prefixMisses := stats.prefixMisses + 1));
        stats := stats.(prefixMisses := stats.prefixMisses + 1);
      }
      r := AttachNew(id, prompt, key, cacheable, prefixCount, suffixCount);
    }

    /** The branch of `AllocatePrompt` that shares a cached prefix. */
    method AttachCached(id: string, prompt: int, key: string, prefixCount: int, suffixCount: int) returns (r: Allocation)
      requires Watermarked() && key in prefixCache
      requires InRange(prefixCache[key].blockIds, |blocks|) && Distinct(prefixCache[key].blockIds)
      requires CacheOk(Hold(View(), key))
      modifies this`blocks, this`sequences, this`prefixCache, this`stats, this`history
      ensures old(history) <= history
      ensures Watermarked()
      ensures (View(), r) == AllocateHit(old(View()), id, prompt, key, prefixCount, suffixCount)
    {
      hide CacheOk, KvCache.AllocateBlocks, FreeCount, Peak, Gapless;
      var shared := prefixCache[key].blockIds;
      ghost var held := Hold(View(), key);
      AllocateKeepsCache(held, suffixCount, "");
      RetainAll(shared);
      assert View() == held;
      var suffix := AllocateBlocks(suffixCount, "");
      if |suffix| != suffixCount {
        UnretainAll(shared);
        return Failed("kv cache exhausted");
      }
      sequences := sequences[id := Sequence(prompt, 0, prefixCount, shared + suffix)];
      stats := stats.(prefixHits := stats.prefixHits + 1);
      return Allocation(true, true, prefixCount + suffixCount, "");
    }

    /** The branch of `AllocatePrompt` that allocates the whole prompt. */
    method AttachNew(id: string, prompt: int, key: string, cacheable: int, prefixCount: int, suffixCount: int)
      returns (r: Allocation)
      requires CacheOk(View()) && Watermarked()
      modifies this`blocks, this`sequences, this`prefixCache, this`stats, this`history
      ensures old(history) <= history
      ensures Watermarked()
      ensures (View(), r) == AllocateMiss(old(View()), id, prompt, key, cacheable, prefixCount, suffixCount)
    {
      hide KvCache.AllocateBlocks, FreeCount, Peak, Gapless;
      AllocateKeepsCache(View(), prefixCount, key);
      var prefix := AllocateBlocks(prefixCount, key);
      if |prefix| != prefixCount {
        return Failed("kv cache exhausted");
      }
      AllocateKeepsCache(View(), suffixCount, "");
      var suffix := AllocateBlocks(suffixCount, "");
      if |suffix| != suffixCount {
        FreeBlocks(prefix);
        return Failed("kv cache exhausted");
      }
      if cacheable > 0 {
        prefixCache := prefixCache[key := PrefixEntry(cacheable, prefix)];
      }
      sequences := sequences[id := Sequence(prompt, 0, prefixCount, prefix + suffix)];
      return Allocation(true, false, prefixCount + suffixCount, "");
    }

    method AppendTokens(id: string, count: int) returns (r: Allocation)
      requires Valid()
      modifies this`blocks, this`sequences, this`prefixCache, this`stats, this`history
      ensures old(history) <= history
      ensures Valid()
      ensures (View(), r) == KvCache.AppendTokens(old(View()), id, count)
      ensures AppendOutcome(old(View()), id, count, View(), r)
      ensures r.ok && count > 0 ==> forall n :: JustEnough(n, old(sequences)[id].generatedTokens, tokensPerBlock) ==>
                JustEnough(n + r.attachedBlocks, sequences[id].generatedTokens, tokensPerBlock)
    {
      hide Inv, CacheOk, AppendOutcome, JustEnough, KvCache.AllocateBlocks, FreeCount, Peak, Gapless, CeilDiv;
      AppendTokensTheorem(View(), id, count);
      GrowthIsJustEnough(View(), id, count);
      EntriesAreOk(View());
      if id !in sequences {
        return Failed("sequence does not exist");
      }
      if count <= 0 {
        return Allocation(true, false, 0, "");
      }
      var sequence := sequences[id];
      var beforeBlocks := CeilDiv(sequence.generatedTokens, tokensPerBlock);
      var afterBlocks := CeilDiv(sequence.generatedTokens + count, tokensPerBlock);
      var additional := afterBlocks - beforeBlocks;
      var ids := AllocateBlocks(additional, "");
      if |ids| != additional {
        return Failed("kv cache exhausted");
      }
      sequences := sequences[id := sequence.(generatedTokens := sequence.generatedTokens + count,
                                             blockIds := sequence.blockIds + ids)];
      return Allocation(true, false, additional, "");
    }

    method ReleaseSequence(id: string)
      requires Valid()
      modifies this`blocks, this`sequences, this`history
      ensures old(history) <= history
      ensures Valid()
      ensures View() == KvCache.ReleaseSequence(old(View()), id)
      ensures sequences == old(sequences) - {id} && prefixCache == old(prefixCache)
    {
      hide Inv, Gapless, FreeCount, Peak;
      ReleaseTheorem(View(), id);
      if id !in sequences {
        return;
      }
      ListedOnce(View(), id);
      DropAll(sequences[id].blockIds);
      sequences := sequences - {id};
    }

    method DropAll(ids: seq<nat>)
      requires Watermarked() && InRange(ids, |blocks|) && Distinct(ids)
      requires forall b | b in ids :: blocks[b].occupied
      modifies this`blocks, this`history
      ensures old(history) <= history
      ensures blocks == Update(old(blocks), Ids(ids), Dropped)
      ensures Watermarked()
    {
      ghost var before := blocks;
      RecordedPeak();
      for i := 0 to |ids|
        invariant |blocks| == |before|
        invariant forall b: nat | b < |blocks| :: blocks[b] == if b in ids[..i] then Dropped(before[b]) else before[b]
        invariant old(history) <= history
        invariant Recorded() && Peak(history) == old(Peak(history)) >= UsedCount(blocks)
      {
        var b := ids[i];
        assert ids[..i + 1] == ids[..i] + [b] && b !in ids[..i];
        var block := blocks[b];
        if block.refCount > 0 {
          block := block.(refCount := block.refCount - 1);
        }
        if block.refCount == 0 && block.prefixKey == "" {
          block := FREE;
        }
        SetBlock(b, block);
      }
      assert ids[..|ids|] == ids;
    }

    method SequenceBlockCount(id: string) returns (n: int)
      ensures n == KvCache.SequenceBlockCount(View(), id)
    {
      if id in sequences {
        n := |sequences[id].blockIds|;
      } else {
        n := 0;
      }
    }

    method Stats() returns (s: Snapshot)
      ensures s == SnapshotOf(View())
      ensures s.totalBlocks == |blocks| && s.usedBlocks == |Occupied(blocks)| && s.freeBlocks == |blocks| - |Occupied(blocks)|
      ensures s.activeSequences == |sequences| && s.cachedPrefixes == |prefixCache| && s.stats == stats
    {
      UsedIsOccupied(blocks);
      var used := UsedBlockCount();
      var free := FreeBlockCount();
      s := Snapshot(|blocks|, used, free, |sequences|, |prefixCache|, stats);
    }
  }

  /** An accepted prompt gets just enough blocks for its cacheable tokens and for the others. */
  lemma PromptIsJustEnough(kv: Kv, id: string, promptTokens: int, key: string, prefixTokens: int)
    requires Inv(kv)
    ensures kv.tokensPerBlock > 0
    ensures var (after, r) := KvCache.AllocatePrompt(kv, id, promptTokens, key, prefixTokens);
            var p := Max(0, promptTokens); var c := Cacheable(p, key, prefixTokens);
            r.ok ==>
              && id in after.sequences && JustEnough(after.sequences[id].prefixBlockCount, c, kv.tokensPerBlock)
              && JustEnough(|after.sequences[id].blockIds| - after.sequences[id].prefixBlockCount, p - c, kv.tokensPerBlock)
  {
    hide Inv, KvCache.AllocatePrompt, CeilDiv, JustEnough, PromptAccepted, Undone, PromptVictims, OverwritesPrefix, IsHit;
    AllocatePromptTheorem(kv, id, promptTokens, key, prefixTokens);
    var p := Max(0, promptTokens); var c := Cacheable(p, key, prefixTokens);
    CeilDivIsJustEnough(c, kv.tokensPerBlock);
    CeilDivIsJustEnough(p - c, kv.tokensPerBlock);
  }

  /** An accepted append attaches just the blocks that the new total lacks. */
  lemma GrowthIsJustEnough(kv: Kv, id: string, count: int)
    requires Inv(kv)
    ensures kv.tokensPerBlock > 0
    ensures var (after, r) := KvCache.AppendTokens(kv, id, count);
            r.ok && count > 0 ==>
              && id in kv.sequences && id in after.sequences
              && forall n :: JustEnough(n, kv.sequences[id].generatedTokens, kv.tokensPerBlock) ==>
                   JustEnough(n + r.attachedBlocks, after.sequences[id].generatedTokens, kv.tokensPerBlock)
  {
    hide Inv, KvCache.AppendTokens, CeilDiv, JustEnough, Undone;
    AppendTokensTheorem(kv, id, count);
    if id in kv.sequences && count > 0 {
      var g := kv.sequences[id].generatedTokens;
      CeilDivIsJustEnough(g + count, kv.tokensPerBlock);
      CeilDivIsJustEnough(g, kv.tokensPerBlock);
      forall n | JustEnough(n, g, kv.tokensPerBlock)
        ensures n == CeilDiv(g, kv.tokensPerBlock)
      {
        JustEnoughIsUnique(n, CeilDiv(g, kv.tokensPerBlock), g, kv.tokensPerBlock);
      }
    }
  }

  lemma HeldCacheIsOk(kv: Kv, key: string)
    requires Inv(kv) && key in kv.prefixes
    ensures InRange(kv.prefixes[key].blockIds, |kv.blocks|) && Distinct(kv.prefixes[key].blockIds)
    ensures CacheOk(Hold(kv, key))
  {
    HoldKeepsInvariant(kv, key);
    assert EntryOk(kv, key);
  }

  lemma ListedOnce(kv: Kv, id: string)
    requires Inv(kv) && id in kv.sequences
    ensures InRange(kv.sequences[id].blockIds, |kv.blocks|) && Distinct(kv.sequences[id].blockIds)
    ensures forall b | b in kv.sequences[id].blockIds :: kv.blocks[b].occupied
  {
    assert SequenceOk(kv, id);
    forall b | b in kv.sequences[id].blockIds
      ensures kv.blocks[b].occupied
    {
      OwnedIsReferenced(kv, {}, id, b);
    }
  }

  lemma CacheIgnoresStats(kv: Kv, stats: KvCache.Stats)
    requires CacheOk(kv)
    ensures CacheOk(kv.(stats := stats))
  {
    assert forall k | k in kv.prefixes :: EntryOk(kv, k) == EntryOk(kv.(stats := stats), k);
  }

  /** Allocation keeps every remaining cached prefix intact and returns ids of existing blocks. */
  lemma AllocateKeepsCache(kv: Kv, n: int, key: string)
    requires CacheOk(kv)
    ensures var (after, ids) := KvCache.AllocateBlocks(kv, n, key);
            CacheOk(after) && InRange(ids, |kv.blocks|) && |after.blocks| == |kv.blocks|
  {
    hide Distinct, FreeCount, IdleKeys;
    var roomy := Evict(kv, n);
    VictimsSpec(kv, n);
    FreeAfterDrop(kv, Victims(kv, n));
    if n > 0 && FreeCount(roomy.blocks) >= n {
      var ids := LowestFree(roomy.blocks, 0, n);
      LowestFreeSpec(roomy.blocks, 0, n);
      forall k | k in roomy.prefixes
        ensures EntryOk(Occupy(roomy, ids, key), k)
      {
        assert EntryOk(roomy, k);
        assert forall b | b in roomy.prefixes[k].blockIds :: b !in Ids(ids);
      }
      assert forall i | 0 <= i < |ids| :: ids[i] in Ids(ids);
    } else {
      forall k | k in roomy.prefixes
        ensures EntryOk(KvCache.AllocateBlocks(kv, n, key).0, k)
      {
        assert EntryOk(roomy, k) && (n <= 0 ==> EntryOk(kv, k));
      }
    }
  }

  /** The idle entries from position `i` on. */
  ghost function IdleAmongRest(kv: Kv, keys: seq<string>, i: nat): (r: seq<string>)
    requires i <= |keys| && forall k | k in keys :: k in kv.prefixes
    ensures forall k | k in r :: k in kv.prefixes
  {
    IdleKeysAreCached(kv, keys[i..]);
    IdleAmong(kv, keys[i..])
  }

  lemma RestSplits(kv: Kv, keys: seq<string>, i: nat)
    requires i < |keys| && forall k | k in keys :: k in kv.prefixes
    ensures IdleAmongRest(kv, keys, i)
         == (if EntryIsIdle(kv.blocks, kv.prefixes[keys[i]]) then [keys[i]] else []) + IdleAmongRest(kv, keys, i + 1)
  {
    assert keys[i..][1..] == keys[i + 1..];
  }

  /** The victims still to come, before and after looking at the entry at position `i`. */
  lemma VictimsStep(kv: Kv, keys: seq<string>, i: nat, done: seq<string>, free: int, need: int)
    requires i < |keys| && free < need && forall k | k in keys :: k in kv.prefixes
    ensures var ahead := done + Run(kv.prefixes, IdleAmongRest(kv, keys, i), free, need);
            var entry := kv.prefixes[keys[i]];
            if EntryIsIdle(kv.blocks, entry)
            then ahead == done + [keys[i]] + Run(kv.prefixes, IdleAmongRest(kv, keys, i + 1), free + |entry.blockIds|, need)
            else ahead == done + Run(kv.prefixes, IdleAmongRest(kv, keys, i + 1), free, need)
  {
    RestSplits(kv, keys, i);
    var rest := IdleAmongRest(kv, keys, i + 1);
    assert ([keys[i]] + rest)[1..] == rest;
    assert [] + rest == rest;
  }

  lemma IdleVictimsComeFirst(kv: Kv, need: int)
    ensures forall v, k | v in Victims(kv, need) && k in kv.prefixes && k !in Victims(kv, need)
                          && EntryIsIdle(kv.blocks, kv.prefixes[k]) :: KeyOrder.ComesFirst(v, k)
  {
    hide Victims, KeyOrder.ComesFirst;
    VictimsComeFirst(kv, need);
  }

  /** Eviction has looked at the first `i` keys and dropped `done`; the victims still to come follow. */
  ghost predicate Progress(kv: Kv, keys: seq<string>, i: nat, done: seq<string>, free: int, need: int) {
    && CacheOk(kv) && KeyOrder.Ascending(keys) && i <= |keys| && (forall k | k in keys :: k in kv.prefixes)
    && KeyOrder.Ascending(done) && AllIdle(kv, done) && (forall k | k in done :: k in keys[..i])
    && Victims(kv, need) == done + Run(kv.prefixes, IdleAmongRest(kv, keys, i), free, need)
  }

  lemma ProgressStarts(kv: Kv, need: int)
    requires CacheOk(kv)
    ensures Progress(kv, KeyOrder.Sorted(kv.prefixes.Keys), 0, [], FreeCount(kv.blocks), need)
  {
    hide CacheOk, Run, Victims, FreeCount, IdleAmongRest;
    AllAhead(kv, need);
  }

  lemma ProgressGoesOn(kv: Kv, keys: seq<string>, i: nat, done: seq<string>, free: int, need: int)
    requires Progress(kv, keys, i, done, free, need) && i < |keys| && free < need
    ensures var key, dropped := keys[i], DropEntries(kv, done);
            && key in kv.prefixes && key !in done && CacheOk(kv) && AllIdle(kv, done)
            && KeyOrder.Ascending(done) && KeyOrder.Ascending(done + [key])
            && key in dropped.prefixes && dropped.prefixes[key] == kv.prefixes[key]
            && (if EntryIsIdle(dropped.blocks, kv.prefixes[key])
                then Progress(kv, keys, i + 1, done + [key], free + |kv.prefixes[key].blockIds|, need)
                else Progress(kv, keys, i + 1, done, free, need))
  {
    hide CacheOk, Run, Victims, FreeCount, IdleAmongRest, KeyOrder.Ascending, EntryIsIdle, DropEntries;
    AscendingAppend(keys, i, done);
    IdleUnaffected(kv, done, keys[i]);
    VictimsStep(kv, keys, i, done, free, need);
  }

  lemma ProgressEnds(kv: Kv, keys: seq<string>, i: nat, done: seq<string>, free: int, need: int)
    requires Progress(kv, keys, i, done, free, need) && (free >= need || i == |keys|)
    ensures done == Victims(kv, need)
  {
    hide CacheOk, Run, Victims, KeyOrder.Ascending, IdleAmongRest;
    NoneAhead(kv, keys, i, free, need);
    assert done + [] == done;
  }

  lemma AllAhead(kv: Kv, need: int)
    ensures KeyOrder.Ascending([]) && KeyOrder.Ascending(KeyOrder.Sorted(kv.prefixes.Keys))
    ensures var keys := KeyOrder.Sorted(kv.prefixes.Keys);
            Victims(kv, need) == [] + Run(kv.prefixes, IdleAmongRest(kv, keys, 0), FreeCount(kv.blocks), need)
  {
    var keys := KeyOrder.Sorted(kv.prefixes.Keys);
    assert keys[0..] == keys;
  }

  lemma NoneAhead(kv: Kv, keys: seq<string>, i: nat, free: int, need: int)
    requires i <= |keys| && forall k | k in keys :: k in kv.prefixes
    requires free >= need || i == |keys|
    ensures Run(kv.prefixes, IdleAmongRest(kv, keys, i), free, need) == []
  {
  }

  lemma StartsFull(kv: Kv)
    ensures DropEntries(kv, []) == kv
  {
    assert BlocksOf(kv.prefixes, []) == {};
    assert Update(kv.blocks, {}, Freed) == kv.blocks;
    assert DropEntries(kv, []).prefixes == kv.prefixes;
  }

  lemma {:induction false} TotalAppends(prefixes: map<string, PrefixEntry>, done: seq<string>, key: string)
    requires key in prefixes
    ensures TotalBlocks(prefixes, done + [key]) == TotalBlocks(prefixes, done) + |prefixes[key].blockIds|
  {
    if done != [] {
      TotalAppends(prefixes, done[1..], key);
      assert (done + [key])[1..] == done[1..] + [key];
    } else {
      assert done + [key] == [key] && [key][1..] == [];
    }
  }
}
