/** Who owns which block: the allocator's representation invariant, and eviction under it. */
module KvInvariant {
  import opened KvCache
  import KeyOrder

  /** The live sequences that list block `b`. */
  ghost function Owners(sequences: map<string, Sequence>, b: nat): set<string> {
    set id | id in sequences && b in sequences[id].blockIds
  }

  /** A block's reference count is the number of sequences listing it, plus one while an unfinished
      allocation holds it; only prefix blocks are shared; a block is occupied exactly while it is
      referenced or carries a prefix key. */
  ghost predicate BlockOk(kv: Kv, held: set<nat>, b: nat)
    requires b < |kv.blocks|
  {
    var block := kv.blocks[b];
    && block.refCount == |Owners(kv.sequences, b)| + (if b in held then 1 else 0)
    && (block.occupied <==> block.refCount > 0 || block.prefixKey != "")
    && (block.prefixKey == "" ==> block.refCount <= 1)
  }

  /** A sequence's first `prefixBlockCount` blocks are exactly the ones carrying a prefix key. */
  ghost predicate SequenceOk(kv: Kv, id: string)
    requires id in kv.sequences
  {
    var s := kv.sequences[id];
    && id != ""
    && 0 <= s.prefixBlockCount <= |s.blockIds|
    && 0 <= s.generatedTokens
    && Distinct(s.blockIds)
    && InRange(s.blockIds, |kv.blocks|)
    && forall i | 0 <= i < |s.blockIds| :: kv.blocks[s.blockIds[i]].prefixKey != "" <==> i < s.prefixBlockCount
  }

  /** An entry's blocks are resident and carry its key, so two entries never share a block. */
  ghost predicate EntryOk(kv: Kv, key: string)
    requires key in kv.prefixes
  {
    var e := kv.prefixes[key];
    && key != ""
    && kv.tokensPerBlock > 0
    && e.tokenCount > 0
    && |e.blockIds| == CeilDiv(e.tokenCount, kv.tokensPerBlock)
    && Distinct(e.blockIds)
    && InRange(e.blockIds, |kv.blocks|)
    && forall b | b in e.blockIds :: kv.blocks[b].occupied && kv.blocks[b].prefixKey == key
  }

  /** A sequence uses a cached prefix as a whole or not at all. */
  ghost predicate SharesWhole(s: Sequence, e: PrefixEntry) {
    || (s.prefixBlockCount <= |s.blockIds| && 0 <= s.prefixBlockCount && s.blockIds[..s.prefixBlockCount] == e.blockIds)
    || Ids(s.blockIds) !! Ids(e.blockIds)
  }

  ghost predicate CacheOk(kv: Kv) {
    forall key | key in kv.prefixes :: EntryOk(kv, key)
  }

  ghost predicate Holds(kv: Kv, held: set<nat>) {
    && kv.tokensPerBlock > 0
    && CacheOk(kv)
    && (forall id | id in kv.sequences :: SequenceOk(kv, id))
    && (forall b: nat | b < |kv.blocks| :: BlockOk(kv, held, b))
    && (forall id, key | id in kv.sequences && key in kv.prefixes :: SharesWhole(kv.sequences[id], kv.prefixes[key]))
    && (forall key | key in kv.prefixes :: Ids(kv.prefixes[key].blockIds) <= held || Ids(kv.prefixes[key].blockIds) !! held)
    && (forall b | b in held :: b < |kv.blocks|)
  }

  /** The allocator's invariant between operations. */
  ghost predicate Inv(kv: Kv) {
    Holds(kv, {})
  }

  ghost predicate IsCached(kv: Kv, b: nat)
    requires b < |kv.blocks|
  {
    kv.blocks[b].prefixKey in kv.prefixes && b in kv.prefixes[kv.blocks[b].prefixKey].blockIds
  }

  ghost function Referenced(kv: Kv): set<nat> {
    set b: nat | b < |kv.blocks| && kv.blocks[b].refCount > 0
  }

  /** Blocks that carry a prefix key but belong to no cached prefix: nothing will ever free them. */
  ghost function Orphans(kv: Kv): set<nat> {
    set b: nat | b < |kv.blocks| && kv.blocks[b].prefixKey != "" && !IsCached(kv, b)
  }

  ghost function CachedBlocks(kv: Kv): set<nat> {
    set b: nat | b < |kv.blocks| && IsCached(kv, b)
  }

  /** Blocks no eviction can free. */
  ghost function Pinned(kv: Kv): set<nat> {
    Referenced(kv) + Orphans(kv)
  }

  lemma OwnedIsReferenced(kv: Kv, held: set<nat>, id: string, b: nat)
    requires Holds(kv, held) && id in kv.sequences && b in kv.sequences[id].blockIds
    ensures b < |kv.blocks| && kv.blocks[b].refCount > 0 && kv.blocks[b].occupied
  {
    assert SequenceOk(kv, id);
    assert id in Owners(kv.sequences, b);
    assert BlockOk(kv, held, b);
  }

  /** All blocks of one cached prefix share one reference count. */
  lemma EntrySharesOneRefCount(kv: Kv, held: set<nat>, key: string, b: nat, c: nat)
    requires Holds(kv, held) && key in kv.prefixes
    requires b in kv.prefixes[key].blockIds && c in kv.prefixes[key].blockIds
    ensures b < |kv.blocks| && c < |kv.blocks| && kv.blocks[b].refCount == kv.blocks[c].refCount
  {
    var e := kv.prefixes[key];
    assert EntryOk(kv, key) && BlockOk(kv, held, b) && BlockOk(kv, held, c);
    assert b in Ids(e.blockIds) && c in Ids(e.blockIds);
    forall id | id in kv.sequences
      ensures b in kv.sequences[id].blockIds <==> c in kv.sequences[id].blockIds
    {
      var s := kv.sequences[id];
      assert SharesWhole(s, e);
      if Ids(s.blockIds) !! Ids(e.blockIds) {
        assert b in s.blockIds ==> b in Ids(s.blockIds);
        assert c in s.blockIds ==> c in Ids(s.blockIds);
      }
    }
    assert Owners(kv.sequences, b) == Owners(kv.sequences, c);
  }

  /** A block that is neither free nor pinned belongs to an idle prefix. */
  lemma UnpinnedIsIdle(kv: Kv, held: set<nat>, b: nat)
    requires Holds(kv, held) && b < |kv.blocks| && kv.blocks[b].occupied && b !in Pinned(kv)
    ensures IsCached(kv, b) && EntryIsIdle(kv.blocks, kv.prefixes[kv.blocks[b].prefixKey])
  {
    assert BlockOk(kv, held, b);
    assert IsCached(kv, b);
    var key := kv.blocks[b].prefixKey;
    forall c | c in kv.prefixes[key].blockIds
      ensures c < |kv.blocks| && kv.blocks[c].refCount == 0
    {
      EntrySharesOneRefCount(kv, held, key, b, c);
    }
  }

  lemma FreeAndPinnedAreDisjoint(kv: Kv, held: set<nat>)
    requires Holds(kv, held)
    ensures FreeSet(kv.blocks) !! Pinned(kv)
    ensures FreeCount(kv.blocks) + |Pinned(kv)| <= |kv.blocks|
  {
    forall b | b in Pinned(kv)
      ensures kv.blocks[b].occupied
    {
      assert BlockOk(kv, held, b);
    }
    BoundedSize(FreeSet(kv.blocks) + Pinned(kv), |kv.blocks|);
  }

  ghost function Below(n: nat): (s: set<nat>)
    ensures forall b: nat :: b in s <==> b < n
    ensures |s| == n
  {
    if n == 0 then {} else Below(n - 1) + {n - 1}
  }

  lemma SubsetSize<T>(a: set<T>, b: set<T>)
    requires a <= b
    ensures |a| <= |b|
    ensures |a| == |b| ==> a == b
  {
    assert b == a + (b - a);
  }

  lemma BoundedSize(s: set<nat>, n: nat)
    requires forall b | b in s :: b < n
    ensures |s| <= n
  {
    SubsetSize(s, Below(n));
  }

  // -------------------------------------------------------------- eviction

  ghost function TotalBlocks(prefixes: map<string, PrefixEntry>, keys: seq<string>): nat {
    if keys == [] then 0
    else (if keys[0] in prefixes then |prefixes[keys[0]].blockIds| else 0) + TotalBlocks(prefixes, keys[1..])
  }

  /** The run is shortest: dropping its last key would leave too few free blocks, and it stops
      short of the need only when it holds every key. */
  lemma {:induction false} RunIsShortest(prefixes: map<string, PrefixEntry>, keys: seq<string>, free: int, need: int)
    requires forall k | k in keys :: k in prefixes
    ensures var run := Run(prefixes, keys, free, need);
            && run <= keys
            && (free + TotalBlocks(prefixes, run) >= need || run == keys)
            && (run != [] ==> free + TotalBlocks(prefixes, run[..|run| - 1]) < need)
  {
    if free < need && keys != [] {
      var size := |prefixes[keys[0]].blockIds|;
      RunIsShortest(prefixes, keys[1..], free + size, need);
      var rest := Run(prefixes, keys[1..], free + size, need);
      var run := Run(prefixes, keys, free, need);
      assert run == [keys[0]] + rest && run[1..] == rest;
      if rest != [] {
        assert run[..|run| - 1] == [keys[0]] + rest[..|rest| - 1];
        assert run[..|run| - 1][1..] == rest[..|rest| - 1];
      } else {
        assert run[..|run| - 1] == [];
      }
    }
  }

  lemma {:induction false} DistinctSize(ids: seq<nat>)
    requires Distinct(ids)
    ensures |Ids(ids)| == |ids|
  {
    if ids != [] {
      var init, last := ids[..|ids| - 1], ids[|ids| - 1];
      DistinctSize(init);
      assert ids == init + [last];
      assert Ids(ids) == Ids(init) + {last};
      assert last !in Ids(init);
    } else {
      assert Ids(ids) == {};
    }
  }

  lemma {:induction false} BlocksOfSize(kv: Kv, keys: seq<string>)
    requires CacheOk(kv)
    requires forall k | k in keys :: k in kv.prefixes
    requires KeyOrder.Ascending(keys)
    ensures |BlocksOf(kv.prefixes, keys)| == TotalBlocks(kv.prefixes, keys)
    ensures forall b | b in BlocksOf(kv.prefixes, keys) ::
              b < |kv.blocks| && kv.blocks[b].occupied && kv.blocks[b].prefixKey in keys
  {
    if keys == [] {
      assert BlocksOf(kv.prefixes, keys) == {};
    } else {
      var first, rest := keys[0], keys[1..];
      assert EntryOk(kv, first);
      BlocksOfSize(kv, rest);
      DistinctSize(kv.prefixes[first].blockIds);
      assert keys == [first] + rest;
      assert BlocksOf(kv.prefixes, keys) == Ids(kv.prefixes[first].blockIds) + BlocksOf(kv.prefixes, rest);
      if first in rest {
        var j :| 0 <= j < |rest| && rest[j] == first;
        KeyOrder.AscendingIsDistinct(keys, 0, j + 1);
      }
      assert Ids(kv.prefixes[first].blockIds) !! BlocksOf(kv.prefixes, rest);
    }
  }

  lemma CacheAfterDrop(kv: Kv, keys: seq<string>)
    requires CacheOk(kv)
    requires forall b | b in BlocksOf(kv.prefixes, keys) :: b < |kv.blocks| && kv.blocks[b].prefixKey in keys
    ensures CacheOk(DropEntries(kv, keys))
  {
    hide BlocksOf, CeilDiv;
    var after := DropEntries(kv, keys);
    forall key | key in after.prefixes
      ensures EntryOk(after, key)
    {
      assert EntryOk(kv, key);
      assert forall b | b in after.prefixes[key].blockIds :: b !in BlocksOf(kv.prefixes, keys);
    }
  }

  lemma FreeAfterDrop(kv: Kv, keys: seq<string>)
    requires CacheOk(kv)
    requires forall k | k in keys :: k in kv.prefixes
    requires KeyOrder.Ascending(keys)
    ensures CacheOk(DropEntries(kv, keys))
    ensures FreeCount(DropEntries(kv, keys).blocks) == FreeCount(kv.blocks) + TotalBlocks(kv.prefixes, keys)
  {
    hide BlocksOf, CacheOk, TotalBlocks;
    BlocksOfSize(kv, keys);
    CacheAfterDrop(kv, keys);
    assert FreeSet(DropEntries(kv, keys).blocks) == FreeSet(kv.blocks) + BlocksOf(kv.prefixes, keys);
  }

  ghost predicate AllIdle(kv: Kv, keys: seq<string>) {
    forall k | k in keys :: k in kv.prefixes && EntryIsIdle(kv.blocks, kv.prefixes[k])
  }

  lemma DropKeepsPins(kv: Kv, held: set<nat>, keys: seq<string>)
    requires Holds(kv, held) && KeyOrder.Ascending(keys) && AllIdle(kv, keys)
    ensures var after := DropEntries(kv, keys);
            && (forall b: nat | b < |kv.blocks| :: after.blocks[b].refCount == kv.blocks[b].refCount)
            && (forall b | b in Pinned(kv) :: after.blocks[b] == kv.blocks[b])
            && Referenced(after) == Referenced(kv) && Orphans(after) == Orphans(kv)
  {
    hide BlockOk, CeilDiv;
    var gone := BlocksOf(kv.prefixes, keys);
    var after := DropEntries(kv, keys);
    BlocksOfSize(kv, keys);
    assert forall b | b in gone :: kv.blocks[b].refCount == 0 && IsCached(kv, b);
    assert gone !! Pinned(kv);
    forall b: nat | b < |kv.blocks| && b !in gone && kv.blocks[b].prefixKey != ""
      ensures IsCached(after, b) == IsCached(kv, b)
    {
    }
  }

  /** Dropping idle prefixes touches no referenced block and keeps the invariant. */
  lemma DropIsSafe(kv: Kv, held: set<nat>, keys: seq<string>)
    requires Holds(kv, held) && KeyOrder.Ascending(keys) && AllIdle(kv, keys)
    ensures Holds(DropEntries(kv, keys), held)
  {
    hide CacheOk, Distinct, Ids, SharesWhole;
    var gone := BlocksOf(kv.prefixes, keys);
    var after := DropEntries(kv, keys);
    BlocksOfSize(kv, keys);
    FreeAfterDrop(kv, keys);
    assert forall b | b in gone :: kv.blocks[b].refCount == 0;
    forall b: nat | b < |kv.blocks|
      ensures BlockOk(after, held, b)
    {
      assert BlockOk(kv, held, b);
    }
    forall id | id in after.sequences
      ensures SequenceOk(after, id)
    {
      assert SequenceOk(kv, id);
      forall b | b in kv.sequences[id].blockIds
        ensures b !in gone
      {
        OwnedIsReferenced(kv, held, id, b);
      }
    }
    forall id, key | id in after.sequences && key in after.prefixes
      ensures SharesWhole(after.sequences[id], after.prefixes[key])
    {
      assert SharesWhole(kv.sequences[id], kv.prefixes[key]);
    }
  }

  lemma {:induction false} IdleAmongAscends(kv: Kv, keys: seq<string>)
    requires KeyOrder.Ascending(keys)
    requires forall k | k in keys :: k in kv.prefixes
    ensures KeyOrder.Ascending(IdleAmong(kv, keys))
  {
    if keys != [] {
      IdleAmongAscends(kv, keys[1..]);
      IdleKeysAreCached(kv, keys[1..]);
      var rest := IdleAmong(kv, keys[1..]);
      forall j | 0 <= j < |rest|
        ensures KeyOrder.Less(keys[0], rest[j])
      {
        assert rest[j] in keys[1..];
      }
    }
  }

  lemma IdleKeysSpec(kv: Kv)
    ensures KeyOrder.Ascending(IdleKeys(kv))
    ensures forall k :: k in IdleKeys(kv) <==> k in kv.prefixes && EntryIsIdle(kv.blocks, kv.prefixes[k])
  {
    IdleAmongAscends(kv, KeyOrder.Sorted(kv.prefixes.Keys));
    IdleKeysAreCached(kv, KeyOrder.Sorted(kv.prefixes.Keys));
  }

  lemma VictimsSpec(kv: Kv, need: int)
    ensures Victims(kv, need) <= IdleKeys(kv)
    ensures KeyOrder.Ascending(Victims(kv, need))
    ensures AllIdle(kv, Victims(kv, need))
  {
    IdleKeysSpec(kv);
    RunIsShortest(kv.prefixes, IdleKeys(kv), FreeCount(kv.blocks), need);
  }

  /** With no idle prefix left, every block is free or pinned. */
  lemma NothingLeftToEvict(kv: Kv, held: set<nat>)
    requires Holds(kv, held)
    requires forall key | key in kv.prefixes :: !EntryIsIdle(kv.blocks, kv.prefixes[key])
    ensures FreeCount(kv.blocks) + |Pinned(kv)| == |kv.blocks|
  {
    forall b: nat | b < |kv.blocks| && kv.blocks[b].occupied
      ensures b in Pinned(kv)
    {
      if b !in Pinned(kv) {
        UnpinnedIsIdle(kv, held, b);
      }
    }
    FreeAndPinnedAreDisjoint(kv, held);
    SubsetSize(Below(|kv.blocks|), FreeSet(kv.blocks) + Pinned(kv));
  }

  lemma DroppingAllIdleLeavesNone(kv: Kv, held: set<nat>)
    requires Holds(kv, held)
    ensures var after := DropEntries(kv, IdleKeys(kv));
            forall key | key in after.prefixes :: !EntryIsIdle(after.blocks, after.prefixes[key])
  {
    IdleKeysSpec(kv);
    DropKeepsPins(kv, held, IdleKeys(kv));
    var after := DropEntries(kv, IdleKeys(kv));
    forall key | key in after.prefixes
      ensures !EntryIsIdle(after.blocks, after.prefixes[key])
    {
      assert key !in IdleKeys(kv);
    }
  }

  /** Eviction reaches every block that is not pinned: it frees `need` blocks exactly when
      `need` plus the pinned blocks fit in the cache. */
  lemma EvictFreesAllItCan(kv: Kv, held: set<nat>, need: int)
    requires Holds(kv, held)
    ensures var after := Evict(kv, need);
            && Holds(after, held)
            && (FreeCount(after.blocks) >= need <==> need + |Pinned(kv)| <= |kv.blocks|)
            && FreeCount(after.blocks) == FreeCount(kv.blocks) + |BlocksOf(kv.prefixes, Victims(kv, need))|
            && Referenced(after) == Referenced(kv) && Orphans(after) == Orphans(kv)
            && (forall b: nat | b < |kv.blocks| :: after.blocks[b].refCount == kv.blocks[b].refCount)
            && (forall b | b in Pinned(kv) :: after.blocks[b] == kv.blocks[b])
  {
    var victims := Victims(kv, need);
    var after := Evict(kv, need);
    VictimsSpec(kv, need);
    DropIsSafe(kv, held, victims);
    DropKeepsPins(kv, held, victims);
    FreeAfterDrop(kv, victims);
    BlocksOfSize(kv, victims);
    FreeAndPinnedAreDisjoint(after, held);
    IdleKeysSpec(kv);
    RunIsShortest(kv.prefixes, IdleKeys(kv), FreeCount(kv.blocks), need);
    if FreeCount(after.blocks) < need {
      DroppingAllIdleLeavesNone(kv, held);
      NothingLeftToEvict(after, held);
    }
  }

  lemma {:induction false} TotalBlocksGrow(prefixes: map<string, PrefixEntry>, keys: seq<string>, n: nat, m: nat)
    requires n <= m <= |keys|
    ensures TotalBlocks(prefixes, keys[..n]) <= TotalBlocks(prefixes, keys[..m])
  {
    if n > 0 {
      assert keys[..n][1..] == keys[1..][..n - 1] && keys[..m][1..] == keys[1..][..m - 1];
      TotalBlocksGrow(prefixes, keys[1..], n - 1, m - 1);
    }
  }

  lemma ShorterRunFalls(kv: Kv, need: int, n: nat)
    requires CacheOk(kv) && n < |Victims(kv, need)|
    ensures n < |IdleKeys(kv)| && AllIdle(kv, IdleKeys(kv)[..n])
    ensures FreeCount(DropEntries(kv, IdleKeys(kv)[..n]).blocks) < need
  {
    hide DropEntries, FreeCount, IdleKeys, CacheOk, TotalBlocks, EntryIsIdle;
    var idle, victims := IdleKeys(kv), Victims(kv, need);
    VictimsSpec(kv, need);
    IdleKeysSpec(kv);
    RunIsShortest(kv.prefixes, idle, FreeCount(kv.blocks), need);
    FreeAfterDrop(kv, idle[..n]);
    TotalBlocksGrow(kv.prefixes, victims, n, |victims| - 1);
    assert victims[..n] == idle[..n];
  }

  /** Each evicted key comes before every unreferenced one that stays. */
  lemma VictimsComeFirst(kv: Kv, need: int)
    ensures forall v | v in Victims(kv, need) ::
              v in kv.prefixes && forall b | b in kv.prefixes[v].blockIds :: b < |kv.blocks| && kv.blocks[b].refCount == 0
    ensures forall v, k | v in Victims(kv, need) && k in kv.prefixes && k !in Victims(kv, need)
                          && (forall b | b in kv.prefixes[k].blockIds :: b < |kv.blocks| && kv.blocks[b].refCount == 0) ::
              KeyOrder.ComesFirst(v, k)
  {
    hide Victims, IdleKeys, KeyOrder.Less, KeyOrder.ComesFirst;
    var idle, victims := IdleKeys(kv), Victims(kv, need);
    VictimsSpec(kv, need);
    IdleKeysSpec(kv);
    forall v, k | v in victims && k in kv.prefixes && k !in victims && EntryIsIdle(kv.blocks, kv.prefixes[k])
      ensures KeyOrder.ComesFirst(v, k)
    {
      var i :| 0 <= i < |victims| && victims[i] == v;
      assert k in idle;
      var j :| 0 <= j < |idle| && idle[j] == k;
      assert i < j by {
        assert forall m | 0 <= m < |victims| :: victims[m] == idle[m];
      }
      assert idle[i] == v;
      KeyOrder.LessIsLexicographic(v, k);
    }
  }

  /** Eviction is safe and minimal: it takes the first idle prefixes in key order, no more of them than
      the need requires, all of them if that is not enough, and leaves every pinned block as it was. */
  lemma EvictionTheorem(kv: Kv, held: set<nat>, need: int)
    requires Holds(kv, held)
    ensures Victims(kv, need) <= IdleKeys(kv) && KeyOrder.Ascending(IdleKeys(kv))
    ensures forall v | v in Victims(kv, need) ::
              v in kv.prefixes && forall b | b in kv.prefixes[v].blockIds :: b < |kv.blocks| && kv.blocks[b].refCount == 0
    ensures forall v, k | v in Victims(kv, need) && k in kv.prefixes && k !in Victims(kv, need)
                          && (forall b | b in kv.prefixes[k].blockIds :: b < |kv.blocks| && kv.blocks[b].refCount == 0) ::
              KeyOrder.ComesFirst(v, k)
    ensures forall k :: k in Evict(kv, need).prefixes <==> k in kv.prefixes && k !in Victims(kv, need)
    ensures Evict(kv, need).stats.evictions == kv.stats.evictions + |Victims(kv, need)|
    ensures Victims(kv, need) != [] ==> FreeCount(kv.blocks) < need
    ensures forall n: nat | n < |Victims(kv, need)| :: FreeCount(DropEntries(kv, IdleKeys(kv)[..n]).blocks) < need
    ensures FreeCount(Evict(kv, need).blocks) >= need || Victims(kv, need) == IdleKeys(kv)
    ensures FreeCount(Evict(kv, need).blocks) >= need <==> need + |Pinned(kv)| <= |kv.blocks|
    ensures forall b | b in Pinned(kv) :: b < |kv.blocks| && Evict(kv, need).blocks[b] == kv.blocks[b]
    ensures Evict(kv, need).sequences == kv.sequences && Holds(Evict(kv, need), held)
  {
    hide Holds, FreeCount, DropEntries, Run, KeyOrder.ComesFirst, IdleKeys;
    CacheFromHolds(kv, held);
    VictimsComeFirst(kv, need);
    VictimsSpec(kv, need);
    IdleKeysSpec(kv);
    EvictFreesAllItCan(kv, held, need);
    PinnedAreBlocks(kv);
    RunIsShortest(kv.prefixes, IdleKeys(kv), FreeCount(kv.blocks), need);
    FreeAfterDrop(kv, Victims(kv, need));
    EvictKeepsSequences(kv, need);
    forall n: nat | n < |Victims(kv, need)|
      ensures FreeCount(DropEntries(kv, IdleKeys(kv)[..n]).blocks) < need
    {
      ShorterRunFalls(kv, need, n);
    }
    if Victims(kv, need) != [] {
      ShorterRunFalls(kv, need, 0);
      FreeAfterDrop(kv, []);
    }
  }

  lemma CacheFromHolds(kv: Kv, held: set<nat>)
    requires Holds(kv, held)
    ensures CacheOk(kv)
  {
  }

  lemma PinnedAreBlocks(kv: Kv)
    ensures forall b | b in Pinned(kv) :: b < |kv.blocks|
  {
  }

  lemma EvictKeepsSequences(kv: Kv, need: int)
    ensures forall k :: k in Evict(kv, need).prefixes <==> k in kv.prefixes && k !in Victims(kv, need)
    ensures Evict(kv, need).stats.evictions == kv.stats.evictions + |Victims(kv, need)|
    ensures Evict(kv, need).sequences == kv.sequences && |Evict(kv, need).blocks| == |kv.blocks|
  {
  }
}
