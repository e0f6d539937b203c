/** The three public operations of the allocator: when they succeed, what they change, and that
    they keep the invariant. */
module KvOperations {
  import opened KvCache
  import opened KvInvariant
  import opened KvTheory
  import KeyOrder

  // ------------------------------------------------------- moving a hold

  lemma HoldKeepsInvariant(kv: Kv, key: string)
    requires Inv(kv) && key in kv.prefixes
    ensures Holds(Hold(kv, key), Ids(kv.prefixes[key].blockIds))
  {
    var held := Ids(kv.prefixes[key].blockIds);
    var after := Hold(kv, key);
    assert EntryOk(kv, key);
    forall b: nat | b < |kv.blocks|
      ensures BlockOk(after, held, b)
    {
      assert BlockOk(kv, {}, b);
    }
    forall id | id in kv.sequences
      ensures SequenceOk(after, id)
    {
      assert SequenceOk(kv, id);
    }
    forall k | k in kv.prefixes
      ensures EntryOk(after, k)
      ensures Ids(kv.prefixes[k].blockIds) <= held || Ids(kv.prefixes[k].blockIds) !! held
    {
      assert EntryOk(kv, k);
    }
  }

  /** Holding a cached prefix pins exactly its blocks and moves only their counts. */
  ghost predicate HeldFrom(kv: Kv, key: string, after: Kv)
    requires key in kv.prefixes
  {
    var shared := kv.prefixes[key].blockIds;
    && after == kv.(blocks := after.blocks)
    && |after.blocks| == |kv.blocks|
    && key != "" && Distinct(shared) && InRange(shared, |kv.blocks|)
    && Pinned(after) == Pinned(kv) + Ids(shared)
    && Orphans(after) == Orphans(kv)
    && FreeCount(after.blocks) == FreeCount(kv.blocks)
    && (forall b | b in Ids(shared) :: b < |after.blocks| && after.blocks[b].prefixKey == key)
    && (forall b: nat | b < |kv.blocks| ::
          after.blocks[b].refCount == kv.blocks[b].refCount + if b in Ids(shared) then 1 else 0)
  }

  lemma HoldPins(kv: Kv, key: string)
    requires Inv(kv) && key in kv.prefixes
    ensures HeldFrom(kv, key, Hold(kv, key))
  {
    var after := Hold(kv, key);
    assert EntryOk(kv, key);
    forall b: nat | b < |kv.blocks|
      ensures IsCached(after, b) == IsCached(kv, b) && kv.blocks[b].refCount >= 0
    {
      assert BlockOk(kv, {}, b);
    }
    assert FreeSet(after.blocks) == FreeSet(kv.blocks);
    assert Orphans(after) == Orphans(kv);
    assert Referenced(after) == Referenced(kv) + Ids(kv.prefixes[key].blockIds);
  }

  /** Dropping a hold on shared blocks, when the rest of the prompt did not fit. */
  lemma UnholdKeepsInvariant(kv: Kv, held: seq<nat>)
    requires Holds(kv, Ids(held))
    requires forall b | b in Ids(held) :: kv.blocks[b].prefixKey != ""
    ensures var after := kv.(blocks := Update(kv.blocks, Ids(held), Unretain));
            Inv(after) && Orphans(after) == Orphans(kv)
  {
    var after := kv.(blocks := Update(kv.blocks, Ids(held), Unretain));
    forall b: nat | b < |kv.blocks|
      ensures BlockOk(after, {}, b) && IsCached(after, b) == IsCached(kv, b)
    {
      assert BlockOk(kv, Ids(held), b);
    }
    forall id | id in kv.sequences
      ensures SequenceOk(after, id)
    {
      assert SequenceOk(kv, id);
    }
    forall k | k in kv.prefixes
      ensures EntryOk(after, k)
    {
      assert EntryOk(kv, k);
    }
  }

  /** Handing back blocks that were allocated but never listed by a sequence or a prefix. */
  lemma HandBackKeepsInvariant(kv: Kv, ids: seq<nat>)
    requires Holds(kv, Ids(ids))
    requires forall b | b in Ids(ids) :: Owners(kv.sequences, b) == {}
    requires forall k | k in kv.prefixes :: Ids(kv.prefixes[k].blockIds) !! Ids(ids)
    ensures var after := kv.(blocks := Update(kv.blocks, Ids(ids), Freed));
            Inv(after) && Orphans(after) == Orphans(kv) - Ids(ids)
  {
    var after := kv.(blocks := Update(kv.blocks, Ids(ids), Freed));
    forall b: nat | b < |kv.blocks|
      ensures BlockOk(after, {}, b) && (b !in Ids(ids) ==> IsCached(after, b) == IsCached(kv, b))
    {
      assert BlockOk(kv, Ids(ids), b);
    }
    forall id | id in kv.sequences
      ensures SequenceOk(after, id)
    {
      assert SequenceOk(kv, id);
      forall b | b in kv.sequences[id].blockIds
        ensures b !in Ids(ids)
      {
        assert id in Owners(kv.sequences, b);
      }
    }
    forall k | k in kv.prefixes
      ensures EntryOk(after, k)
    {
      assert EntryOk(kv, k);
      assert forall b | b in kv.prefixes[k].blockIds :: b in Ids(kv.prefixes[k].blockIds);
    }
  }

  lemma CommitCountsOwners(kv: Kv, id: string, s: Sequence, b: nat)
    requires Holds(kv, Ids(s.blockIds)) && id !in kv.sequences && b < |kv.blocks|
    ensures kv.blocks[b].refCount == |Owners(kv.sequences[id := s], b)|
  {
    assert BlockOk(kv, Ids(s.blockIds), b);
    assert Owners(kv.sequences[id := s], b) == Owners(kv.sequences, b) + (if b in s.blockIds then {id} else {});
  }

  /** A finished prompt: the held blocks become the new sequence's, and its prefix may be cached. */
  lemma CommitKeepsInvariant(kv: Kv, id: string, s: Sequence, prefixes: map<string, PrefixEntry>)
    requires Holds(kv, Ids(s.blockIds)) && id != "" && id !in kv.sequences
    requires var listed := kv.(sequences := kv.sequences[id := s]); SequenceOk(listed, id)
    requires var listed := kv.(prefixes := prefixes); CacheOk(listed)
    requires forall k | k in prefixes :: SharesWhole(s, prefixes[k])
    requires forall other, k | other in kv.sequences && k in prefixes :: SharesWhole(kv.sequences[other], prefixes[k])
    ensures Inv(kv.(sequences := kv.sequences[id := s], prefixes := prefixes))
  {
    var after := kv.(sequences := kv.sequences[id := s], prefixes := prefixes);
    forall b: nat | b < |kv.blocks|
      ensures BlockOk(after, {}, b)
    {
      assert BlockOk(kv, Ids(s.blockIds), b);
      CommitCountsOwners(kv, id, s, b);
    }
    forall other | other in after.sequences
      ensures SequenceOk(after, other)
    {
      if other != id {
        assert SequenceOk(kv, other);
      }
    }
    forall k | k in prefixes
      ensures EntryOk(after, k)
    {
      assert EntryOk(kv.(prefixes := prefixes), k);
    }
  }

  // -------------------------------------------------------------- prompts

  /** On success the sequence table gains exactly the new sequence. */
  ghost predicate Attached(kv: Kv, after: Kv, id: string, prompt: int, p: int, s: int) {
    && id in after.sequences
    && after.sequences == kv.sequences[id := after.sequences[id]]
    && var q := after.sequences[id];
       q.promptTokens == prompt && q.generatedTokens == 0 && q.prefixBlockCount == p && |q.blockIds| == p + s
  }

  /** On failure no live sequence and no reference count changes. */
  ghost predicate Undone(kv: Kv, after: Kv) {
    && after.sequences == kv.sequences
    && |after.blocks| == |kv.blocks|
    && (forall b: nat | b < |kv.blocks| :: after.blocks[b].refCount == kv.blocks[b].refCount)
    && Orphans(after) == Orphans(kv)
  }

  ghost function Without(prefixes: map<string, PrefixEntry>, keys: seq<string>): map<string, PrefixEntry> {
    prefixes - (set k | k in keys)
  }

  /** Blocks carrying a prefix key followed by blocks carrying none form a well-formed sequence,
      and it meets cached prefixes only as wholes. */
  lemma NewSequenceIsGood(kv: Kv, id: string, q: Sequence, key: string, prefix: seq<nat>, suffix: seq<nat>)
    requires CacheOk(kv) && id != ""
    requires Distinct(prefix) && InRange(prefix, |kv.blocks|)
    requires Distinct(suffix) && InRange(suffix, |kv.blocks|)
    requires Ids(prefix) !! Ids(suffix)
    requires q.blockIds == prefix + suffix && q.prefixBlockCount == |prefix| && q.generatedTokens >= 0
    requires prefix != [] ==> key != ""
    requires forall b | b in Ids(prefix) :: kv.blocks[b].prefixKey == key
    requires forall b | b in Ids(suffix) :: kv.blocks[b].prefixKey == ""
    ensures SequenceOk(kv.(sequences := kv.sequences[id := q]), id)
    ensures Ids(q.blockIds) == Ids(prefix) + Ids(suffix)
    ensures forall k | k in kv.prefixes && k != key :: SharesWhole(q, kv.prefixes[k])
    ensures key in kv.prefixes && kv.prefixes[key].blockIds == prefix ==> SharesWhole(q, kv.prefixes[key])
  {
    forall i | 0 <= i < |q.blockIds|
      ensures q.blockIds[i] < |kv.blocks|
      ensures kv.blocks[q.blockIds[i]].prefixKey != "" <==> i < q.prefixBlockCount
    {
      if i < |prefix| {
        assert prefix[i] in Ids(prefix);
      } else {
        assert suffix[i - |prefix|] in Ids(suffix);
      }
    }
    forall i, j | 0 <= i < j < |q.blockIds|
      ensures q.blockIds[i] != q.blockIds[j]
    {
      if i < |prefix| <= j {
        assert prefix[i] in Ids(prefix) && suffix[j - |prefix|] in Ids(suffix);
      }
    }
    assert q.blockIds[..|prefix|] == prefix;
    forall k | k in kv.prefixes && k != key
      ensures SharesWhole(q, kv.prefixes[k])
    {
      assert EntryOk(kv, k);
      assert Ids(kv.prefixes[k].blockIds) !! Ids(prefix) + Ids(suffix);
    }
  }

  /** The state in which a hit has its suffix, or has failed to get one. */
  ghost predicate HitAllocated(kv: Kv, key: string, s: int, mid: Kv, suffix: seq<nat>)
    requires key in kv.prefixes
  {
    var shared := kv.prefixes[key].blockIds;
    && mid.sequences == kv.sequences && mid.tokensPerBlock == kv.tokensPerBlock && |mid.blocks| == |kv.blocks|
    && mid.prefixes == Without(kv.prefixes, Victims(Hold(kv, key), s))
    && (|suffix| == s <==> s + |Pinned(kv) + Ids(shared)| <= |kv.blocks|)
    && (|suffix| != s ==> suffix == [])
    && Holds(mid, Ids(shared) + Ids(suffix)) && Ids(shared) !! Ids(suffix)
    && Distinct(suffix) && Distinct(shared) && InRange(suffix, |kv.blocks|) && InRange(shared, |kv.blocks|)
    && key != ""
    && (forall b | b in Ids(shared) :: mid.blocks[b].prefixKey == key)
    && (forall b | b in Ids(suffix) :: mid.blocks[b].prefixKey == "")
    && Orphans(mid) == Orphans(kv)
    && FreeCount(mid.blocks) >= FreeCount(kv.blocks) - |suffix|
    && (forall b: nat | b < |kv.blocks| && b !in Ids(suffix) ::
          mid.blocks[b].refCount == kv.blocks[b].refCount + if b in Ids(shared) then 1 else 0)
  }

  lemma HitCounts(kv: Kv, key: string, s: int, held: Kv, mid: Kv, suffix: seq<nat>)
    requires key in kv.prefixes && held == Hold(kv, key) && HeldFrom(kv, key, held)
    requires Accounted(held, s, "", mid, suffix)
    ensures mid.sequences == kv.sequences && mid.tokensPerBlock == kv.tokensPerBlock && |mid.blocks| == |kv.blocks|
    ensures mid.prefixes == Without(kv.prefixes, Victims(Hold(kv, key), s))
    ensures |suffix| == s <==> s + |Pinned(kv) + Ids(kv.prefixes[key].blockIds)| <= |kv.blocks|
    ensures |suffix| != s ==> suffix == []
    ensures Orphans(mid) == Orphans(kv)
    ensures FreeCount(mid.blocks) >= FreeCount(kv.blocks) - |suffix|
  {
    hide Hold, Pinned, Orphans, FreeCount, Victims, BlocksOf, Ids;
    NoIds(Orphans(kv));
  }

  lemma SuffixBesideHit(kv: Kv, key: string, s: int, held: Kv, mid: Kv, suffix: seq<nat>)
    requires key in kv.prefixes && HeldFrom(kv, key, held) && HandedOut(held, "", mid, suffix)
    ensures var shared := kv.prefixes[key].blockIds;
            && |mid.blocks| == |kv.blocks| && Ids(shared) !! Ids(suffix)
            && Distinct(suffix) && Distinct(shared) && InRange(suffix, |kv.blocks|) && InRange(shared, |kv.blocks|)
            && key != ""
            && (forall b | b in Ids(shared) :: b < |kv.blocks| && mid.blocks[b].prefixKey == key)
            && (forall b | b in Ids(suffix) :: b < |kv.blocks| && mid.blocks[b].prefixKey == "")
            && (forall b: nat | b < |kv.blocks| && b !in Ids(suffix) ::
                  mid.blocks[b].refCount == kv.blocks[b].refCount + if b in Ids(shared) then 1 else 0)
  {
    hide Pinned, Orphans, FreeCount, Owners, Ids, Distinct, InRange;
    assert forall b | b in Ids(kv.prefixes[key].blockIds) :: b in Pinned(held);
  }

  lemma HitAllocates(kv: Kv, key: string, s: int)
    requires Inv(kv) && key in kv.prefixes && s >= 0
    ensures var (mid, suffix) := AllocateBlocks(Hold(kv, key), s, "");
            HitAllocated(kv, key, s, mid, suffix)
  {
    hide Inv, Holds, Hold, AllocateBlocks, Pinned, Orphans, FreeCount, Victims, Ids, HeldFrom, Accounted, HandedOut,
         Distinct, InRange, Without;
    var held := Hold(kv, key);
    HoldKeepsInvariant(kv, key);
    HoldPins(kv, key);
    AllocateBlocksOutcome(held, Ids(kv.prefixes[key].blockIds), s, "");
    var (mid, suffix) := AllocateBlocks(held, s, "");
    HitCounts(kv, key, s, held, mid, suffix);
    SuffixBesideHit(kv, key, s, held, mid, suffix);
  }

  lemma HitSucceeds(kv: Kv, id: string, prompt: int, key: string, p: int, s: int)
    requires Inv(kv) && id != "" && id !in kv.sequences && key in kv.prefixes
    requires p == |kv.prefixes[key].blockIds| && s >= 0
    requires s + |Pinned(kv) + Ids(kv.prefixes[key].blockIds)| <= |kv.blocks|
    ensures var (after, r) := AllocateHit(kv, id, prompt, key, p, s);
            && r == Allocation(true, true, p + s, "")
            && Inv(after) && Attached(kv, after, id, prompt, p, s)
            && Orphans(after) == Orphans(kv)
            && after.prefixes == Without(kv.prefixes, Victims(Hold(kv, key), s))
            && FreeCount(after.blocks) >= FreeCount(kv.blocks) - s
  {
    hide Holds, AllocateBlocks, Referenced, Orphans, FreeSet, Victims, BlockOk, Distinct, EntryOk, Hold, Ids;
    HitAllocates(kv, key, s);
    var shared := kv.prefixes[key].blockIds;
    var (mid, suffix) := AllocateBlocks(Hold(kv, key), s, "");
    var q := Sequence(prompt, 0, p, shared + suffix);
    HitCommits(kv, id, key, s, mid, suffix, q);
    assert AllocateHit(kv, id, prompt, key, p, s) ==
           (mid.(sequences := mid.sequences[id := q], stats := mid.stats.(prefixHits := mid.stats.prefixHits + 1)),
            Allocation(true, true, p + s, ""));
    StatsDoNotMatter(mid.(sequences := mid.sequences[id := q]), AllocateHit(kv, id, prompt, key, p, s).0, {});
  }

  lemma HitCommits(kv: Kv, id: string, key: string, s: int, mid: Kv, suffix: seq<nat>, q: Sequence)
    requires id != "" && id !in kv.sequences && key in kv.prefixes
    requires HitAllocated(kv, key, s, mid, suffix)
    requires q.blockIds == kv.prefixes[key].blockIds + suffix
    requires q.prefixBlockCount == |kv.prefixes[key].blockIds| && q.generatedTokens >= 0
    ensures Inv(mid.(sequences := mid.sequences[id := q]))
    ensures Orphans(mid.(sequences := mid.sequences[id := q])) == Orphans(mid)
  {
    hide BlockOk, CacheOk, EntryOk, FreeCount, IdleKeys, Ids;
    var shared := kv.prefixes[key].blockIds;
    NewSequenceIsGood(mid, id, q, key, shared, suffix);
    assert CacheOk(mid.(prefixes := mid.prefixes));
    CommitKeepsInvariant(mid, id, q, mid.prefixes);
    forall b: nat | b < |mid.blocks|
      ensures IsCached(mid.(sequences := mid.sequences[id := q]), b) == IsCached(mid, b)
    {
    }
  }

  lemma HitFails(kv: Kv, id: string, prompt: int, key: string, p: int, s: int)
    requires Inv(kv) && key in kv.prefixes && s >= 0
    requires s + |Pinned(kv) + Ids(kv.prefixes[key].blockIds)| > |kv.blocks|
    ensures var (after, r) := AllocateHit(kv, id, prompt, key, p, s);
            && r == Failed("kv cache exhausted")
            && Inv(after) && Undone(kv, after)
            && after.prefixes == Without(kv.prefixes, Victims(Hold(kv, key), s))
  {
    hide Holds, Hold, AllocateBlocks, Orphans, FreeSet, Victims, Pinned, Owners;
    HitAllocates(kv, key, s);
    var (mid, suffix) := AllocateBlocks(Hold(kv, key), s, "");
    var shared := kv.prefixes[key].blockIds;
    NoIds(Ids(shared));
    UnholdKeepsInvariant(mid, shared);
  }

  /** The state in which a miss has its prefix blocks, and its suffix blocks unless they did not fit. */
  ghost predicate MissAllocated(kv: Kv, key: string, p: int, s: int, first: Kv, prefix: seq<nat>, mid: Kv, suffix: seq<nat>) {
    && mid.sequences == kv.sequences && mid.tokensPerBlock == kv.tokensPerBlock && |mid.blocks| == |kv.blocks|
    && mid.prefixes == Without(Without(kv.prefixes, Victims(kv, p)), Victims(first, s))
    && |prefix| == p
    && (|suffix| == s <==> p + s + |Pinned(kv)| <= |kv.blocks|)
    && (|suffix| != s ==> suffix == [])
    && Holds(mid, Ids(prefix) + Ids(suffix)) && Ids(prefix) !! Ids(suffix)
    && Distinct(prefix) && InRange(prefix, |kv.blocks|) && Distinct(suffix) && InRange(suffix, |kv.blocks|)
    && (forall b | b in Ids(prefix) :: mid.blocks[b] == Block(true, 1, key) && Owners(kv.sequences, b) == {})
    && (forall b | b in Ids(suffix) :: mid.blocks[b].prefixKey == "")
    && (forall k | k in mid.prefixes :: Ids(mid.prefixes[k].blockIds) !! Ids(prefix))
    && Orphans(mid) == Orphans(kv) + (if key == "" then {} else Ids(prefix))
    && (forall b | b in Ids(prefix) :: kv.blocks[b].refCount == 0 && b !in Pinned(kv))
    && (forall b: nat | b < |kv.blocks| && b !in Ids(prefix) && b !in Ids(suffix) ::
          mid.blocks[b].refCount == kv.blocks[b].refCount)
    && FreeCount(mid.blocks) >= FreeCount(kv.blocks) - p - |suffix|
  }

  lemma MissCounts(kv: Kv, key: string, p: int, s: int, first: Kv, prefix: seq<nat>, mid: Kv, suffix: seq<nat>)
    requires |prefix| == p && Accounted(kv, p, key, first, prefix) && Accounted(first, s, "", mid, suffix)
    ensures mid.sequences == kv.sequences && mid.tokensPerBlock == kv.tokensPerBlock && |mid.blocks| == |kv.blocks|
    ensures mid.prefixes == Without(Without(kv.prefixes, Victims(kv, p)), Victims(first, s))
    ensures |suffix| == s <==> p + s + |Pinned(kv)| <= |kv.blocks|
    ensures |suffix| != s ==> suffix == []
    ensures Orphans(mid) == Orphans(kv) + (if key == "" then {} else Ids(prefix))
    ensures FreeCount(mid.blocks) >= FreeCount(kv.blocks) - p - |suffix|
  {
    hide Pinned, Orphans, FreeCount, Victims, BlocksOf, Ids;
    NoIds(Orphans(first));
  }

  lemma MissBlocks(kv: Kv, key: string, p: int, first: Kv, prefix: seq<nat>, s: int, mid: Kv, suffix: seq<nat>)
    requires Accounted(kv, p, key, first, prefix) && HandedOut(kv, key, first, prefix)
    requires Accounted(first, s, "", mid, suffix) && HandedOut(first, "", mid, suffix)
    ensures |mid.blocks| == |kv.blocks| && Ids(prefix) !! Ids(suffix)
    ensures Distinct(prefix) && InRange(prefix, |kv.blocks|) && Distinct(suffix) && InRange(suffix, |kv.blocks|)
    ensures forall b | b in Ids(prefix) ::
              b < |kv.blocks| && mid.blocks[b] == Block(true, 1, key) && Owners(kv.sequences, b) == {}
              && kv.blocks[b].refCount == 0 && b !in Pinned(kv)
    ensures forall b | b in Ids(suffix) :: b < |kv.blocks| && mid.blocks[b].prefixKey == ""
    ensures forall k | k in mid.prefixes :: Ids(mid.prefixes[k].blockIds) !! Ids(prefix)
    ensures forall b: nat | b < |kv.blocks| && b !in Ids(prefix) && b !in Ids(suffix) ::
              mid.blocks[b].refCount == kv.blocks[b].refCount
  {
    hide Pinned, Orphans, FreeCount, Owners, Victims, BlocksOf, Ids, Distinct, InRange;
    assert forall b | b in Ids(prefix) :: b in Pinned(first);
  }

  lemma MissAllocatesSuffix(kv: Kv, key: string, p: int, s: int, first: Kv, prefix: seq<nat>)
    requires s >= 0 && |prefix| == p
    requires Holds(first, Ids(prefix)) && Accounted(kv, p, key, first, prefix) && HandedOut(kv, key, first, prefix)
    ensures var (mid, suffix) := AllocateBlocks(first, s, "");
            MissAllocated(kv, key, p, s, first, prefix, mid, suffix)
  {
    hide Holds, AllocateBlocks, Pinned, Orphans, FreeCount, Victims, Owners, Ids, Accounted, HandedOut, Distinct, InRange, Without;
    AllocateBlocksOutcome(first, Ids(prefix), s, "");
    var (mid, suffix) := AllocateBlocks(first, s, "");
    MissCounts(kv, key, p, s, first, prefix, mid, suffix);
    MissBlocks(kv, key, p, first, prefix, s, mid, suffix);
  }

  lemma MissAllocates(kv: Kv, key: string, p: int, s: int)
    requires Inv(kv) && p >= 0 && s >= 0
    requires p + |Pinned(kv)| <= |kv.blocks|
    ensures var (first, prefix) := AllocateBlocks(kv, p, key);
            var (mid, suffix) := AllocateBlocks(first, s, "");
            MissAllocated(kv, key, p, s, first, prefix, mid, suffix)
  {
    hide Holds, AllocateBlocks, Pinned, Orphans, MissAllocated, HandedOut;
    AllocateBlocksOutcome(kv, {}, p, key);
    var (first, prefix) := AllocateBlocks(kv, p, key);
    assert {} + Ids(prefix) == Ids(prefix);
    MissAllocatesSuffix(kv, key, p, s, first, prefix);
  }

  /** The prefix table after a miss: the new prefix, if any, replaces what its key mapped to. */
  ghost function Recached(mid: Kv, key: string, cacheable: int, prefix: seq<nat>): map<string, PrefixEntry> {
    if cacheable > 0 then mid.prefixes[key := PrefixEntry(cacheable, prefix)] else mid.prefixes
  }

  lemma RecachedIsOk(mid: Kv, held: set<nat>, key: string, cacheable: int, prefix: seq<nat>)
    requires Holds(mid, held)
    requires cacheable > 0 ==> key != "" && |prefix| == CeilDiv(cacheable, mid.tokensPerBlock)
    requires Distinct(prefix) && InRange(prefix, |mid.blocks|)
    requires forall b | b in Ids(prefix) :: mid.blocks[b] == Block(true, 1, key)
    ensures CacheOk(mid) && CacheOk(mid.(prefixes := Recached(mid, key, cacheable, prefix)))
  {
    hide CeilDiv;
    var recached := mid.(prefixes := Recached(mid, key, cacheable, prefix));
    forall k | k in recached.prefixes
      ensures EntryOk(recached, k)
    {
      if k == key && cacheable > 0 {
        assert forall b | b in prefix :: b in Ids(prefix);
      } else {
        assert EntryOk(mid, k);
      }
    }
  }

  lemma RecachedIsShared(mid: Kv, held: set<nat>, key: string, cacheable: int, prefix: seq<nat>)
    requires Holds(mid, held)
    requires forall b | b in Ids(prefix) :: Owners(mid.sequences, b) == {}
    ensures forall other, k | other in mid.sequences && k in Recached(mid, key, cacheable, prefix) ::
              SharesWhole(mid.sequences[other], Recached(mid, key, cacheable, prefix)[k])
  {
    forall other, k | other in mid.sequences && k in Recached(mid, key, cacheable, prefix)
      ensures SharesWhole(mid.sequences[other], Recached(mid, key, cacheable, prefix)[k])
    {
      if k == key && cacheable > 0 {
        forall b | b in Ids(prefix)
          ensures b !in mid.sequences[other].blockIds
        {
          assert other !in Owners(mid.sequences, b);
        }
      } else {
        assert SharesWhole(mid.sequences[other], mid.prefixes[k]);
      }
    }
  }

  lemma MissCommits(kv: Kv, id: string, key: string, cacheable: int, p: int, s: int,
                    first: Kv, prefix: seq<nat>, mid: Kv, suffix: seq<nat>, q: Sequence)
    requires id != "" && id !in kv.sequences
    requires MissAllocated(kv, key, p, s, first, prefix, mid, suffix)
    requires q.blockIds == prefix + suffix && q.prefixBlockCount == p && q.generatedTokens >= 0
    requires cacheable > 0 ==> key != "" && kv.tokensPerBlock > 0 && p == CeilDiv(cacheable, kv.tokensPerBlock)
    requires cacheable <= 0 ==> prefix == []
    ensures Inv(mid.(sequences := mid.sequences[id := q], prefixes := Recached(mid, key, cacheable, prefix)))
  {
    hide Holds, CeilDiv, Orphans, Pinned, FreeCount, EntryOk, SharesWhole, Without;
    var recached := mid.(prefixes := Recached(mid, key, cacheable, prefix));
    RecachedIsOk(mid, Ids(prefix) + Ids(suffix), key, cacheable, prefix);
    RecachedIsShared(mid, Ids(prefix) + Ids(suffix), key, cacheable, prefix);
    NewSequenceIsGood(recached, id, q, key, prefix, suffix);
    MissSharesItself(mid, key, cacheable, prefix, suffix, q);
    CommitKeepsInvariant(mid, id, q, recached.prefixes);
  }

  lemma MissSharesItself(mid: Kv, key: string, cacheable: int, prefix: seq<nat>, suffix: seq<nat>, q: Sequence)
    requires CacheOk(mid) && q.blockIds == prefix + suffix && q.prefixBlockCount == |prefix|
    requires cacheable <= 0 ==> prefix == []
    requires InRange(suffix, |mid.blocks|) && forall b | b in Ids(suffix) :: mid.blocks[b].prefixKey == ""
    ensures key in Recached(mid, key, cacheable, prefix) ==> SharesWhole(q, Recached(mid, key, cacheable, prefix)[key])
  {
    if cacheable > 0 {
      assert q.blockIds[..|prefix|] == prefix;
    } else if key in mid.prefixes {
      assert EntryOk(mid, key);
      assert q.blockIds == suffix;
    }
  }

  /** Only an entry that the new prefix replaces loses its blocks. */
  lemma RecachedOrphans(mid: Kv, held: set<nat>, sequences: map<string, Sequence>, key: string, cacheable: int, prefix: seq<nat>)
    requires Holds(mid, held)
    requires cacheable > 0 ==> key != ""
    requires cacheable <= 0 ==> prefix == []
    requires forall b | b in Ids(prefix) :: b < |mid.blocks| && mid.blocks[b].prefixKey == key
    requires forall k | k in mid.prefixes :: Ids(mid.prefixes[k].blockIds) !! Ids(prefix)
    ensures var after := mid.(sequences := sequences, prefixes := Recached(mid, key, cacheable, prefix));
            var replaced := if cacheable > 0 && key in mid.prefixes then Ids(mid.prefixes[key].blockIds) else {};
            Orphans(after) == Orphans(mid) - Ids(prefix) + replaced
  {
    var after := mid.(sequences := sequences, prefixes := Recached(mid, key, cacheable, prefix));
    var replaced := if cacheable > 0 && key in mid.prefixes then Ids(mid.prefixes[key].blockIds) else {};
    if key in mid.prefixes {
      assert EntryOk(mid, key);
    }
    forall b: nat | b < |mid.blocks|
      ensures IsCached(after, b) == ((IsCached(mid, b) && b !in replaced) || b in Ids(prefix))
    {
      assert b in prefix <==> b in Ids(prefix);
    }
  }
}
