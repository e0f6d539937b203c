/** Growing and releasing a live sequence. */
module KvSequence {
  import opened KvCache
  import opened KvInvariant
  import opened KvTheory
  import opened KvOperations

  // ---------------------------------------------------------- appending

  lemma CeilDivMonotone(a: int, b: int, divisor: int)
    requires a <= b && divisor > 0
    ensures CeilDiv(a, divisor) <= CeilDiv(b, divisor)
  {
    if 0 < a {
      DivMonotone(a + divisor - 1, b + divisor - 1, divisor);
    }
  }

  lemma DivMonotone(x: int, y: int, d: int)
    requires 0 <= x <= y && d > 0
    ensures x / d <= y / d
  {
    var q, r := x / d, y / d;
    assert x == q * d + x % d && y == r * d + y % d;
    assert (q - r) * d == q * d - r * d;
    if q > r {
      MulAtLeast(q - r, d);
    }
  }

  lemma MulAtLeast(n: int, d: int)
    requires n >= 1 && d > 0
    ensures n * d >= d
  {
  }

  ghost function Grown(s: Sequence, count: int, ids: seq<nat>): Sequence {
    s.(generatedTokens := s.generatedTokens + count, blockIds := s.blockIds + ids)
  }

  lemma GrownIsOk(mid: Kv, held: set<nat>, id: string, count: int, ids: seq<nat>)
    requires Holds(mid, held) && id in mid.sequences && count >= 0
    requires Distinct(ids) && InRange(ids, |mid.blocks|)
    requires forall b | b in Ids(ids) :: mid.blocks[b].prefixKey == "" && Owners(mid.sequences, b) == {}
    ensures SequenceOk(mid.(sequences := mid.sequences[id := Grown(mid.sequences[id], count, ids)]), id)
  {
    var s := mid.sequences[id];
    var q := Grown(s, count, ids);
    assert SequenceOk(mid, id);
    forall i | 0 <= i < |q.blockIds|
      ensures q.blockIds[i] < |mid.blocks|
      ensures mid.blocks[q.blockIds[i]].prefixKey != "" <==> i < q.prefixBlockCount
    {
      if i >= |s.blockIds| {
        assert ids[i - |s.blockIds|] in Ids(ids);
      }
    }
    forall i, j | 0 <= i < j < |q.blockIds|
      ensures q.blockIds[i] != q.blockIds[j]
    {
      if i < |s.blockIds| <= j {
        assert ids[j - |s.blockIds|] in Ids(ids);
        assert s.blockIds[i] in s.blockIds && id in Owners(mid.sequences, s.blockIds[i]);
      }
    }
  }

  lemma GrownCountsOwners(mid: Kv, id: string, count: int, ids: seq<nat>, b: nat)
    requires Holds(mid, Ids(ids)) && id in mid.sequences && b < |mid.blocks|
    requires b in Ids(ids) ==> Owners(mid.sequences, b) == {}
    ensures mid.blocks[b].refCount == |Owners(mid.sequences[id := Grown(mid.sequences[id], count, ids)], b)|
  {
    assert BlockOk(mid, Ids(ids), b);
    var after := mid.sequences[id := Grown(mid.sequences[id], count, ids)];
    assert Owners(after, b) == Owners(mid.sequences, b) + (if b in Ids(ids) then {id} else {});
  }

  lemma GrownShares(mid: Kv, held: set<nat>, id: string, count: int, ids: seq<nat>)
    requires Holds(mid, held) && id in mid.sequences
    requires forall k | k in mid.prefixes :: Ids(mid.prefixes[k].blockIds) !! Ids(ids)
    ensures forall k | k in mid.prefixes :: SharesWhole(Grown(mid.sequences[id], count, ids), mid.prefixes[k])
  {
    var s := mid.sequences[id];
    var q := Grown(s, count, ids);
    assert SequenceOk(mid, id);
    assert q.blockIds[..s.prefixBlockCount] == s.blockIds[..s.prefixBlockCount];
    assert Ids(q.blockIds) == Ids(s.blockIds) + Ids(ids);
    forall k | k in mid.prefixes
      ensures SharesWhole(q, mid.prefixes[k])
    {
      assert SharesWhole(s, mid.prefixes[k]);
    }
  }

  lemma GrowKeepsInvariant(mid: Kv, id: string, count: int, ids: seq<nat>)
    requires Holds(mid, Ids(ids)) && id in mid.sequences && count >= 0
    requires Distinct(ids) && InRange(ids, |mid.blocks|)
    requires forall b | b in Ids(ids) :: mid.blocks[b].prefixKey == "" && Owners(mid.sequences, b) == {}
    requires forall k | k in mid.prefixes :: Ids(mid.prefixes[k].blockIds) !! Ids(ids)
    ensures var after := mid.(sequences := mid.sequences[id := Grown(mid.sequences[id], count, ids)]);
            Inv(after) && Orphans(after) == Orphans(mid)
  {
    var after := mid.(sequences := mid.sequences[id := Grown(mid.sequences[id], count, ids)]);
    GrownIsOk(mid, Ids(ids), id, count, ids);
    GrownShares(mid, Ids(ids), id, count, ids);
    forall b: nat | b < |mid.blocks|
      ensures BlockOk(after, {}, b) && IsCached(after, b) == IsCached(mid, b)
    {
      assert BlockOk(mid, Ids(ids), b);
      GrownCountsOwners(mid, id, count, ids, b);
    }
    forall other | other in after.sequences
      ensures SequenceOk(after, other)
    {
      if other != id {
        assert SequenceOk(mid, other);
      }
    }
    forall k | k in mid.prefixes
      ensures EntryOk(after, k)
    {
      assert EntryOk(mid, k);
    }
  }

  /** An append is accepted exactly when its sequence is live and its new blocks fit. */
  ghost predicate AppendAccepted(kv: Kv, id: string, count: int)
    requires kv.tokensPerBlock > 0
  {
    && id in kv.sequences
    && (count <= 0 || GrowthBlocks(kv.tokensPerBlock, kv.sequences[id].generatedTokens, count) + |Pinned(kv)| <= |kv.blocks|)
  }

  ghost predicate AppendOutcome(kv: Kv, id: string, count: int, after: Kv, r: Allocation)
    requires kv.tokensPerBlock > 0
  {
    && (r.ok <==> AppendAccepted(kv, id, count))
    && (!r.ok ==> Undone(kv, after))
    && Orphans(after) == Orphans(kv)
    && (id !in kv.sequences || count <= 0 ==> after == kv)
    && (id in kv.sequences && count > 0 ==>
          var n := GrowthBlocks(kv.tokensPerBlock, kv.sequences[id].generatedTokens, count);
          && after.prefixes == Without(kv.prefixes, Victims(kv, n))
          && (r.ok ==>
                && r.attachedBlocks == n
                && FreeCount(after.blocks) >= FreeCount(kv.blocks) - n
                && id in after.sequences
                && var s, q := kv.sequences[id], after.sequences[id];
                   && after.sequences == kv.sequences[id := q]
                   && q == s.(generatedTokens := s.generatedTokens + count, blockIds := q.blockIds)
                   && s.blockIds <= q.blockIds && |q.blockIds| == |s.blockIds| + n))
  }

  lemma GrowthIsNatural(kv: Kv, id: string, count: int)
    requires Inv(kv) && id in kv.sequences && count >= 0
    ensures kv.tokensPerBlock > 0
    ensures GrowthBlocks(kv.tokensPerBlock, kv.sequences[id].generatedTokens, count) >= 0
  {
    var g := kv.sequences[id].generatedTokens;
    CeilDivMonotone(g, g + count, kv.tokensPerBlock);
  }

  lemma AppendFits(kv: Kv, id: string, count: int, n: int, mid: Kv, ids: seq<nat>)
    requires Inv(kv) && id in kv.sequences && count > 0 && |ids| == n
    requires Accounted(kv, n, "", mid, ids) && HandedOut(kv, "", mid, ids) && Holds(mid, Ids(ids))
    ensures var after := mid.(sequences := mid.sequences[id := Grown(kv.sequences[id], count, ids)]);
            && Inv(after) && Orphans(after) == Orphans(kv)
            && after.prefixes == Without(kv.prefixes, Victims(kv, n))
            && FreeCount(after.blocks) >= FreeCount(kv.blocks) - n
  {
    hide Holds, Orphans, Referenced, Victims, Owners, BlocksOf, FreeSet;
    NoIds(Orphans(kv));
    GrowKeepsInvariant(mid, id, count, ids);
  }

  /** A failed allocation leaves nothing changed that is live. */
  lemma AppendFails(kv: Kv, n: int, mid: Kv)
    requires Accounted(kv, n, "", mid, []) && HandedOut(kv, "", mid, []) && Holds(mid, Ids([]))
    ensures Inv(mid) && Undone(kv, mid) && mid.prefixes == Without(kv.prefixes, Victims(kv, n))
  {
    hide Holds, Orphans, FreeCount, Victims, Owners, BlocksOf, Pinned;
    NoIds({});
    NoIds(Orphans(kv));
  }

  lemma AppendAllocates(kv: Kv, id: string, count: int)
    requires Inv(kv) && id in kv.sequences && count > 0
    ensures kv.tokensPerBlock > 0
    ensures var (after, r) := AppendTokens(kv, id, count);
            Inv(after) && AppendOutcome(kv, id, count, after, r)
  {
    hide Holds, GrowthBlocks, AllocateBlocks, Orphans, FreeCount, Victims, Ids, HandedOut, Undone, Pinned, Without, BlocksOf;
    GrowthIsNatural(kv, id, count);
    var n := GrowthBlocks(kv.tokensPerBlock, kv.sequences[id].generatedTokens, count);
    AllocateBlocksOutcome(kv, {}, n, "");
    var (mid, ids) := AllocateBlocks(kv, n, "");
    assert {} + Ids(ids) == Ids(ids);
    if |ids| == n {
      AppendFits(kv, id, count, n, mid, ids);
    } else {
      AppendFails(kv, n, mid);
    }
  }

  /** The append theorem: the invariant is kept, success is exact, and a failure changes nothing live. */
  lemma AppendTokensTheorem(kv: Kv, id: string, count: int)
    requires Inv(kv)
    ensures kv.tokensPerBlock > 0
    ensures var (after, r) := AppendTokens(kv, id, count);
            Inv(after) && AppendOutcome(kv, id, count, after, r)
  {
    if id in kv.sequences && count > 0 {
      AppendAllocates(kv, id, count);
    }
  }

  // ---------------------------------------------------------- releasing

  ghost function OwnBlocks(kv: Kv, id: string): set<nat>
    requires id in kv.sequences
  {
    set b | b in kv.sequences[id].blockIds && b < |kv.blocks| && kv.blocks[b].prefixKey == ""
  }

  lemma ReleasedCountsOwners(kv: Kv, id: string, b: nat)
    requires Inv(kv) && id in kv.sequences && b < |kv.blocks|
    ensures var listed := if b in kv.sequences[id].blockIds then 1 else 0;
            |Owners(kv.sequences - {id}, b)| + listed == |Owners(kv.sequences, b)| == kv.blocks[b].refCount
  {
    hide CacheOk;
    assert BlockOk(kv, {}, b);
    assert Owners(kv.sequences, b)
        == Owners(kv.sequences - {id}, b) + (if b in kv.sequences[id].blockIds then {id} else {});
  }

  lemma ReleasedBlocksAreOk(kv: Kv, id: string, b: nat)
    requires Inv(kv) && id in kv.sequences && b < |kv.blocks|
    ensures var after := ReleaseSequence(kv, id);
            && BlockOk(after, {}, b)
            && (after.blocks[b].occupied <==> kv.blocks[b].occupied && b !in OwnBlocks(kv, id))
            && after.blocks[b].prefixKey == kv.blocks[b].prefixKey
  {
    assert BlockOk(kv, {}, b);
    hide Holds, Owners;
    ReleasedCountsOwners(kv, id, b);
    assert b in Ids(kv.sequences[id].blockIds) <==> b in kv.sequences[id].blockIds;
  }

  /** The release theorem: only the sequence's unshared blocks become free, its cached prefix stays
      resident, and nothing is orphaned. */
  lemma ReleaseTheorem(kv: Kv, id: string)
    requires Inv(kv)
    ensures var after := ReleaseSequence(kv, id);
            && Inv(after)
            && after.sequences == kv.sequences - {id}
            && after.prefixes == kv.prefixes
            && |after.blocks| == |kv.blocks|
            && Orphans(after) == Orphans(kv)
            && FreeSet(after.blocks) == FreeSet(kv.blocks) + (if id in kv.sequences then OwnBlocks(kv, id) else {})
            && FreeCount(after.blocks) >= FreeCount(kv.blocks)
  {
    var after := ReleaseSequence(kv, id);
    if id in kv.sequences {
      forall b: nat | b < |kv.blocks|
        ensures BlockOk(after, {}, b)
        ensures after.blocks[b].prefixKey == kv.blocks[b].prefixKey
        ensures after.blocks[b].occupied <==> kv.blocks[b].occupied && b !in OwnBlocks(kv, id)
      {
        ReleasedBlocksAreOk(kv, id, b);
      }
      assert forall b: nat | b < |kv.blocks| :: IsCached(after, b) == IsCached(kv, b);
      forall other | other in after.sequences
        ensures SequenceOk(after, other)
      {
        assert SequenceOk(kv, other);
      }
      forall k | k in kv.prefixes
        ensures EntryOk(after, k)
      {
        assert EntryOk(kv, k);
      }
      SubsetSize(FreeSet(kv.blocks), FreeSet(after.blocks));
    }
  }
}
