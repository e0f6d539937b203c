/** The state of the KV-cache block allocator as a value, and what each of its operations does
    to that state.  `KvAllocator` updates the same fields in place; `KvTheory` and
    the modules after it prove the properties. */
module KvCache {
  import KeyOrder

  datatype Block = Block(occupied: bool, refCount: int, prefixKey: string)

  const FREE := Block(false, 0, "")

  datatype Sequence = Sequence(promptTokens: int, generatedTokens: int, prefixBlockCount: int, blockIds: seq<nat>)

  datatype PrefixEntry = PrefixEntry(tokenCount: int, blockIds: seq<nat>)

  datatype Stats = Stats(highWatermark: int, prefixHits: int, prefixMisses: int, evictions: int, failures: int)

  datatype Allocation = Allocation(ok: bool, cacheHit: bool, attachedBlocks: int, message: string)

  datatype Kv = Kv(
    tokensPerBlock: int,
    blocks: seq<Block>,
    sequences: map<string, Sequence>,
    prefixes: map<string, PrefixEntry>,
    stats: Stats)

  function Failed(message: string): Allocation {
    Allocation(false, false, 0, message)
  }

  function Max(a: int, b: int): int { if a < b then b else a }

  function Min(a: int, b: int): int { if b < a then b else a }

  function ClampPositive(value: int, fallback: int): int {
    if value > 0 then value else fallback
  }

  function CeilDiv(value: int, divisor: int): (r: int)
    requires divisor > 0
    ensures r >= 0
  {
    if value <= 0 then 0 else (value + divisor - 1) / divisor
  }

  /** `n` blocks hold the tokens, and one block fewer would not. */
  predicate JustEnough(n: int, tokens: int, perBlock: int) {
    if tokens <= 0 then n == 0 else (n - 1) * perBlock < tokens <= n * perBlock
  }

  /** The division rounds up. */
  lemma CeilDivIsJustEnough(tokens: int, perBlock: int)
    requires perBlock > 0
    ensures JustEnough(CeilDiv(tokens, perBlock), tokens, perBlock)
  {
    if tokens > 0 {
      var x := tokens + perBlock - 1;
      var n := x / perBlock;
      assert x == n * perBlock + x % perBlock;
      assert (n - 1) * perBlock == n * perBlock - perBlock;
    }
  }

  /** Any number of blocks that holds the tokens is at least the one that is just enough. */
  lemma JustEnoughIsLeast(n: int, m: nat, tokens: int, perBlock: int)
    requires perBlock > 0 && JustEnough(n, tokens, perBlock) && tokens <= m * perBlock
    ensures n <= m
  {
    var k := n - 1 - m;
    assert k * perBlock == (n - 1) * perBlock - m * perBlock;
    assert k >= 0 ==> k * perBlock >= 0;
  }

  lemma JustEnoughIsUnique(n: int, m: int, tokens: int, perBlock: int)
    requires perBlock > 0 && JustEnough(n, tokens, perBlock) && JustEnough(m, tokens, perBlock)
    ensures n == m
  {
    if tokens > 0 {
      JustEnoughIsNatural(n, tokens, perBlock);
      JustEnoughIsNatural(m, tokens, perBlock);
      JustEnoughIsLeast(n, m, tokens, perBlock);
      JustEnoughIsLeast(m, n, tokens, perBlock);
    }
  }

  lemma JustEnoughIsNatural(n: int, tokens: int, perBlock: int)
    requires perBlock > 0 && JustEnough(n, tokens, perBlock)
    ensures n >= 0
  {
    assert n < 0 ==> n * perBlock < 0;
  }

  /** `n` blocks are just enough for a shared prefix, the rest of a prompt and the generated tokens, which
      never share a block. */
  ghost predicate JustEnoughFor(n: int, perBlock: int, prefix: int, suffix: int, generated: int) {
    exists a: int, b: int, c: int ::
      JustEnough(a, prefix, perBlock) && JustEnough(b, suffix, perBlock) && JustEnough(c, generated, perBlock)
      && n == a + b + c
  }

  lemma CeilDivsAreJustEnough(perBlock: int, prefix: int, suffix: int, generated: int)
    requires perBlock > 0
    ensures JustEnoughFor(CeilDiv(prefix, perBlock) + CeilDiv(suffix, perBlock) + CeilDiv(generated, perBlock),
                          perBlock, prefix, suffix, generated)
  {
    hide CeilDiv, JustEnough;
    CeilDivIsJustEnough(prefix, perBlock);
    CeilDivIsJustEnough(suffix, perBlock);
    CeilDivIsJustEnough(generated, perBlock);
  }

  // ---------------------------------------------------------------- blocks

  ghost function Ids(s: seq<nat>): set<nat> {
    set b | b in s
  }

  ghost function FreeSet(blocks: seq<Block>): set<nat> {
    set b: nat | b < |blocks| && !blocks[b].occupied
  }

  ghost function FreeCount(blocks: seq<Block>): nat {
    |FreeSet(blocks)|
  }

  ghost function UsedCount(blocks: seq<Block>): int {
    |blocks| - FreeCount(blocks)
  }

  /** Replaces each block in `ids` by its image under `f`. */
  ghost function Update(blocks: seq<Block>, ids: set<nat>, f: Block -> Block): (r: seq<Block>)
    ensures |r| == |blocks|
    ensures forall b: nat | b < |blocks| :: r[b] == if b in ids then f(blocks[b]) else blocks[b]
  {
    seq(|blocks|, b requires 0 <= b < |blocks| => if b in ids then f(blocks[b]) else blocks[b])
  }

  function Retain(b: Block): Block { b.(refCount := b.refCount + 1) }

  function Unretain(b: Block): Block { b.(refCount := b.refCount - 1) }

  function Freed(b: Block): Block { FREE }

  /** What dropping a sequence's hold does to a block: a cached prefix block stays resident. */
  function Dropped(b: Block): Block {
    var refs := if b.refCount > 0 then b.refCount - 1 else b.refCount;
    if refs == 0 && b.prefixKey == "" then FREE else b.(refCount := refs)
  }

  /** The `n` lowest free block ids from index `from` on (all of them, when there are fewer). */
  ghost function LowestFree(blocks: seq<Block>, from: nat, n: nat): seq<nat>
    requires from <= |blocks|
    decreases |blocks| - from
  {
    if n == 0 || from == |blocks| then []
    else if blocks[from].occupied then LowestFree(blocks, from + 1, n)
    else [from] + LowestFree(blocks, from + 1, n - 1)
  }

  // -------------------------------------------------------------- eviction

  ghost predicate InRange(ids: seq<nat>, n: nat) {
    forall i | 0 <= i < |ids| :: ids[i] < n
  }

  ghost predicate Distinct(ids: seq<nat>) {
    forall i, j | 0 <= i < j < |ids| :: ids[i] != ids[j]
  }

  ghost predicate EntryIsIdle(blocks: seq<Block>, entry: PrefixEntry) {
    forall b | b in entry.blockIds :: b < |blocks| && blocks[b].refCount == 0
  }

  /** The idle entries among `keys`, in the order of `keys`. */
  ghost function IdleAmong(kv: Kv, keys: seq<string>): seq<string>
    requires forall k | k in keys :: k in kv.prefixes
  {
    if keys == [] then []
    else (if EntryIsIdle(kv.blocks, kv.prefixes[keys[0]]) then [keys[0]] else []) + IdleAmong(kv, keys[1..])
  }

  ghost function IdleKeys(kv: Kv): seq<string> {
    IdleAmong(kv, KeyOrder.Sorted(kv.prefixes.Keys))
  }

  /** The shortest run of `keys` whose blocks bring `free` up to `need`; all of `keys` if none does. */
  ghost function Run(prefixes: map<string, PrefixEntry>, keys: seq<string>, free: int, need: int): seq<string>
    requires forall k | k in keys :: k in prefixes
  {
    if free >= need || keys == [] then []
    else [keys[0]] + Run(prefixes, keys[1..], free + |prefixes[keys[0]].blockIds|, need)
  }

  lemma IdleKeysAreCached(kv: Kv, keys: seq<string>)
    requires forall k | k in keys :: k in kv.prefixes
    ensures forall k :: k in IdleAmong(kv, keys) <==> k in keys && EntryIsIdle(kv.blocks, kv.prefixes[k])
  {
    if keys != [] {
      IdleKeysAreCached(kv, keys[1..]);
    }
  }

  /** The prefixes that must go so that `need` blocks are free. */
  ghost function Victims(kv: Kv, need: int): seq<string> {
    IdleKeysAreCached(kv, KeyOrder.Sorted(kv.prefixes.Keys));
    Run(kv.prefixes, IdleKeys(kv), FreeCount(kv.blocks), need)
  }

  ghost function BlocksOf(prefixes: map<string, PrefixEntry>, keys: seq<string>): set<nat> {
    set k, b | k in keys && k in prefixes && b in prefixes[k].blockIds :: b
  }

  ghost function DropEntries(kv: Kv, keys: seq<string>): Kv {
    kv.(blocks := Update(kv.blocks, BlocksOf(kv.prefixes, keys), Freed),
        prefixes := kv.prefixes - (set k | k in keys),
        stats := kv.stats.(evictions := kv.stats.evictions + |keys|))
  }

  ghost function Evict(kv: Kv, need: int): Kv {
    DropEntries(kv, Victims(kv, need))
  }

  // ------------------------------------------------------------ operations

  ghost function Occupy(kv: Kv, ids: seq<nat>, key: string): Kv {
    var blocks := Update(kv.blocks, Ids(ids), _ => Block(true, 1, key));
    kv.(blocks := blocks, stats := kv.stats.(highWatermark := Max(kv.stats.highWatermark, UsedCount(blocks))))
  }

  ghost function AllocateBlocks(kv: Kv, n: int, key: string): (Kv, seq<nat>) {
    if n <= 0 then (kv, []) else
      var roomy := Evict(kv, n);
      if FreeCount(roomy.blocks) < n
      then (roomy.(stats := roomy.stats.(failures := roomy.stats.failures + 1)), [])
      else
        var ids := LowestFree(roomy.blocks, 0, n);
        (Occupy(roomy, ids, key), ids)
  }

  /** How many prompt tokens the call may share under its prefix key. */
  function Cacheable(prompt: int, key: string, prefixTokens: int): (c: int)
    requires prompt >= 0
    ensures 0 <= c <= prompt
    ensures key == "" ==> c == 0
    ensures key != "" && prefixTokens < 0 ==> c == prompt
    ensures key != "" && prefixTokens >= 0 ==> c <= prefixTokens && (c == prompt || c == prefixTokens)
  {
    if key == "" then 0
    else Max(0, if prefixTokens < 0 then prompt else Min(prompt, prefixTokens))
  }

  function PrefixBlocks(perBlock: int, prompt: int, key: string, prefixTokens: int): (n: int)
    requires perBlock > 0 && prompt >= 0
    ensures n >= 0
  {
    CeilDiv(Cacheable(prompt, key, prefixTokens), perBlock)
  }

  function SuffixBlocks(perBlock: int, prompt: int, key: string, prefixTokens: int): (n: int)
    requires perBlock > 0 && prompt >= 0
    ensures n >= 0
  {
    CeilDiv(prompt - Cacheable(prompt, key, prefixTokens), perBlock)
  }

  ghost predicate IsHit(kv: Kv, cacheable: int, key: string) {
    cacheable > 0 && key in kv.prefixes && kv.prefixes[key].tokenCount == cacheable
  }

  /** Another sequence starts to share a cached prefix. */
  ghost function Hold(kv: Kv, key: string): Kv
    requires key in kv.prefixes
  {
    kv.(blocks := Update(kv.blocks, Ids(kv.prefixes[key].blockIds), Retain))
  }

  /** A prompt whose prefix is cached: share its blocks, allocate the rest. */
  ghost function AllocateHit(kv: Kv, id: string, prompt: int, key: string, p: int, s: int): (Kv, Allocation)
    requires key in kv.prefixes
  {
    var shared := kv.prefixes[key].blockIds;
    var (after, suffix) := AllocateBlocks(Hold(kv, key), s, "");
    if |suffix| != s
    then (after.(blocks := Update(after.blocks, Ids(shared), Unretain)), Failed("kv cache exhausted"))
    else (after.(sequences := after.sequences[id := Sequence(prompt, 0, p, shared + suffix)],
                 stats := after.stats.(prefixHits := after.stats.prefixHits + 1)),
          Allocation(true, true, p + s, ""))
  }

  /** A prompt whose prefix is not cached: allocate everything and cache the prefix, if it has one. */
  ghost function AllocateMiss(kv: Kv, id: string, prompt: int, key: string, cacheable: int, p: int, s: int)
    : (Kv, Allocation)
  {
    var (first, prefix) := AllocateBlocks(kv, p, key);
    if |prefix| != p then (first, Failed("kv cache exhausted")) else
      var (after, suffix) := AllocateBlocks(first, s, "");
      if |suffix| != s
      then (after.(blocks := Update(after.blocks, Ids(prefix), Freed)), Failed("kv cache exhausted"))
      else
        (after.(prefixes := if cacheable > 0 then after.prefixes[key := PrefixEntry(cacheable, prefix)] else after.prefixes,
                sequences := after.sequences[id := Sequence(prompt, 0, p, prefix + suffix)]),
         Allocation(true, false, p + s, ""))
  }

  ghost function AllocatePrompt(kv: Kv, id: string, promptTokens: int, key: string, prefixTokens: int)
    : (Kv, Allocation)
    requires kv.tokensPerBlock > 0
  {
    if id == "" then (kv, Failed("sequence id is required"))
    else if id in kv.sequences then (kv, Failed("sequence already exists"))
    else
      var prompt := Max(0, promptTokens);
      var cacheable := Cacheable(prompt, key, prefixTokens);
      var p := PrefixBlocks(kv.tokensPerBlock, prompt, key, prefixTokens);
      var s := SuffixBlocks(kv.tokensPerBlock, prompt, key, prefixTokens);
      if IsHit(kv, cacheable, key) then AllocateHit(kv, id, prompt, key, p, s)
      else
        var missed := if cacheable > 0 then kv.(stats := kv.stats.(prefixMisses := kv.stats.prefixMisses + 1)) else kv;
        AllocateMiss(missed, id, prompt, key, cacheable, p, s)
  }

  /** New blocks needed when a sequence grows from `before` by `count` generated tokens. */
  function GrowthBlocks(perBlock: int, before: int, count: int): int
    requires perBlock > 0
  {
    CeilDiv(before + count, perBlock) - CeilDiv(before, perBlock)
  }

  ghost function AppendTokens(kv: Kv, id: string, count: int): (Kv, Allocation)
    requires kv.tokensPerBlock > 0
  {
    if id !in kv.sequences then (kv, Failed("sequence does not exist"))
    else if count <= 0 then (kv, Allocation(true, false, 0, ""))
    else
      var sequence := kv.sequences[id];
      var n := GrowthBlocks(kv.tokensPerBlock, sequence.generatedTokens, count);
      var (after, ids) := AllocateBlocks(kv, n, "");
      if |ids| != n then (after, Failed("kv cache exhausted"))
      else
        (after.(sequences := after.sequences[id := sequence.(generatedTokens := sequence.generatedTokens + count,
                                                             blockIds := sequence.blockIds + ids)]),
         Allocation(true, false, n, ""))
  }

  ghost function ReleaseSequence(kv: Kv, id: string): Kv {
    if id !in kv.sequences then kv
    else kv.(blocks := Update(kv.blocks, Ids(kv.sequences[id].blockIds), Dropped),
             sequences := kv.sequences - {id})
  }

  ghost function SequenceBlockCount(kv: Kv, id: string): int {
    if id in kv.sequences then |kv.sequences[id].blockIds| else 0
  }

  ghost function Fresh(totalBlocks: int, tokensPerBlock: int): Kv {
    Kv(ClampPositive(tokensPerBlock, 1), seq(ClampPositive(totalBlocks, 1), _ => FREE), map[], map[], Stats(0, 0, 0, 0, 0))
  }

  /** What the allocator reports about itself. */
  datatype Snapshot = Snapshot(
    totalBlocks: int, usedBlocks: int, freeBlocks: int, activeSequences: int, cachedPrefixes: int, stats: Stats)

  ghost function SnapshotOf(kv: Kv): Snapshot {
    Snapshot(|kv.blocks|, UsedCount(kv.blocks), FreeCount(kv.blocks), |kv.sequences|, |kv.prefixes|, kv.stats)
  }
}
