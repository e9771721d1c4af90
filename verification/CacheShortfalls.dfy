/** What the cache manager does not keep, at a state that a short run reaches. */
module CacheShortfalls {
  import opened Wrappers
  import opened Arithmetic
  import opened SwapStore
  import opened FramePool
  import opened PageTable
  import opened CacheStore
  import opened CacheAccounting
  import opened CacheRefinement
  import opened CacheWrites
  import opened CacheLifecycle
  import opened CachePrefixes
  import opened CacheSharing
  import opened PrivateStore
  import opened CacheRuns
  import opened CacheTheorems
  import Allocator
  import FrameReuse
  import PagedPoolModel

  /** A pool no frame of which is in use, without a swap backend or with an empty one. */
  ghost predicate Unused(p: Pool) {
    ValidPool(p) && (p.swap.Some? ==> p.swap.value.slots == map[]) && forall f :: 0 <= f < |p.infos| ==> p.infos[f].refs == 0
  }

  /** Such as one whose frames were just bound. */
  lemma FreshPoolIsUnused(shape: BlockShape, width: nat, slab: seq<Frame>)
    requires forall f :: 0 <= f < |slab| ==> |slab[f]| == width
    ensures Unused(Allocator.FreshPool(shape, width, slab)) && |Allocator.FreshPool(shape, width, slab).infos| == |slab|
  {
    FrameReuse.NewPoolIsValid(shape, width, slab);
  }

  lemma UnusedIsFree(p: Pool)
    requires Unused(p)
    ensures ValidPool(p) && (p.swap.Some? ==> p.swap.value.slots == map[]) && EmptyStore(p).pool == p
    ensures Inv(EmptyStore(p)) && |p.free| == |p.infos|
  {
    FreshStoreInv(p);
    StatisticsAgree(p);
    AllInState(p.infos);
  }

  /** One sequence with one block per table: created, then grown by one token. */
  lemma OneBlock(p: Pool, sid: nat, request: nat)
    requires Unused(p) && TokensPerBlock(p) > 0 && TableCount(p) <= |p.infos|
    ensures ValidPool(p)
    ensures var st1 := CreateSequence(EmptyStore(p), sid, request).0;
            var (st, ok) := ReserveTokens(st1, sid, 1);
            && ok && Inv(st) && SameLayout(p, st.pool) && st.seqs.Keys == {sid} && st.byRequest == map[request := [sid]] && st.prefixes == map[]
            && st.seqs[sid].request == request && st.seqs[sid].key == ""
            && st.seqs[sid].tables != [] && |st.seqs[sid].tables[0]| == 1 && AllResident(st.seqs[sid].tables)
            && |st.pool.free| == |p.infos| - TableCount(p) && st.pool.swap == p.swap
  {
    hide *;
    UnusedIsFree(p);
    CreateInv(EmptyStore(p), sid, request);
    var st1 := CreateSequence(EmptyStore(p), sid, request).0;
    InvParts(st1);
    OneToken(TokensPerBlock(p));
    CreatedIs(p, sid, request);
    ReserveRefines(st1, sid, 1);
    ReserveInv(st1, sid, 1);
    var st := ReserveTokens(st1, sid, 1).0;
    ReserveLayout(st1, sid, 1);
    InvParts(st);
    ReserveKeepsSwap(st1, sid, 1);
    PagedPoolModel.AlwaysResident(st, sid);
    FirstTable(st, sid);
    FirstTable(st1, sid);
    EmptyFirstTable(TableCount(p));
    GrownByOne(st1, st, sid);
  }

  lemma EmptyFirstTable(n: nat)
    ensures n > 0 ==> seq<Table>(n, _ => [])[0] == []
  {}

  lemma {:induction false} GrowTableKeepsSwap(p: Pool, t: Table, sid: nat, tpb: nat, index: nat, count: nat)
    requires ValidPool(p)
    ensures GrowTable(p, t, sid, tpb, index, count).0.swap == p.swap
    decreases count
  {
    hide ValidPool;
    if count > 0 && p.free != [] {
      var (q, id) := Allocate(p);
      GrowTableKeepsSwap(q, MapEntry(t, LogicalBlock(sid, index, index * tpb, tpb), id.value, true), sid, tpb, index + 1, count - 1);
    }
  }

  lemma {:induction false} GrowTablesKeepSwap(p: Pool, tables: seq<Table>, sid: nat, tpb: nat, count: nat)
    requires ValidPool(p)
    ensures GrowTables(p, tables, sid, tpb, count).0.swap == p.swap
    decreases |tables|
  {
    hide ValidPool, GrowTable;
    if tables != [] {
      GrowTableKeepsSwap(p, tables[0], sid, tpb, |tables[0]|, count);
      GrowTablesKeepSwap(GrowTable(p, tables[0], sid, tpb, |tables[0]|, count).0, tables[1..], sid, tpb, count);
    }
  }

  lemma ReserveKeepsSwap(st: Store, sid: nat, tokens: nat)
    requires ValidPool(st.pool)
    ensures ReserveTokens(st, sid, tokens).0.pool.swap == st.pool.swap
  {
    hide ValidPool, GrowTables, CeilDiv;
    if TokensPerBlock(st.pool) > 0 && sid in st.seqs {
      GrowTablesKeepSwap(st.pool, st.seqs[sid].tables, sid, TokensPerBlock(st.pool), CeilDiv(tokens, TokensPerBlock(st.pool)));
    }
  }

  lemma OneToken(tpb: nat)
    requires tpb > 0
    ensures CeilDiv(1, tpb) == 1
  {
    CeilDivIsLeastCover(1, tpb, 1);
    CeilDivIsLeastCover(1, tpb, 0);
  }

  lemma CreatedIs(p: Pool, sid: nat, request: nat)
    ensures EmptyStore(p) == Store(p, map[], map[], map[])
    ensures CreateSequence(EmptyStore(p), sid, request).0
         == Store(p, map[sid := Sequence(request, seq(TableCount(p), _ => []), "", 0)], map[request := [sid]], map[])
  {
    var none: seq<nat> := [];
    assert none + [sid] == [sid];
  }

  lemma GrownByOne(st: Store, st': Store, sid: nat)
    requires sid in st.seqs && sid in st'.seqs && PGrows(Abs(st), sid, 1, Abs(st'))
    requires st.seqs[sid].tables != [] && st'.seqs[sid].tables != []
    ensures |st'.seqs[sid].tables[0]| == |st.seqs[sid].tables[0]| + 1
  {
    AbsShows(st, sid, "");
    AbsShows(st', sid, "");
    assert |Blocks(st'.pool, st'.seqs[sid].tables)[0]| == |st'.seqs[sid].tables[0]|;
    assert |Blocks(st.pool, st.seqs[sid].tables)[0]| == |st.seqs[sid].tables[0]|;
  }

  /**
    Create, reserve, publish under "a", publish under "b": the second publication breaks the
    invariant, and releasing the only sequence then leaves the first record behind.
   */
  lemma SecondKeyIsReachable(p: Pool, hash: ContentHash)
    requires Unused(p) && TokensPerBlock(p) > 0 && TableCount(p) <= |p.infos|
    ensures ValidPool(p)
    ensures var st := Run(EmptyStore(p), [Create(0, 0), Reserve(0, 1), Publish(0, "a")], hash);
            var broken := Step(st, Publish(0, "b"), hash).0;
            var drained := Step(broken, ReleaseOne(0), hash).0;
            && Inv(st) && !Disciplined(st, Publish(0, "b")) && !Inv(broken)
            && drained.seqs == map[] && "a" in drained.prefixes
  {
    hide *;
    UnusedIsFree(p);
    CreatedPool(p);
    OneBlock(p, 0, 0);
    var st2 := ReserveTokens(CreateSequence(EmptyStore(p), 0, 0).0, 0, 1).0;
    RunOfThree(EmptyStore(p), Create(0, 0), Reserve(0, 1), Publish(0, "a"), hash);
    StepIs(EmptyStore(p), Create(0, 0), hash);
    FlagIs(CreateSequence(EmptyStore(p), 0, 0));
    var st1 := CreateSequence(EmptyStore(p), 0, 0).0;
    InvParts(st2);
    StepIs(st1, Reserve(0, 1), hash);
    FlagIs(ReserveTokens(st1, 0, 1));
    FirstKey(st2, 0, "a", hash);
    StepIs(st2, Publish(0, "a"), hash);
    FlagIs(PublishPrefix(st2, 0, "a", hash));
    var st := PublishPrefix(st2, 0, "a", hash).0;
    InvParts(st);
    SecondKey(st, 0, "a", "b", hash);
    StepIs(st, Publish(0, "b"), hash);
    FlagIs(PublishPrefix(st, 0, "b", hash));
    var broken := PublishPrefix(st, 0, "b", hash).0;
    StepIs(broken, ReleaseOne(0), hash);
  }

  lemma CreatedPool(p: Pool)
    ensures CreateSequence(EmptyStore(p), 0, 0).0.pool == p && EmptyStore(p).pool == p
  {}

  lemma RunOfThree(st: Store, a: Op, b: Op, c: Op, hash: ContentHash)
    requires ValidPool(st.pool)
    ensures Run(st, [a, b, c], hash) == Step(Step(Step(st, a, hash).0, b, hash).0, c, hash).0
  {
    hide Step, ValidPool;
    var st1 := Step(st, a, hash).0;
    var st2 := Step(st1, b, hash).0;
    assert [a, b, c][1..] == [b, c] && [b, c][1..] == [c] && [c][1..] == [];
    assert Run(st2, [c], hash) == Run(Step(st2, c, hash).0, [], hash);
    assert Run(st1, [b, c], hash) == Run(st2, [c], hash);
  }

  /** A first publication of a resident, keyless sequence is accepted and keeps the invariant. */
  lemma FirstKey(st: Store, sid: nat, key: string, hash: ContentHash)
    requires Inv(st) && sid in st.seqs && st.seqs[sid].key == "" && key != "" && st.prefixes == map[]
    requires st.seqs[sid].tables != [] && st.seqs[sid].tables[0] != [] && AllResident(st.seqs[sid].tables)
    ensures ValidPool(st.pool)
    ensures var (st', ok) := PublishPrefix(st, sid, key, hash);
            && ok && Inv(st') && st'.seqs.Keys == st.seqs.Keys && key in st'.prefixes
            && st'.seqs[sid] == st.seqs[sid].(key := key, hash := st'.seqs[sid].hash)
  {
    hide *;
    InvParts(st);
    KeylessIsDisciplined(st, sid, key);
    StepPublish(st, sid, key, hash);
    PublishIs(st, sid, key, hash);
  }

  lemma KeylessIsDisciplined(st: Store, sid: nat, key: string)
    ensures sid in st.seqs && st.seqs[sid].key == "" ==> Disciplined(st, Publish(sid, key))
  {}

  lemma SecondKey(st: Store, sid: nat, first: string, key: string, hash: ContentHash)
    requires Inv(st) && st.seqs.Keys == {sid} && st.seqs[sid].key == first && first in st.prefixes
    requires first != "" && key != "" && key != first
    requires st.seqs[sid].tables != [] && st.seqs[sid].tables[0] != [] && AllResident(st.seqs[sid].tables)
    ensures ValidPool(st.pool) && !Disciplined(st, Publish(sid, key))
    ensures var broken := PublishPrefix(st, sid, key, hash).0;
            && !Inv(broken) && ReleaseSequence(broken, sid).seqs == map[] && first in ReleaseSequence(broken, sid).prefixes
  {
    hide PublishPrefix, MemoryInv, PrefixInv, IndexInv, AllResident;
    InvParts(st);
    PublishKeepsPrefixesIff(st, sid, key, hash);
    PublishIs(st, sid, key, hash);
    var broken := PublishPrefix(st, sid, key, hash).0;
    assert broken.seqs.Keys == {sid} && broken.seqs[sid].key == key && first in broken.prefixes;
    ReleaseKeepsOtherKeys(broken, sid, first);
  }

  /** Releasing a sequence drops its own key's use and no other record. */
  lemma ReleaseKeepsOtherKeys(st: Store, sid: nat, key: string)
    requires ValidPool(st.pool) && st.seqs.Keys == {sid} && st.seqs[sid].key != key && key in st.prefixes
    ensures ReleaseSequence(st, sid).seqs == map[] && key in ReleaseSequence(st, sid).prefixes
  {
    hide ValidPool, FreeAll, Flat, Frames, Unindex;
    var st1 := DropPrefixUser(st, sid);
    assert key in st1.prefixes && st1.seqs.Keys == {sid};
    assert st1.seqs - {sid} == map[];
  }

  /** An allocator call with a slot that was never stored, on an unused pool with a new backend. */
  lemma UnknownSlotAges(p: Pool, slot: nat)
    requires Unused(p) && |p.infos| > 0
    ensures var q := p.(swap := Some(SwapSpace(1, 0, map[])));
            ValidPool(q) && SwapIn(q, slot).1.None? && !GenerationsTrack(q, SwapIn(q, slot).0)
  {
    UnusedIsFree(p);
    var q := p.(swap := Some(SwapSpace(1, 0, map[])));
    assert ValidPool(q);
    SwapInGeneration(q, slot);
  }

  /** The manager never makes that call: a block in swap names a live slot. */
  lemma SwappedBlockHasSlot(st: Store, sid: nat, layer: nat, block: nat)
    requires Inv(st) && sid in st.seqs && layer < |st.seqs[sid].tables| && block < |st.seqs[sid].tables[layer]|
    ensures var e := st.seqs[sid].tables[layer][block];
            e.slot.Some? ==> st.pool.swap.Some? && e.slot.value in st.pool.swap.value.slots
  {
    EntryIsCounted(st, sid, layer, block);
    hide Inv, MemoryInv;
  }
}
