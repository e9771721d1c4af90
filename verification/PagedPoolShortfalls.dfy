/** What the shared pool's memos do not keep, from a newly built pool. */
module PagedPoolShortfalls {
  import opened Wrappers
  import opened Arithmetic
  import opened FramePool
  import opened CacheStore
  import opened CacheAccounting
  import opened CacheLayout
  import opened CacheWrites
  import opened PagedPoolModel
  import opened PagedPoolMemos
  import opened PagedPoolRuns
  import CacheRuns
  import CacheShortfalls
  import PagedCacheRuns

  /** What a paged cache is built over. */
  ghost predicate Buildable(p: Pool, cfg: PoolConfig, root: nat) {
    && CacheShortfalls.Unused(p) && p.swap == None && cfg.tpb > 0 && TokensPerBlock(p) == cfg.tpb && TableCount(p) == 1 && cfg.spacer != Some(root)
    && p.shape.numKvHeads > 0 && p.width >= ElementCount(p.shape)
  }

  lemma NewlyBuilt(p: Pool, cfg: PoolConfig, root: nat)
    requires Buildable(p, cfg, root)
    ensures var s := PagedCacheRuns.FreshPoolState(p, root, cfg.spacer);
            && PoolInv(s, cfg) && MemosAgree(s, cfg) && BlockTableOf(s.store, root) == []
            && root in s.store.seqs && (forall k :: k in s.store.seqs ==> k == root || Some(k) == cfg.spacer)
            && s.tableLen == map[] && s.writable == None && |s.store.pool.free| == |p.infos| && ValidPool(s.store.pool)
  {
    hide PoolInv, MemosAgree, CacheRuns.Inv, ValidPool, ElementCount, PagedCacheRuns.FreshPoolState;
    CacheShortfalls.UnusedIsFree(p);
    var s := PagedCacheRuns.FreshPoolState(p, root, cfg.spacer);
    PagedCacheRuns.FreshStoreIs(p, root, cfg.spacer);
    PagedCacheRuns.FreshPoolInv(s, cfg, p, root);
    assert TableOf(s.store, root) == [];
  }

  lemma RoundsFit(cfg: PoolConfig, n: nat, free: nat)
    ensures 1 <= PerRound(cfg) <= 2 && 1 * PerRound(cfg) == PerRound(cfg) && 0 * PerRound(cfg) == 0
    ensures n > free ==> n * PerRound(cfg) > free
  {}

  /** The table holds n blocks and its record says none. */
  ghost predicate RecordsNothing(s: PoolState, cfg: PoolConfig, sid: nat, n: nat) {
    PoolInv(s, cfg) && !MemosAgree(s, cfg) && Have(s, sid) == 0 < |BlockTableOf(s.store, sid)| == n
  }

  /** Asked for nothing and then for one block more than there are frames, the second growth fails and leaves the record at zero. */
  ghost predicate GrowthLeavesStale(s0: PoolState, cfg: PoolConfig, sid: nat, frames: nat)
    requires ValidPool(s0.store.pool) && cfg.tpb > 0
  {
    hide *;
    var s1 := Run(s0, cfg, [Ensure(sid, 0)]);
    var (s2, ok) := Call(s1, cfg, Ensure(sid, (frames + 1) * cfg.tpb));
    && Successful(s0, cfg, [Ensure(sid, 0)]) && !ok
    && RecordsNothing(s2, cfg, sid, CeilDiv(frames, PerRound(cfg)))
  }

  lemma GrowthLeavesStaleFrom(s0: PoolState, s1: PoolState, s2: PoolState, ok: bool, cfg: PoolConfig, sid: nat, frames: nat)
    requires ValidPool(s0.store.pool) && cfg.tpb > 0 && ValidPool(s1.store.pool)
    requires s1 == Run(s0, cfg, [Ensure(sid, 0)]) && (s2, ok) == Call(s1, cfg, Ensure(sid, (frames + 1) * cfg.tpb))
    requires Successful(s0, cfg, [Ensure(sid, 0)]) && !ok && RecordsNothing(s2, cfg, sid, CeilDiv(frames, PerRound(cfg)))
    ensures GrowthLeavesStale(s0, cfg, sid, frames)
  {
    hide Run, Call, Successful, RecordsNothing, ValidPool;
  }

  /**
    Ask for nothing, so that a length is on record, then for more than the pool has: the growth
    fails with every frame taken, and the record still says the table is empty.
   */
  lemma StaleLengthIsReachable(p: Pool, cfg: PoolConfig, root: nat)
    requires Buildable(p, cfg, root) && |p.infos| > 0
    ensures ValidPool(PagedCacheRuns.FreshPoolState(p, root, cfg.spacer).store.pool)
    ensures GrowthLeavesStale(PagedCacheRuns.FreshPoolState(p, root, cfg.spacer), cfg, root, |p.infos|)
  {
    hide *;
    BuildableShows(p, cfg, root);
    NewlyBuilt(p, cfg, root);
    var s0 := PagedCacheRuns.FreshPoolState(p, root, cfg.spacer);
    var n := |p.infos|;
    WholeBlocks(0, cfg.tpb);
    WholeBlocks(n + 1, cfg.tpb);
    MaxIs(0, 0);
    MaxIs(0, n + 1);
    RoundsFit(cfg, n + 1, n);
    CoverOfSome(n, PerRound(cfg));
    EnsureCapacityIs(s0, cfg, root, 0);
    CallIs(s0, cfg, Ensure(root, 0));
    GuardIs(s0, cfg, Ensure(root, 0));
    RunOfOne(s0, cfg, Ensure(root, 0));
    var s1 := Call(s0, cfg, Ensure(root, 0)).0;
    PoolShows(s1, cfg);
    EnsureCapacityIs(s1, cfg, root, (n + 1) * cfg.tpb);
    CallIs(s1, cfg, Ensure(root, (n + 1) * cfg.tpb));
    var s2 := Call(s1, cfg, Ensure(root, (n + 1) * cfg.tpb)).0;
    GrewLayout(s1.store, s2.store, root, CeilDiv(n, PerRound(cfg)), cfg.spacer);
    RecordsNothingFrom(s2, cfg, root, CeilDiv(n, PerRound(cfg)));
    GrowthLeavesStaleFrom(s0, s1, s2, Call(s1, cfg, Ensure(root, (n + 1) * cfg.tpb)).1, cfg, root, n);
  }

  lemma RecordsNothingFrom(s: PoolState, cfg: PoolConfig, sid: nat, n: nat)
    requires PoolInv(s, cfg) && !MemosAgree(s, cfg) && sid in s.tableLen && s.tableLen[sid] == 0 < |BlockTableOf(s.store, sid)| == n
    ensures RecordsNothing(s, cfg, sid, n)
  {
    hide PoolInv, MemosAgree, BlockTableOf;
  }

  lemma BuildableShows(p: Pool, cfg: PoolConfig, root: nat)
    requires Buildable(p, cfg, root)
    ensures cfg.tpb > 0 && Some(root) != cfg.spacer && CacheShortfalls.Unused(p) && p.swap == None && TokensPerBlock(p) == cfg.tpb && TableCount(p) == 1
  {}

  lemma FirstBlockIsWritable(s: PoolState, cfg: PoolConfig, sid: nat)
    requires PoolInv(s, cfg) && sid in s.store.seqs && |BlockTableOf(s.store, sid)| > 0 && s.store.pool.free != []
    ensures Writable(s.store, sid, 0, 0)
  {
    hide PoolInv, CacheRuns.Inv, MemoryInv, BlockTableOf;
    PoolShows(s, cfg);
    OneTable(s.store, sid);
    BlockTableSize(s.store, sid);
    AlwaysResident(s.store, sid);
  }

  lemma NothingRemembered(s: PoolState, sid: nat, token: nat)
    ensures s.writable == None ==> !Remembers(s, sid, token)
  {}

  /** Grow by a block, ask for its frame, fork, and ask again: the frame is the child's as well. */
  lemma StaleFrameIsReachable(p: Pool, cfg: PoolConfig, root: nat, child: nat)
    requires Buildable(p, cfg, root) && |p.infos| >= 3 && child != root && Some(child) != cfg.spacer
    ensures ValidPool(PagedCacheRuns.FreshPoolState(p, root, cfg.spacer).store.pool)
    ensures var s0 := PagedCacheRuns.FreshPoolState(p, root, cfg.spacer);
            var ops := [Ensure(root, 1)] + [Resolve(root, 0), Branch(root, child)];
            var s := Run(s0, cfg, ops);
            Successful(s0, cfg, ops) && s.writable.Some? && AnswersStale(s, cfg, root, 0, s.writable.value.2, child)
  {
    hide *;
    BuildableShows(p, cfg, root);
    NewlyBuilt(p, cfg, root);
    var s0 := PagedCacheRuns.FreshPoolState(p, root, cfg.spacer);
    CacheShortfalls.OneToken(cfg.tpb);
    MaxIs(0, 1);
    RoundsFit(cfg, 1, 0);
    EnsureCapacityIs(s0, cfg, root, 1);
    CallIs(s0, cfg, Ensure(root, 1));
    GuardIs(s0, cfg, Ensure(root, 1));
    RunOfMore(s0, cfg, Ensure(root, 1), [Resolve(root, 0), Branch(root, child)]);
    var s1 := Call(s0, cfg, Ensure(root, 1)).0;
    PoolShows(s1, cfg);
    GrewLayout(s0.store, s1.store, root, 1, cfg.spacer);
    FirstBlockIsWritable(s1, cfg, root);
    NothingRemembered(s1, root, 0);
    ForkThenSameToken(s1, cfg, root, child, 0);
  }
}
