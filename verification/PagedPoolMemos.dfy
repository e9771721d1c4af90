/** Each pool operation keeps the memo tables in step with the page table. */
module PagedPoolMemos {
  import opened Wrappers
  import opened Arithmetic
  import opened SwapStore
  import opened FramePool
  import opened PageTable
  import opened CacheStore
  import opened CacheAccounting
  import opened CacheRefinement
  import opened CacheWrites
  import opened PrivateStore
  import opened PagedPoolModel
  import CacheLifecycle
  import CachePrefixes
  import CacheRuns

  // ---- Capacity ---------------------------------------------------------------------------------------

  lemma AllButOne(s: PoolState, cfg: PoolConfig, sid: nat)
    ensures MemosAgree(s, cfg) <==> MemosAgreeBut(s, cfg, sid) && LengthAgrees(s, sid)
  {
    hide BlockTableOf;
  }

  lemma RecordLength(s: PoolState, cfg: PoolConfig, sid: nat, n: nat)
    requires MemosAgreeBut(s, cfg, sid) && sid in s.store.seqs && Some(sid) != cfg.spacer && n == |BlockTableOf(s.store, sid)|
    ensures MemosAgree(s.(tableLen := s.tableLen[sid := n]), cfg)
  {
    hide BlockTableOf;
    var s1 := s.(tableLen := s.tableLen[sid := n]);
    forall k
      ensures TableAgrees(s1, k) && LengthAgrees(s1, k) && ContextAgrees(s1, k)
    {
      assert TableAgrees(s, k) && (k != sid ==> LengthAgrees(s, k)) && ContextAgrees(s, k);
    }
  }

  lemma HaveIs(s: PoolState, sid: nat)
    requires LengthAgrees(s, sid)
    ensures Have(s, sid) == |BlockTableOf(s.store, sid)|
  {}

  /**
    Growth succeeds exactly when the missing blocks, and a spacer's, are free; it brings the table
    to exactly the blocks asked for, never fewer than before, and records its true length.  A
    growth that runs out leaves the recorded length stale exactly when there was one and the pool
    was not empty to begin with.
   */
  lemma EnsureCapacityIs(s: PoolState, cfg: PoolConfig, sid: nat, total: nat)
    requires PoolInv(s, cfg) && MemosAgree(s, cfg) && Some(sid) != cfg.spacer && sid in s.store.seqs
    ensures ValidPool(s.store.pool)
    ensures var (s', ok) := EnsureCapacity(s, cfg, sid, total);
            var have, need, free := |BlockTableOf(s.store, sid)|, CeilDiv(total, cfg.tpb), |s.store.pool.free|;
            var missing := Max(have, need) - have;
            && PoolInv(s', cfg) && s'.writable == s.writable
            && (ok <==> missing * PerRound(cfg) <= free)
            && (ok ==> MemosAgree(s', cfg) && Grew(s.store, s'.store, sid, missing, cfg.spacer))
            && (ok ==> |BlockTableOf(s'.store, sid)| == Max(have, need) && s'.tableLen == s.tableLen[sid := Max(have, need)])
            && (ok ==> |s'.store.pool.free| == free - missing * PerRound(cfg))
            && (ok && need <= have ==> s'.store == s.store)
            && (!ok ==>
                  && MemosAgreeBut(s', cfg, sid) && s'.tableLen == s.tableLen
                  && Grew(s.store, s'.store, sid, CeilDiv(free, PerRound(cfg)), cfg.spacer) && s'.store.pool.free == []
                  && (MemosAgree(s', cfg) <==> sid !in s.tableLen || s.store.pool.free == []))
  {
    hide *;
    PoolShows(s, cfg);
    AllButOne(s, cfg, sid);
    HaveIs(s, sid);
    var have, need, free := |BlockTableOf(s.store, sid)|, CeilDiv(total, cfg.tpb), |s.store.pool.free|;
    var missing := if need > have then need - have else 0;
    CapacityUnfolds(s, cfg, sid, total);
    GrowBlocksGrows(s, cfg, sid, missing);
    var (s1, ok) := GrowBlocks(s, cfg, sid, missing);
    MaxIs(have, need);
    GrowZero(s, cfg, sid);
    if ok {
      GrewLayout(s.store, s1.store, sid, missing, cfg.spacer);
      RecordLength(s1, cfg, sid, have + missing);
      RecordKeepsPool(s1, cfg, sid, have + missing);
    } else {
      GrewLayout(s.store, s1.store, sid, CeilDiv(free, PerRound(cfg)), cfg.spacer);
      CoverOfSome(free, PerRound(cfg));
      AllButOne(s1, cfg, sid);
      StaleIff(s, s1, sid);
    }
  }

  lemma CoverOfSome(a: nat, b: nat)
    requires b > 0
    ensures CeilDiv(a, b) == 0 <==> a == 0
  {
    CeilDivIsLeastCover(a, b, 0);
  }

  lemma StaleIff(s: PoolState, s1: PoolState, sid: nat)
    requires LengthAgrees(s, sid) && s1.tableLen == s.tableLen
    ensures LengthAgrees(s1, sid) <==> sid !in s.tableLen || |BlockTableOf(s1.store, sid)| == |BlockTableOf(s.store, sid)|
  {}

  lemma RecordKeepsPool(s: PoolState, cfg: PoolConfig, sid: nat, n: nat)
    requires PoolInv(s, cfg)
    ensures PoolInv(s.(tableLen := s.tableLen[sid := n]), cfg)
  {}

  lemma CapacityUnfolds(s: PoolState, cfg: PoolConfig, sid: nat, total: nat)
    requires ValidPool(s.store.pool) && cfg.tpb > 0
    ensures var have, need := Have(s, sid), CeilDiv(total, cfg.tpb);
            var missing := if need > have then need - have else 0;
            var (s1, ok) := GrowBlocks(s, cfg, sid, missing);
            EnsureCapacity(s, cfg, sid, total) ==
            if ok then (s1.(tableLen := s1.tableLen[sid := have + missing]), true) else (s1, false)
  {
    hide GrowBlocks, Have, CeilDiv, ValidPool;
  }

  // ---- Resolving a frame for a write ------------------------------------------------------------------

  /** The remembered frame is still the token's own. */
  ghost predicate FreshMemo(s: PoolState, cfg: PoolConfig, sid: nat, from: nat)
    requires cfg.tpb > 0
  {
    s.writable.Some? && s.writable.value.0 == sid && s.writable.value.1 >= from ==>
      Exclusive(s.store, sid, 0, s.writable.value.1 / cfg.tpb, s.writable.value.2)
  }

  /** Everybody reads what they read; at most sid's entry for this block maps another frame. */
  ghost predicate Remapped(st: Store, st': Store, sid: nat, block: nat, frame: nat) {
    && st'.seqs.Keys == st.seqs.Keys && sid in st.seqs && SameLayout(st.pool, st'.pool)
    && (forall k :: k in st.seqs && k != sid ==> st'.seqs[k] == st.seqs[k])
    && (forall k :: k in st.seqs ==> Reading(st', k) == Reading(st, k))
    && block < |BlockTableOf(st, sid)| && BlockTableOf(st', sid) == BlockTableOf(st, sid)[block := frame]
  }

  lemma EnsureRemaps(st: Store, sid: nat, token: nat)
    requires CacheRuns.Inv(st) && TableCount(st.pool) == 1
    ensures ValidPool(st.pool)
    ensures var (st', frame) := EnsureTokenWritable(st, sid, token, 0);
            && (frame.None? ==> st' == st)
            && (frame.Some? ==>
                  && TokensPerBlock(st.pool) > 0 && CacheRuns.Inv(st')
                  && Remapped(st, st', sid, token / TokensPerBlock(st.pool), frame.value)
                  && Exclusive(st', sid, 0, token / TokensPerBlock(st.pool), frame.value))
  {
    CacheRuns.InvParts(st);
    CacheRuns.WriteInv(st, sid, token, 0, []);
    EnsureWritableRefines(st, sid, token, 0);
    var (st', frame) := EnsureTokenWritable(st, sid, token, 0);
    if frame.Some? {
      TargetIsReady(st, sid, token, 0);
      EnsureIs(st, sid, token, 0);
      OneTable(st, sid);
      CacheRuns.InvParts(st');
      EnsureEntry(st, sid, token);
      hide *;
      LayoutNumbers(st.pool, st'.pool);
      forall k | k in st.seqs
        ensures Reading(st', k) == Reading(st, k)
      {
        AbsReads(st, k);
        CacheLifecycle.AbsShows(st, 0, "");
        CacheLifecycle.AbsShows(st', 0, "");
        AbsReads(st', k);
      }
      RemappedFrom(st, st', sid, token / TokensPerBlock(st.pool), frame.value);
    }
  }

  lemma RemappedFrom(st: Store, st': Store, sid: nat, block: nat, frame: nat)
    requires sid in st.seqs && sid in st'.seqs && st'.seqs == st.seqs[sid := st'.seqs[sid]] && SameLayout(st.pool, st'.pool)
    requires forall k :: k in st.seqs ==> Reading(st', k) == Reading(st, k)
    requires block < |BlockTableOf(st, sid)| && BlockTableOf(st', sid) == BlockTableOf(st, sid)[block := frame]
    ensures Remapped(st, st', sid, block, frame)
  {
    hide Reading, BlockTableOf, SameLayout;
  }

  lemma EnsureEntry(st: Store, sid: nat, token: nat)
    requires MemoryInv(st) && TableCount(st.pool) == 1 && EnsureTokenWritable(st, sid, token, 0).1.Some?
    ensures var (st', frame) := EnsureTokenWritable(st, sid, token, 0);
            && sid in st.seqs && sid in st'.seqs && st'.seqs == st.seqs[sid := st'.seqs[sid]]
            && TokensPerBlock(st.pool) > 0
            && token / TokensPerBlock(st.pool) < |BlockTableOf(st, sid)|
            && BlockTableOf(st', sid) == BlockTableOf(st, sid)[token / TokensPerBlock(st.pool) := frame.value]
  {
    hide *;
    EnsureWritableRefines(st, sid, token, 0);
    TargetIsReady(st, sid, token, 0);
    PoolIsValid(st);
    WritableShows(st, sid, token);
    EnsureIs(st, sid, token, 0);
    OneTable(st, sid);
    var i := token / TokensPerBlock(st.pool);
    var e := st.seqs[sid].tables[0][i];
    BlockTableSize(st, sid);
    if st.pool.infos[e.physical].refs == 1 {
      PutEntryPhysical(st, st.pool, sid, i, e.(writable := true));
    } else {
      var (p, copy) := Allocate(st.pool);
      var q := Release(CopyBlock(p, e.physical, copy.value), e.physical);
      PutEntryPhysical(st, q, sid, i, e.(physical := copy.value, writable := true));
    }
  }

  lemma WritableShows(st: Store, sid: nat, token: nat)
    requires Writable(st, sid, token, 0)
    ensures TokensPerBlock(st.pool) > 0 && sid in st.seqs && 0 < |st.seqs[sid].tables|
    ensures token / TokensPerBlock(st.pool) < |st.seqs[sid].tables[0]|
  {}

  lemma BlockTableSize(st: Store, sid: nat)
    requires sid in st.seqs && |st.seqs[sid].tables| == 1
    ensures |BlockTableOf(st, sid)| == |st.seqs[sid].tables[0]|
  {}

  lemma PutEntryPhysical(st: Store, p: Pool, sid: nat, i: nat, e: Entry)
    requires sid in st.seqs && |st.seqs[sid].tables| == 1 && i < |st.seqs[sid].tables[0]|
    ensures var st' := PutEntry(st, p, sid, 0, i, e);
            && sid in st'.seqs && st'.seqs == st.seqs[sid := st'.seqs[sid]]
            && i < |BlockTableOf(st, sid)| && BlockTableOf(st', sid) == BlockTableOf(st, sid)[i := e.physical]
  {}

  lemma PutPool(s: PoolState, cfg: PoolConfig, st: Store)
    requires PoolInv(s, cfg) && CacheRuns.Inv(st) && SameLayout(s.store.pool, st.pool) && st.seqs.Keys == s.store.seqs.Keys
    ensures PoolInv(s.(store := st), cfg)
  {
    PoolAfterGrowth(s, cfg, st);
  }

  lemma RemappedShows(st: Store, st': Store, sid: nat, block: nat, frame: nat)
    requires Remapped(st, st', sid, block, frame)
    ensures st'.seqs.Keys == st.seqs.Keys && sid in st.seqs && SameLayout(st.pool, st'.pool)
    ensures block < |BlockTableOf(st, sid)| && BlockTableOf(st', sid) == BlockTableOf(st, sid)[block := frame]
    ensures forall k :: k in st.seqs && k != sid ==> BlockTableOf(st', k) == BlockTableOf(st, k)
    ensures forall k :: k !in st.seqs ==> BlockTableOf(st', k) == BlockTableOf(st, k)
  {}

  /** A remapping write drops the cached table exactly when the table no longer says the truth. */
  lemma MemosAfterRemap(s: PoolState, cfg: PoolConfig, st: Store, sid: nat, token: nat, frame: nat)
    requires MemosAgree(s, cfg) && cfg.tpb > 0 && Remapped(s.store, st, sid, token / cfg.tpb, frame)
    ensures var stale := sid in s.hostFrames
                         && (token / cfg.tpb >= |s.hostFrames[sid]| || s.hostFrames[sid][token / cfg.tpb] != frame);
            var s1 := (if stale then Invalidate(s.(store := st), sid) else s.(store := st)).(writable := Some((sid, token, frame)));
            MemosAgree(s1, cfg) && s1.store == st && s1.tableLen == s.tableLen
  {
    hide Remapped, BlockTableOf, Reading, SameLayout, MemosAgree, Invalidate;
    var block := token / cfg.tpb;
    RemappedShows(s.store, st, sid, block, frame);
    if sid in s.hostFrames && (block >= |s.hostFrames[sid]| || s.hostFrames[sid][block] != frame) {
      MemosDropped(s, cfg, st, sid);
      MemosIgnoreWritable(Invalidate(s.(store := st), sid), cfg, Some((sid, token, frame)));
      InvalidateKeeps(s.(store := st), cfg, sid);
    } else {
      MemosKept(s, cfg, st, sid, block, frame);
      MemosIgnoreWritable(s.(store := st), cfg, Some((sid, token, frame)));
    }
  }

  lemma MemosIgnoreWritable(s: PoolState, cfg: PoolConfig, w: Option<(nat, nat, nat)>)
    requires MemosAgree(s, cfg)
    ensures MemosAgree(s.(writable := w), cfg)
  {
    hide BlockTableOf;
    var s1 := s.(writable := w);
    forall k
      ensures TableAgrees(s1, k) && LengthAgrees(s1, k) && ContextAgrees(s1, k)
    {
      assert TableAgrees(s, k) && LengthAgrees(s, k) && ContextAgrees(s, k);
    }
  }

  lemma MemosDropped(s: PoolState, cfg: PoolConfig, st: Store, sid: nat)
    requires MemosAgree(s, cfg) && st.seqs.Keys == s.store.seqs.Keys
    requires forall k :: k != sid ==> BlockTableOf(st, k) == BlockTableOf(s.store, k)
    requires |BlockTableOf(st, sid)| == |BlockTableOf(s.store, sid)|
    ensures MemosAgree(Invalidate(s.(store := st), sid), cfg)
  {
    hide BlockTableOf;
    var s1 := Invalidate(s.(store := st), sid);
    forall k
      ensures TableAgrees(s1, k) && LengthAgrees(s1, k) && ContextAgrees(s1, k)
    {
      assert TableAgrees(s, k) && LengthAgrees(s, k) && ContextAgrees(s, k);
    }
  }

  lemma MemosKept(s: PoolState, cfg: PoolConfig, st: Store, sid: nat, block: nat, frame: nat)
    requires MemosAgree(s, cfg) && st.seqs.Keys == s.store.seqs.Keys
    requires forall k :: k != sid ==> BlockTableOf(st, k) == BlockTableOf(s.store, k)
    requires block < |BlockTableOf(s.store, sid)| && BlockTableOf(st, sid) == BlockTableOf(s.store, sid)[block := frame]
    requires sid in s.hostFrames ==> block < |s.hostFrames[sid]| && s.hostFrames[sid][block] == frame
    ensures MemosAgree(s.(store := st), cfg)
  {
    hide BlockTableOf;
    var s1 := s.(store := st);
    forall k
      ensures TableAgrees(s1, k) && LengthAgrees(s1, k) && ContextAgrees(s1, k)
    {
      assert TableAgrees(s, k) && LengthAgrees(s, k) && ContextAgrees(s, k);
      if k == sid && sid in s.devTable {
        PrefixUnchanged(s.devTable[sid], BlockTableOf(s.store, sid), block, frame);
      }
    }
  }

  lemma PrefixUnchanged(xs: seq<nat>, ys: seq<nat>, i: nat, x: nat)
    requires xs <= ys && i < |ys| && i < |xs| && xs[i] == x
    ensures xs <= ys[i := x]
  {}

  /** The token's frame was found or made, and is its own; nobody reads a difference. */
  ghost predicate ResolvedTo(s: PoolState, s': PoolState, cfg: PoolConfig, sid: nat, token: nat, frame: nat)
    requires cfg.tpb > 0
  {
    hide *;
    && PoolInv(s', cfg) && MemosAgree(s', cfg) && sid in s.store.seqs
    && s'.writable == Some((sid, token, frame)) && s'.tableLen == s.tableLen
    && Remapped(s.store, s'.store, sid, token / cfg.tpb, frame)
    && Exclusive(s'.store, sid, 0, token / cfg.tpb, frame)
  }

  lemma ResolvedMeans(s: PoolState, s': PoolState, cfg: PoolConfig, sid: nat, token: nat, frame: Option<nat>)
    requires cfg.tpb > 0
    ensures frame.Some? ==>
              (ResolvedTo(s, s', cfg, sid, token, frame.value) <==>
               && PoolInv(s', cfg) && MemosAgree(s', cfg) && sid in s.store.seqs
               && s'.writable == Some((sid, token, frame.value)) && s'.tableLen == s.tableLen
               && Remapped(s.store, s'.store, sid, token / cfg.tpb, frame.value)
               && Exclusive(s'.store, sid, 0, token / cfg.tpb, frame.value))
  {
    hide PoolInv, MemosAgree, Remapped, Exclusive;
  }

  /** The token that asked last asks again. */
  predicate Remembers(s: PoolState, sid: nat, token: nat) {
    s.writable.Some? && s.writable.value.0 == sid && s.writable.value.1 == token
  }

  /**
    Every outcome of asking for a frame: a remembered token gets the remembered frame and nothing
    else happens; any other token gets a frame of its own exactly when its block is there and
    private or a spare frame exists, and a refusal changes nothing.  The memos agree throughout.
   */
  lemma WritableFrameIs(s: PoolState, cfg: PoolConfig, sid: nat, token: nat)
    requires cfg.tpb > 0 && PoolInv(s, cfg) && MemosAgree(s, cfg)
    ensures ValidPool(s.store.pool)
    ensures var (s', frame) := WritableFrame(s, cfg, sid, token);
            && PoolInv(s', cfg) && MemosAgree(s', cfg)
            && (frame.Some? <==> Remembers(s, sid, token) || Writable(s.store, sid, token, 0))
            && (frame.None? ==> s' == s)
            && (Remembers(s, sid, token) ==> s' == s && frame == Some(s.writable.value.2))
            && (frame.Some? && !Remembers(s, sid, token) ==> ResolvedTo(s, s', cfg, sid, token, frame.value))
  {
    hide *;
    PoolShows(s, cfg);
    ResolvedMeans(s, WritableFrame(s, cfg, sid, token).0, cfg, sid, token, WritableFrame(s, cfg, sid, token).1);
    WritableUnfolds(s, cfg, sid, token);
    RemembersMeans(s, sid, token);
    if !Remembers(s, sid, token) {
      EnsureRemaps(s.store, sid, token);
      EnsureWritableRefines(s.store, sid, token, 0);
      var (st, frame) := EnsureTokenWritable(s.store, sid, token, 0);
      if frame.Some? {
        RemappedShows(s.store, st, sid, token / cfg.tpb, frame.value);
        PutPool(s, cfg, st);
        MemosAfterRemap(s, cfg, st, sid, token, frame.value);
        PoolIgnoresMemos(s.(store := st), WritableFrame(s, cfg, sid, token).0, cfg);
      }
    }
  }

  lemma RemembersMeans(s: PoolState, sid: nat, token: nat)
    ensures Remembers(s, sid, token) <==>
            s.writable.Some? && s.writable.value.0 == sid && s.writable.value.1 == token
  {}

  /** While the remembered frame is still the token's own, every answer is. */
  lemma FreshFrameIsOwn(s: PoolState, cfg: PoolConfig, sid: nat, token: nat)
    requires cfg.tpb > 0 && PoolInv(s, cfg) && MemosAgree(s, cfg) && FreshMemo(s, cfg, sid, token)
    ensures ValidPool(s.store.pool)
    ensures var (s', frame) := WritableFrame(s, cfg, sid, token);
            if frame.None? then s' == s else ResolvedTo(s, s', cfg, sid, token, frame.value)
  {
    hide *;
    PoolShows(s, cfg);
    WritableFrameIs(s, cfg, sid, token);
    RemembersMeans(s, sid, token);
    ResolvedMeans(s, WritableFrame(s, cfg, sid, token).0, cfg, sid, token, WritableFrame(s, cfg, sid, token).1);
    if Remembers(s, sid, token) {
      MemoIsOwn(s, cfg, sid, token);
      ExclusiveMaps(s.store, sid, token / cfg.tpb, s.writable.value.2);
    }
  }

  // ---- Whose frame it is ------------------------------------------------------------------------------

  /** The block maps this frame, and no other table entry or prefix pin does. */
  ghost predicate OwnFrame(st: Store, sid: nat, block: nat, frame: nat) {
    && sid in st.seqs && block < |BlockTableOf(st, sid)| && BlockTableOf(st, sid)[block] == frame
    && OnFrame(frame) !in Rest(st, sid)
  }

  /** Ownership is read off the reference count. */
  lemma OwnFrameByCount(s: PoolState, cfg: PoolConfig, sid: nat, block: nat, frame: nat)
    requires PoolInv(s, cfg)
    ensures OwnFrame(s.store, sid, block, frame) <==>
            && sid in s.store.seqs && block < |BlockTableOf(s.store, sid)| && BlockTableOf(s.store, sid)[block] == frame
            && frame < |s.store.pool.infos| && s.store.pool.infos[frame].refs == 1
    ensures OwnFrame(s.store, sid, block, frame) <==> Exclusive(s.store, sid, 0, block, frame)
  {
    hide PoolInv, CacheRuns.Inv;
    PoolShows(s, cfg);
    if sid in s.store.seqs {
      OneTable(s.store, sid);
      BlockTableSize(s.store, sid);
      AlwaysResident(s.store, sid);
      if block < |BlockTableOf(s.store, sid)| {
        EntryIsCounted(s.store, sid, 0, block);
        HeldSplits(s.store, sid);
        var r := OnFrame(BlockTableOf(s.store, sid)[block]);
        hide *;
        CountOfHeld(s.store, r);
        CountIsRefs(s.store.pool, r);
      }
    }
  }

  lemma CountOfHeld(st: Store, r: Res)
    requires MemoryInv(st)
    ensures Held(st)[r] == Count(st.pool, r)
  {}

  lemma CountIsRefs(p: Pool, r: Res)
    requires r.OnFrame? && r.frame < |p.infos|
    ensures Count(p, r) == p.infos[r.frame].refs
  {}

  /**
    Exactly when the frame returned is the token's own: the token was not the remembered one, or
    its block still maps the remembered frame with a single reference.
   */
  lemma WritableFrameIsOwnIff(s: PoolState, cfg: PoolConfig, sid: nat, token: nat)
    requires cfg.tpb > 0 && PoolInv(s, cfg) && MemosAgree(s, cfg)
    ensures ValidPool(s.store.pool)
    ensures var (s', frame) := WritableFrame(s, cfg, sid, token);
            var block := token / cfg.tpb;
            frame.Some? ==>
              (OwnFrame(s'.store, sid, block, frame.value) <==>
               || !Remembers(s, sid, token)
               || (&& sid in s.store.seqs && block < |BlockTableOf(s.store, sid)|
                   && BlockTableOf(s.store, sid)[block] == s.writable.value.2
                   && s.writable.value.2 < |s.store.pool.infos| && s.store.pool.infos[s.writable.value.2].refs == 1))
  {
    hide *;
    PoolShows(s, cfg);
    WritableFrameIs(s, cfg, sid, token);
    RemembersMeans(s, sid, token);
    var (s', frame) := WritableFrame(s, cfg, sid, token);
    ResolvedMeans(s, s', cfg, sid, token, frame);
    if frame.Some? {
      OwnFrameByCount(s', cfg, sid, token / cfg.tpb, frame.value);
    }
  }

  lemma PoolIgnoresMemos(s: PoolState, s': PoolState, cfg: PoolConfig)
    requires PoolInv(s, cfg) && s'.store == s.store
    ensures PoolInv(s', cfg)
  {}

  lemma MemoIsOwn(s: PoolState, cfg: PoolConfig, sid: nat, token: nat)
    requires cfg.tpb > 0 && FreshMemo(s, cfg, sid, token) && s.writable.Some?
    requires s.writable.value.0 == sid && s.writable.value.1 == token
    ensures Exclusive(s.store, sid, 0, token / cfg.tpb, s.writable.value.2)
  {}

  lemma ExclusiveMaps(st: Store, sid: nat, block: nat, frame: nat)
    requires MemoryInv(st) && TableCount(st.pool) == 1 && Exclusive(st, sid, 0, block, frame)
    ensures Remapped(st, st, sid, block, frame)
  {
    OneTable(st, sid);
    assert BlockTableOf(st, sid)[block] == frame;
    assert BlockTableOf(st, sid)[block := frame] == BlockTableOf(st, sid);
  }

  lemma WritableUnfolds(s: PoolState, cfg: PoolConfig, sid: nat, token: nat)
    requires ValidPool(s.store.pool) && cfg.tpb > 0
    ensures var r := WritableFrame(s, cfg, sid, token);
            if s.writable.Some? && s.writable.value.0 == sid && s.writable.value.1 == token
            then r == (s, Some(s.writable.value.2))
            else
              var (st, frame) := EnsureTokenWritable(s.store, sid, token, 0);
              if frame.None? then r == (s.(store := st), None)
              else
                var stale := sid in s.hostFrames
                             && (token / cfg.tpb >= |s.hostFrames[sid]| || s.hostFrames[sid][token / cfg.tpb] != frame.value);
                r == ((if stale then Invalidate(s.(store := st), sid) else s.(store := st)).(writable := Some((sid, token, frame.value))), frame)
  {
    hide EnsureTokenWritable, ValidPool;
  }

  /** Another sequence that maps the frame is a holder too. */
  lemma SharedIsNotOwn(s: PoolState, cfg: PoolConfig, sid: nat, other: nat, block: nat, frame: nat)
    requires PoolInv(s, cfg) && other in s.store.seqs && other != sid
    requires block < |BlockTableOf(s.store, other)| && BlockTableOf(s.store, other)[block] == frame
    ensures !OwnFrame(s.store, sid, block, frame)
  {
    PoolShows(s, cfg);
    OneTable(s.store, other);
    BlockTableSize(s.store, other);
    AlwaysResident(s.store, other);
    FlatHolds(s.store.seqs[other].tables, 0, block);
    RestHoldsOthers(s.store, sid, other);
  }

  lemma ReadingAt(st: Store, sid: nat, i: nat)
    requires i < |TableOf(st, sid)| && TableOf(st, sid)[i].slot.None?
    ensures i < |Reading(st, sid)| && i < |BlockTableOf(st, sid)| && Reading(st, sid)[i] == Content(st.pool, OnFrame(BlockTableOf(st, sid)[i]))
  {
    hide Content, TableOf;
  }

  lemma StoredContent(st: Store, frame: nat, content: Frame)
    requires ValidPool(st.pool) && frame < |st.pool.infos| && |content| == st.pool.width
    ensures frame < |st.pool.bytes|
    ensures Content(WriteFrame(st.pool, frame, content), OnFrame(frame)) == content
  {}

  lemma TablesOnly(st: Store, p: Pool, sid: nat)
    ensures TableOf(st.(pool := p), sid) == TableOf(st, sid) && BlockTableOf(st.(pool := p), sid) == BlockTableOf(st, sid)
  {}

  /** What a store into a frame does to a sequence that maps it. */
  lemma StoreIsRead(s: PoolState, cfg: PoolConfig, sid: nat, block: nat, frame: nat, content: Frame)
    requires PoolInv(s, cfg) && sid in s.store.seqs && |content| == s.store.pool.width
    requires block < |BlockTableOf(s.store, sid)| && BlockTableOf(s.store, sid)[block] == frame
    ensures ValidPool(s.store.pool) && frame < |s.store.pool.bytes|
    ensures var st' := s.store.(pool := WriteFrame(s.store.pool, frame, content));
            block < |Reading(st', sid)| && Reading(st', sid)[block] == content
  {
    hide *;
    PoolShows(s, cfg);
    OneTable(s.store, sid);
    BlockTableSize(s.store, sid);
    ResidentEntry(s, cfg, sid, block);
    StoredContent(s.store, frame, content);
    TablesOnly(s.store, WriteFrame(s.store.pool, frame, content), sid);
    ReadingAt(s.store.(pool := WriteFrame(s.store.pool, frame, content)), sid, block);
  }

  lemma ResidentEntry(s: PoolState, cfg: PoolConfig, sid: nat, block: nat)
    requires PoolInv(s, cfg) && sid in s.store.seqs && block < |TableOf(s.store, sid)|
    ensures TableOf(s.store, sid)[block].slot.None?
    ensures block < |BlockTableOf(s.store, sid)| && BlockTableOf(s.store, sid)[block] < |s.store.pool.infos|
  {
    hide PoolInv, CacheRuns.Inv, MemoryInv;
    PoolShows(s, cfg);
    OneTable(s.store, sid);
    AlwaysResident(s.store, sid);
    EntryIsCounted(s.store, sid, 0, block);
  }

  /** The pool answers with a frame that is not the token's own: another branch maps it too. */
  ghost predicate AnswersStale(s: PoolState, cfg: PoolConfig, sid: nat, token: nat, frame: nat, other: nat)
    requires cfg.tpb > 0
  {
    && PoolInv(s, cfg) && WritableFrame(s, cfg, sid, token) == (s, Some(frame))
    && !OwnFrame(s.store, sid, token / cfg.tpb, frame)
    && other in s.store.seqs && token / cfg.tpb < |BlockTableOf(s.store, other)|
    && BlockTableOf(s.store, other)[token / cfg.tpb] == frame
  }

  lemma StaleFrom(s: PoolState, cfg: PoolConfig, sid: nat, token: nat, frame: nat, other: nat)
    requires cfg.tpb > 0 && PoolInv(s, cfg) && ValidPool(s.store.pool) && WritableFrame(s, cfg, sid, token) == (s, Some(frame))
    requires !OwnFrame(s.store, sid, token / cfg.tpb, frame) && other in s.store.seqs
    requires token / cfg.tpb < |BlockTableOf(s.store, other)| && BlockTableOf(s.store, other)[token / cfg.tpb] == frame
    ensures AnswersStale(s, cfg, sid, token, frame, other)
  {
    hide WritableFrame, OwnFrame, BlockTableOf;
  }

  // ---- Storing into the resolved frame ----------------------------------------------------------------

  lemma StoreIs(s: PoolState, cfg: PoolConfig, sid: nat, block: nat, frame: nat, content: Frame)
    requires PoolInv(s, cfg) && MemosAgree(s, cfg) && Exclusive(s.store, sid, 0, block, frame) && |content| == s.store.pool.width
    ensures ValidPool(s.store.pool) && frame < |s.store.pool.bytes|
    ensures var s' := s.(store := s.store.(pool := WriteFrame(s.store.pool, frame, content)));
            && PoolInv(s', cfg) && MemosAgree(s', cfg) && SameLayout(s.store.pool, s'.store.pool)
            && s'.store.seqs == s.store.seqs && sid in s.store.seqs
            && block < |Reading(s.store, sid)| && Reading(s'.store, sid) == Reading(s.store, sid)[block := content]
            && (forall k :: k in s.store.seqs && k != sid ==> Reading(s'.store, k) == Reading(s.store, k))
            && Exclusive(s'.store, sid, 0, block, frame)
            && frame < |s'.store.pool.bytes| && s'.store.pool.bytes[frame] == content
  {
    hide *;
    PoolShows(s, cfg);
    ExclusiveShows(s.store, sid, block, frame);
    StoreRefines(s.store, sid, 0, block, frame, content);
    StoreKeeps(s.store, sid, block, frame, content);
    var st' := s.store.(pool := WriteFrame(s.store.pool, frame, content));
    StoreKeepsInv(s.store, st');
    PutPool(s, cfg, st');
    MemosOnPool(s, cfg, st'.pool);
    AbsReads(s.store, sid);
    AbsReads(st', sid);
    PWriteShows(Abs(s.store), sid, block, content, Reading(s.store, sid), Reading(st', sid));
    forall k | k in s.store.seqs && k != sid
      ensures Reading(st', k) == Reading(s.store, k)
    {
      AbsReads(s.store, k);
      AbsReads(st', k);
      PWriteOthers(Abs(s.store), sid, block, content, k);
    }
  }

  lemma ExclusiveShows(st: Store, sid: nat, block: nat, frame: nat)
    requires MemoryInv(st) && Exclusive(st, sid, 0, block, frame)
    ensures sid in st.seqs && frame < |st.pool.bytes| && frame < |st.pool.infos|
  {}

  lemma StoreKeeps(st: Store, sid: nat, block: nat, frame: nat, content: Frame)
    requires ValidPool(st.pool) && Exclusive(st, sid, 0, block, frame) && |content| == st.pool.width && frame < |st.pool.bytes|
    ensures var st' := st.(pool := WriteFrame(st.pool, frame, content));
            && SameLayout(st.pool, st'.pool) && Exclusive(st', sid, 0, block, frame)
            && TableCount(st'.pool) == TableCount(st.pool)
            && frame < |st'.pool.bytes| && st'.pool.bytes[frame] == content
  {}

  lemma StoreKeepsInv(st: Store, st': Store)
    requires CacheRuns.Inv(st) && MemoryInv(st') && st' == st.(pool := st'.pool) && SameLayout(st.pool, st'.pool)
    ensures CacheRuns.Inv(st')
  {
    hide *;
    SameKeysRefl(st);
    CacheRuns.InvUnderSameKeys(st, st');
  }

  lemma SameKeysRefl(st: Store)
    ensures CachePrefixes.SameKeys(st.seqs, st.seqs)
  {}

  lemma MemosOnPool(s: PoolState, cfg: PoolConfig, p: Pool)
    requires MemosAgree(s, cfg)
    ensures MemosAgree(s.(store := s.store.(pool := p)), cfg)
  {
    var s1 := s.(store := s.store.(pool := p));
    forall k
      ensures TableAgrees(s1, k) && LengthAgrees(s1, k) && ContextAgrees(s1, k)
    {
      assert TableAgrees(s, k) && LengthAgrees(s, k) && ContextAgrees(s, k);
      assert BlockTableOf(s1.store, k) == BlockTableOf(s.store, k);
    }
  }

  lemma PWriteShows(a: Private, sid: nat, block: nat, content: Frame, before: seq<Frame>, after: seq<Frame>)
    requires PHasBlock(a, sid, 0, block) && a.seqs[sid].blocks == [before]
    requires PWrite(a, sid, 0, block, content).seqs[sid].blocks == [after]
    ensures block < |before| && after == before[block := content]
  {
    assert [before][0 := before[block := content]][0] == before[block := content];
  }

  lemma PWriteOthers(a: Private, sid: nat, block: nat, content: Frame, k: nat)
    requires PHasBlock(a, sid, 0, block) && k in a.seqs && k != sid
    ensures k in PWrite(a, sid, 0, block, content).seqs && PWrite(a, sid, 0, block, content).seqs[k] == a.seqs[k]
  {}

  // ---- Forking ---------------------------------------------------------------------------------------------

  lemma ForkIs(s: PoolState, cfg: PoolConfig, parent: nat, child: nat)
    requires PoolInv(s, cfg) && MemosAgree(s, cfg)
    ensures ValidPool(s.store.pool)
    ensures var (s', ok) := ForkPool(s, parent, child);
            && (ok <==> parent in s.store.seqs && child !in s.store.seqs)
            && (!ok ==> s' == s)
            && (ok ==>
                  && PoolInv(s', cfg) && MemosAgree(s', cfg) && s'.writable == s.writable && s'.tableLen == s.tableLen
                  && s'.store.seqs.Keys == s.store.seqs.Keys + {child}
                  && (forall k :: k in s.store.seqs ==> s'.store.seqs[k] == s.store.seqs[k] && Reading(s'.store, k) == Reading(s.store, k))
                  && Reading(s'.store, child) == Reading(s.store, parent)
                  && BlockTableOf(s'.store, child) == BlockTableOf(s.store, parent) == BlockTableOf(s'.store, parent))
  {
    hide *;
    PoolShows(s, cfg);
    ForkRefines(s.store, parent, child, child);
    CacheRuns.ForkInv(s.store, parent, child, child);
    ForkUnfolds(s, parent, child);
    if parent in s.store.seqs {
      AlwaysResident(s.store, parent);
    }
    var (st', ok) := ForkSequence(s.store, parent, child, child);
    if ok {
      CacheRuns.InvParts(st');
      LayoutNumbers(s.store.pool, st'.pool);
      ForkAdds(s.store, parent, child);
      ForkedBlockTable(s.store, parent, child);
      ForkPoolInv(s, cfg, st');
      MemosAfterAdd(s, cfg, st');
      AbsReads(s.store, parent);
      AbsReads(st', child);
      PForkShows(Abs(s.store), parent, child);
      forall k | k in s.store.seqs
        ensures Reading(st', k) == Reading(s.store, k)
      {
        AbsReads(s.store, k);
        AbsReads(st', k);
        PForkOthers(Abs(s.store), parent, child, k);
      }
    }
  }

  lemma ForkUnfolds(s: PoolState, parent: nat, child: nat)
    requires ValidPool(s.store.pool)
    ensures var (st, ok) := ForkSequence(s.store, parent, child, child);
            ForkPool(s, parent, child) == (s.(store := st), ok) && (!ok ==> st == s.store)
  {
    hide ForkTables, RetainAll, Flat, Index, AllResident;
  }

  lemma ForkAdds(st: Store, parent: nat, child: nat)
    requires ValidPool(st.pool) && ForkSequence(st, parent, child, child).1
    ensures var st' := ForkSequence(st, parent, child, child).0;
            child !in st.seqs && parent in st.seqs && child in st'.seqs && st'.seqs == st.seqs[child := st'.seqs[child]]
  {
    hide ForkTables, RetainAll, Flat, Index, AllResident;
  }

  lemma ForkedBlockTable(st: Store, parent: nat, child: nat)
    requires ValidPool(st.pool) && ForkSequence(st, parent, child, child).1
    ensures var st' := ForkSequence(st, parent, child, child).0;
            BlockTableOf(st', child) == BlockTableOf(st, parent) == BlockTableOf(st', parent)
  {
    hide RetainAll, Flat, Index, AllResident;
    var tables := st.seqs[parent].tables;
    assert tables != [] ==> Physicals(Fork(tables[0], child)) == Physicals(tables[0]);
  }

  lemma ForkPoolInv(s: PoolState, cfg: PoolConfig, st: Store)
    requires PoolInv(s, cfg) && CacheRuns.Inv(st) && SameLayout(s.store.pool, st.pool) && s.store.seqs.Keys <= st.seqs.Keys
    ensures PoolInv(s.(store := st), cfg)
  {
    hide CacheRuns.Inv, SameLayout, TokensPerBlock, TableCount;
    CacheRuns.InvParts(st);
    LayoutNumbers(s.store.pool, st.pool);
  }

  /** A new sequence has no memos yet, and nobody else's table changed. */
  lemma MemosAfterAdd(s: PoolState, cfg: PoolConfig, st: Store)
    requires MemosAgree(s, cfg) && forall k :: k in s.store.seqs ==> k in st.seqs && st.seqs[k] == s.store.seqs[k]
    ensures MemosAgree(s.(store := st), cfg)
  {
    var s1 := s.(store := st);
    forall k
      ensures TableAgrees(s1, k) && LengthAgrees(s1, k) && ContextAgrees(s1, k)
    {
      assert TableAgrees(s, k) && LengthAgrees(s, k) && ContextAgrees(s, k);
      assert k in s.store.seqs ==> BlockTableOf(st, k) == BlockTableOf(s.store, k);
    }
  }

  lemma PForkShows(a: Private, parent: nat, child: nat)
    requires parent in a.seqs
    ensures child in PFork(a, parent, child, child).seqs && PFork(a, parent, child, child).seqs[child].blocks == a.seqs[parent].blocks
  {}

  lemma PForkOthers(a: Private, parent: nat, child: nat, k: nat)
    requires parent in a.seqs && k in a.seqs && k != child
    ensures k in PFork(a, parent, child, child).seqs && PFork(a, parent, child, child).seqs[k] == a.seqs[k]
  {}

  // ---- Reading the tables back ---------------------------------------------------------------------------------

  /** The call by cases: the table is rebuilt unless it has the right size, the length rewritten unless it is on record. */
  lemma DecodeInputsIs(s: PoolState, cfg: PoolConfig, sid: nat, length: nat)
    requires cfg.tpb > 0
    ensures var (s', table, context) := DecodeInputs(s, cfg, sid, length);
            var needed, current := CeilDiv(length, cfg.tpb), BlockTableOf(s.store, sid);
            var host := if needed <= |current| then current[..needed] else current;
            && sid in s'.devTable && table == s'.devTable[sid] && sid in s'.devContext && context == s'.devContext[sid]
            && s'.store == s.store && s'.tableLen == s.tableLen
            && (if sid in s.devTable && |s.devTable[sid]| == needed then
                  s'.devTable == s.devTable && s'.hostFrames == s.hostFrames
                else s'.devTable == s.devTable[sid := host] && s'.hostFrames == s.hostFrames[sid := host])
            && (if sid in s.devContext && sid in s.cachedLength && s.cachedLength[sid] == length then
                  s'.devContext == s.devContext && s'.cachedLength == s.cachedLength
                else s'.devContext == s.devContext[sid := length] && s'.cachedLength == s.cachedLength[sid := length])
  {
    hide BlockTableOf, CeilDiv;
  }

  lemma DecodeInputsAgree(s: PoolState, s': PoolState, sid: nat, k: nat, host: seq<nat>, length: nat)
    requires TableAgrees(s, k) && LengthAgrees(s, k) && ContextAgrees(s, k)
    requires s'.store == s.store && s'.tableLen == s.tableLen && host <= BlockTableOf(s.store, sid)
    requires (s'.devTable == s.devTable && s'.hostFrames == s.hostFrames)
             || (s'.devTable == s.devTable[sid := host] && s'.hostFrames == s.hostFrames[sid := host])
    requires (s'.devContext == s.devContext && s'.cachedLength == s.cachedLength)
             || (s'.devContext == s.devContext[sid := length] && s'.cachedLength == s.cachedLength[sid := length])
    ensures TableAgrees(s', k) && LengthAgrees(s', k) && ContextAgrees(s', k)
  {
    hide BlockTableOf;
  }

  lemma MemosShow(s: PoolState, cfg: PoolConfig, k: nat)
    requires MemosAgree(s, cfg)
    ensures TableAgrees(s, k) && LengthAgrees(s, k) && ContextAgrees(s, k)
  {}

  lemma MemosFrom(s: PoolState, s': PoolState, cfg: PoolConfig, sid: nat)
    requires MemosAgree(s, cfg) && s'.store == s.store && s'.tableLen == s.tableLen && sid in s.store.seqs && Some(sid) != cfg.spacer
    requires forall k :: TableAgrees(s', k) && LengthAgrees(s', k) && ContextAgrees(s', k)
    requires forall k :: k != sid ==> (k in s'.devTable <==> k in s.devTable) && (k in s'.devContext <==> k in s.devContext)
    ensures MemosAgree(s', cfg)
  {
    hide TableAgrees, LengthAgrees, ContextAgrees;
  }

  lemma CurrentTable(s: PoolState, sid: nat, needed: nat)
    requires TableAgrees(s, sid) && sid in s.devTable && |s.devTable[sid]| == needed
    ensures s.devTable[sid] == BlockTableOf(s.store, sid)[..Min(needed, |BlockTableOf(s.store, sid)|)]
  {
    hide BlockTableOf;
  }

  lemma CurrentLength(s: PoolState, sid: nat)
    requires ContextAgrees(s, sid)
    ensures sid in s.devContext ==> sid in s.cachedLength && s.devContext[sid] == s.cachedLength[sid]
  {}

  /** What a launch gets is the current table, as far as the length reaches, and the length asked for. */
  lemma DecodeInputsAreCurrent(s: PoolState, cfg: PoolConfig, sid: nat, length: nat)
    requires MemosAgree(s, cfg) && cfg.tpb > 0 && sid in s.store.seqs && Some(sid) != cfg.spacer
    ensures var (s', table, context) := DecodeInputs(s, cfg, sid, length);
            var current := BlockTableOf(s.store, sid);
            && table == current[..Min(CeilDiv(length, cfg.tpb), |current|)] && context == length
            && MemosAgree(s', cfg)
  {
    hide *;
    DecodeInputsIs(s, cfg, sid, length);
    MemosShow(s, cfg, sid);
    CurrentLength(s, sid);
    var s' := DecodeInputs(s, cfg, sid, length).0;
    var needed, current := CeilDiv(length, cfg.tpb), BlockTableOf(s.store, sid);
    MinIs(needed, |current|);
    var host := if needed <= |current| then current[..needed] else current;
    if sid in s.devTable && |s.devTable[sid]| == needed {
      CurrentTable(s, sid, needed);
    }
    forall k
      ensures TableAgrees(s', k) && LengthAgrees(s', k) && ContextAgrees(s', k)
    {
      MemosShow(s, cfg, k);
      DecodeInputsAgree(s, s', sid, k, host, length);
    }
    MemosFrom(s, s', cfg, sid);
  }
}
