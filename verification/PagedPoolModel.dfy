/**
  The pool shared by the layers of a model, as a value: the cache store plus the memo tables
  that keep a decode step from asking the manager the same question once per layer.
 */
module PagedPoolModel {
  import opened Wrappers
  import opened Arithmetic
  import opened SwapStore
  import opened FramePool
  import opened PageTable
  import opened CacheStore
  import opened CacheAccounting
  import opened CacheRefinement
  import opened CacheWrites
  import opened PrivateStore
  import CacheLifecycle
  import CacheRuns
  import CacheTables

  /** `hostFrames` and `devTable` hold block tables, `writable` the last frame resolved for a write. */
  datatype PoolState = PoolState(
    store: Store, tableLen: map<nat, nat>, hostFrames: map<nat, seq<nat>>, devTable: map<nat, seq<nat>>,
    devContext: map<nat, nat>, cachedLength: map<nat, nat>, writable: Option<(nat, nat, nat)>)

  /** Fixed at construction; `spacer` is set in scatter mode, `useKernel` when decode runs on the pages. */
  datatype PoolConfig = PoolConfig(tpb: nat, spacer: Option<nat>, useKernel: bool)

  function TableOf(st: Store, sid: nat): Table {
    if sid in st.seqs && st.seqs[sid].tables != [] then st.seqs[sid].tables[0] else []
  }

  function BlockTableOf(st: Store, sid: nat): seq<nat> {
    Physicals(TableOf(st, sid))
  }

  function Invalidate(s: PoolState, sid: nat): PoolState {
    s.(hostFrames := s.hostFrames - {sid}, devTable := s.devTable - {sid},
       devContext := s.devContext - {sid}, cachedLength := s.cachedLength - {sid})
  }

  /** One more block, and a spacer's block after it; the cached table then no longer fits. */
  function GrowRound(s: PoolState, cfg: PoolConfig, sid: nat): (r: (PoolState, bool))
    requires ValidPool(s.store.pool)
    ensures ValidPool(r.0.store.pool)
  {
    var (st1, ok1) := ReserveTokens(s.store, sid, cfg.tpb);
    if !ok1 then (s.(store := st1), false)
    else
      var (st2, ok2) := if cfg.spacer.Some? then ReserveTokens(st1, cfg.spacer.value, cfg.tpb) else (st1, true);
      if !ok2 then (s.(store := st2), false) else (Invalidate(s.(store := st2), sid), true)
  }

  /** Appends blocks one at a time; stops at the first that fails. */
  function GrowBlocks(s: PoolState, cfg: PoolConfig, sid: nat, times: nat): (r: (PoolState, bool))
    requires ValidPool(s.store.pool)
    ensures ValidPool(r.0.store.pool)
    decreases times
  {
    if times == 0 then (s, true)
    else
      var (s1, ok) := GrowRound(s, cfg, sid);
      if !ok then (s1, false) else GrowBlocks(s1, cfg, sid, times - 1)
  }

  function Have(s: PoolState, sid: nat): nat {
    if sid in s.tableLen then s.tableLen[sid] else |BlockTableOf(s.store, sid)|
  }

  /** Idempotent: asks only for the blocks the table is missing. */
  function EnsureCapacity(s: PoolState, cfg: PoolConfig, sid: nat, total: nat): (r: (PoolState, bool))
    requires ValidPool(s.store.pool) && cfg.tpb > 0
    ensures ValidPool(r.0.store.pool)
  {
    var have, need := Have(s, sid), CeilDiv(total, cfg.tpb);
    var missing := if need > have then need - have else 0;
    var (s1, ok) := GrowBlocks(s, cfg, sid, missing);
    if ok then (s1.(tableLen := s1.tableLen[sid := have + missing]), true) else (s1, false)
  }

  function ForkPool(s: PoolState, parent: nat, child: nat): (r: (PoolState, bool))
    requires ValidPool(s.store.pool)
    ensures ValidPool(r.0.store.pool)
  {
    var (st, ok) := ForkSequence(s.store, parent, child, child);
    (s.(store := st), ok)
  }

  /** The frame a token may be written to; remembered until another token asks. */
  function WritableFrame(s: PoolState, cfg: PoolConfig, sid: nat, token: nat): (r: (PoolState, Option<nat>))
    requires ValidPool(s.store.pool) && cfg.tpb > 0
    ensures ValidPool(r.0.store.pool)
  {
    if s.writable.Some? && s.writable.value.0 == sid && s.writable.value.1 == token then (s, Some(s.writable.value.2))
    else
      var (st, frame) := EnsureTokenWritable(s.store, sid, token, 0);
      if frame.None? then (s.(store := st), None)
      else
        var s1 := s.(store := st);
        var stale := sid in s.hostFrames
                     && (token / cfg.tpb >= |s.hostFrames[sid]| || s.hostFrames[sid][token / cfg.tpb] != frame.value);
        ((if stale then Invalidate(s1, sid) else s1).(writable := Some((sid, token, frame.value))), frame)
  }

  /** Block table and context length for a launch, rebuilt only when their shape no longer fits. */
  function DecodeInputs(s: PoolState, cfg: PoolConfig, sid: nat, length: nat): (r: (PoolState, seq<nat>, nat))
    requires cfg.tpb > 0
    ensures r.0.store == s.store && r.0.tableLen == s.tableLen && r.0.writable == s.writable
  {
    var needed := CeilDiv(length, cfg.tpb);
    var s1 :=
      if sid !in s.devTable || |s.devTable[sid]| != needed then
        var frames := BlockTableOf(s.store, sid);
        var host := if needed <= |frames| then frames[..needed] else frames;
        s.(hostFrames := s.hostFrames[sid := host], devTable := s.devTable[sid := host])
      else s;
    var s2 :=
      if sid !in s1.devContext || sid !in s1.cachedLength || s1.cachedLength[sid] != length then
        s1.(devContext := s1.devContext[sid := length], cachedLength := s1.cachedLength[sid := length])
      else s1;
    (s2, s2.devTable[sid], s2.devContext[sid])
  }

  // ---- Memo tables agree with the page table --------------------------------------------------------

  /** A cached table is the current block table, as far as it goes, and its host copy says the same. */
  ghost predicate TableAgrees(s: PoolState, sid: nat) {
    sid in s.devTable ==>
      && sid in s.hostFrames && s.hostFrames[sid] == s.devTable[sid]
      && s.devTable[sid] <= BlockTableOf(s.store, sid)
  }

  ghost predicate LengthAgrees(s: PoolState, sid: nat) {
    sid in s.tableLen ==> s.tableLen[sid] == |BlockTableOf(s.store, sid)|
  }

  ghost predicate ContextAgrees(s: PoolState, sid: nat) {
    && (sid in s.cachedLength <==> sid in s.devContext)
    && (sid in s.devContext ==> s.devContext[sid] == s.cachedLength[sid])
    && (sid in s.hostFrames <==> sid in s.devTable)
  }

  ghost predicate MemosAgree(s: PoolState, cfg: PoolConfig) {
    && (forall sid :: TableAgrees(s, sid)) && (forall sid :: LengthAgrees(s, sid)) && (forall sid :: ContextAgrees(s, sid))
    && (forall sid :: sid in s.tableLen || sid in s.devTable || sid in s.devContext ==> sid in s.store.seqs)
    && (cfg.spacer.Some? ==> cfg.spacer.value !in s.tableLen && cfg.spacer.value !in s.devTable)
  }

  /** The pool as the module uses it: one table per sequence, no swap backend. */
  ghost predicate PoolInv(s: PoolState, cfg: PoolConfig) {
    && CacheRuns.Inv(s.store) && ValidPool(s.store.pool)
    && cfg.tpb > 0 && TokensPerBlock(s.store.pool) == cfg.tpb && TableCount(s.store.pool) == 1
    && s.store.pool.swap == None
    && (cfg.spacer.Some? ==> cfg.spacer.value in s.store.seqs)
  }

  lemma PoolShows(s: PoolState, cfg: PoolConfig)
    requires PoolInv(s, cfg)
    ensures CacheRuns.Inv(s.store) && MemoryInv(s.store) && ValidPool(s.store.pool)
    ensures cfg.tpb > 0 && TokensPerBlock(s.store.pool) == cfg.tpb && TableCount(s.store.pool) == 1 && s.store.pool.swap == None
  {}

  /** Without a swap backend every block is resident. */
  lemma AlwaysResident(st: Store, sid: nat)
    requires MemoryInv(st) && sid in st.seqs
    requires st.pool.swap.Some? ==> st.pool.swap.value.slots == map[]
    ensures AllResident(st.seqs[sid].tables)
  {
    var tables: seq<Table> := st.seqs[sid].tables;
    forall l, i | 0 <= l < |tables| && 0 <= i < |tables[l]|
      ensures tables[l][i].slot.None?
    {
      EntryIsCounted(st, sid, l, i);
    }
  }

  lemma OneTable(st: Store, sid: nat)
    requires MemoryInv(st) && sid in st.seqs && TableCount(st.pool) == 1
    ensures |st.seqs[sid].tables| == 1 && TableOf(st, sid) == st.seqs[sid].tables[0] && Dense(TableOf(st, sid))
  {
    TablesOkOf(st, sid);
  }

  // ---- Readings -----------------------------------------------------------------------------------------

  /** The bytes of a sequence, block by block. */
  function Reading(st: Store, sid: nat): seq<Frame> {
    TableBlocks(st.pool, TableOf(st, sid))
  }

  lemma AbsReads(st: Store, sid: nat)
    requires MemoryInv(st) && sid in st.seqs && TableCount(st.pool) == 1
    ensures sid in Abs(st).seqs && Abs(st).seqs[sid].blocks == [Reading(st, sid)]
    ensures |Reading(st, sid)| == |BlockTableOf(st, sid)|
  {
    OneTable(st, sid);
    CacheLifecycle.AbsShows(st, sid, "");
  }

  /** Everyone but those named maps and reads exactly what it did. */
  ghost predicate Untouched(st: Store, st': Store, sid: nat, spacer: Option<nat>) {
    forall k :: k in st.seqs && k != sid && Some(k) != spacer ==>
      k in st'.seqs && st'.seqs[k] == st.seqs[k] && Reading(st', k) == Reading(st, k)
  }

  /** n more blocks for sid, after what it had; perhaps some for the spacer. */
  ghost predicate Grew(st: Store, st': Store, sid: nat, n: nat, spacer: Option<nat>) {
    && sid in st.seqs && st'.seqs.Keys == st.seqs.Keys && Untouched(st, st', sid, spacer)
    && |BlockTableOf(st', sid)| == |BlockTableOf(st, sid)| + n
    && BlockTableOf(st, sid) <= BlockTableOf(st', sid)
    && Reading(st, sid) <= Reading(st', sid) && |Reading(st', sid)| == |BlockTableOf(st', sid)|
    && SameLayout(st.pool, st'.pool)
  }

  lemma GrewNothing(st: Store, sid: nat, spacer: Option<nat>)
    requires sid in st.seqs
    ensures Grew(st, st, sid, 0, spacer)
  {}

  lemma GrewTransitive(a: Store, b: Store, c: Store, sid: nat, n: nat, m: nat, spacer: Option<nat>)
    requires Grew(a, b, sid, n, spacer) && Grew(b, c, sid, m, spacer)
    ensures Grew(a, c, sid, n + m, spacer)
  {
    hide Reading, BlockTableOf;
  }

  // ---- Growing ------------------------------------------------------------------------------------------

  /** Frames one round of growth takes: a spacer's block doubles it. */
  function PerRound(cfg: PoolConfig): (n: nat)
    ensures n > 0
  {
    if cfg.spacer.Some? then 2 else 1
  }

  lemma OneBlockOfTokens(tpb: nat)
    requires tpb > 0
    ensures CeilDiv(tpb, tpb) == 1
  {
    CeilDivIsLeastCover(tpb, tpb, 1);
    CeilDivIsLeastCover(tpb, tpb, 0);
  }

  lemma ReserveGrowsOne(st: Store, sid: nat)
    requires CacheRuns.Inv(st) && TableCount(st.pool) == 1 && TokensPerBlock(st.pool) > 0
    ensures ValidPool(st.pool)
    ensures var (st', ok) := ReserveTokens(st, sid, TokensPerBlock(st.pool));
            && CacheRuns.Inv(st') && (ok ==> Grew(st, st', sid, 1, None)) && (!ok ==> st' == st)
            && (ok <==> sid in st.seqs && st.pool.free != [])
            && (ok ==> |st'.pool.free| == |st.pool.free| - 1)
            && (st.pool.swap == None ==> st'.pool.swap == None)
  {
    var tpb := TokensPerBlock(st.pool);
    CacheRuns.InvParts(st);
    CacheRuns.ReserveInv(st, sid, tpb);
    ReserveRefines(st, sid, tpb);
    OneBlockOfTokens(tpb);
    var (st', ok) := ReserveTokens(st, sid, tpb);
    if ok {
      CacheRuns.ReserveLayout(st, sid, tpb);
      CacheRuns.InvParts(st');
      GrownTable(st, sid, tpb);
      hide *;
      ReadingsAfterGrowth(st, st', sid);
      LayoutNumbers(st.pool, st'.pool);
    }
  }

  lemma LayoutNumbers(p: Pool, q: Pool)
    requires SameLayout(p, q)
    ensures TokensPerBlock(q) == TokensPerBlock(p) && TableCount(q) == TableCount(p) && (p.swap == None ==> q.swap == None)
    ensures q.shape == p.shape && q.width == p.width && |q.infos| == |p.infos|
  {}

  lemma ReadingsAfterGrowth(st: Store, st': Store, sid: nat)
    requires MemoryInv(st) && MemoryInv(st') && TableCount(st.pool) == 1 && SameLayout(st.pool, st'.pool)
    requires sid in st.seqs && PGrows(Abs(st), sid, 1, Abs(st'))
    requires sid in st'.seqs && st'.seqs == st.seqs[sid := st'.seqs[sid]]
    requires |BlockTableOf(st', sid)| == |BlockTableOf(st, sid)| + 1 && BlockTableOf(st, sid) <= BlockTableOf(st', sid)
    ensures Grew(st, st', sid, 1, None)
  {
    hide *;
    LayoutNumbers(st.pool, st'.pool);
    AbsReads(st, sid);
    AbsReads(st', sid);
    forall k | k in st.seqs && k != sid
      ensures k in st'.seqs && st'.seqs[k] == st.seqs[k] && Reading(st', k) == Reading(st, k)
    {
      AbsReads(st, k);
      AbsReads(st', k);
      OthersSame(Abs(st), Abs(st'), sid, k);
    }
    OwnExtended(Abs(st), Abs(st'), sid, Reading(st, sid), Reading(st', sid));
    GrewFrom(st, st', sid);
  }

  lemma OthersSame(a: Private, a': Private, sid: nat, k: nat)
    requires PGrows(a, sid, 1, a') && k in a.seqs && k != sid
    ensures k in a'.seqs && a'.seqs[k] == a.seqs[k]
  {}

  lemma OwnExtended(a: Private, a': Private, sid: nat, b: seq<Frame>, b': seq<Frame>)
    requires PGrows(a, sid, 1, a') && sid in a.seqs && sid in a'.seqs && a.seqs[sid].blocks == [b] && a'.seqs[sid].blocks == [b']
    ensures b <= b'
  {
    assert a.seqs[sid].blocks[0] <= a'.seqs[sid].blocks[0];
  }

  lemma GrewFrom(st: Store, st': Store, sid: nat)
    requires sid in st.seqs && sid in st'.seqs && st'.seqs == st.seqs[sid := st'.seqs[sid]]
    requires forall k :: k in st.seqs && k != sid ==> k in st'.seqs && st'.seqs[k] == st.seqs[k] && Reading(st', k) == Reading(st, k)
    requires |BlockTableOf(st', sid)| == |BlockTableOf(st, sid)| + 1 && BlockTableOf(st, sid) <= BlockTableOf(st', sid)
    requires Reading(st, sid) <= Reading(st', sid) && |Reading(st', sid)| == |BlockTableOf(st', sid)|
    requires SameLayout(st.pool, st'.pool)
    ensures Grew(st, st', sid, 1, None)
  {
    hide Reading, BlockTableOf, SameLayout;
  }

  lemma GrownFrames(st: Store, st': Store, sid: nat, tpb: nat, count: nat)
    requires sid in st.seqs && sid in st'.seqs && |st.seqs[sid].tables| == |st'.seqs[sid].tables| == 1
    requires CacheTables.Grown(st.seqs[sid].tables[0], st'.seqs[sid].tables[0], sid, tpb, count)
    ensures |BlockTableOf(st', sid)| == |BlockTableOf(st, sid)| + count && BlockTableOf(st, sid) <= BlockTableOf(st', sid)
  {}

  /** The grown table starts with the old one. */
  lemma GrownTable(st: Store, sid: nat, tokens: nat)
    requires MemoryInv(st) && TableCount(st.pool) == 1 && ReserveTokens(st, sid, tokens).1 && TokensPerBlock(st.pool) > 0
    ensures var st' := ReserveTokens(st, sid, tokens).0;
            && |BlockTableOf(st', sid)| == |BlockTableOf(st, sid)| + CeilDiv(tokens, TokensPerBlock(st.pool))
            && BlockTableOf(st, sid) <= BlockTableOf(st', sid)
  {
    hide *;
    PoolIsValid(st);
    ReserveIs(st, sid, tokens);
    OneTable(st, sid);
    TablesOkOf(st, sid);
    var tables, tpb := st.seqs[sid].tables, TokensPerBlock(st.pool);
    TablesAreDense(st.pool, tables);
    CacheTables.GrowTablesGrow(st.pool, tables, sid, tpb, CeilDiv(tokens, tpb));
    GrownFrames(st, ReserveTokens(st, sid, tokens).0, sid, tpb, CeilDiv(tokens, tpb));
  }

  /** Every memo but the recorded length of sid. */
  ghost predicate MemosAgreeBut(s: PoolState, cfg: PoolConfig, sid: nat) {
    && (forall k :: TableAgrees(s, k)) && (forall k :: k != sid ==> LengthAgrees(s, k)) && (forall k :: ContextAgrees(s, k))
    && (forall k :: k in s.tableLen || k in s.devTable || k in s.devContext ==> k in s.store.seqs)
    && (cfg.spacer.Some? ==> cfg.spacer.value !in s.tableLen && cfg.spacer.value !in s.devTable)
  }

  lemma MemosAfterGrowth(s: PoolState, cfg: PoolConfig, st: Store, sid: nat, n: nat)
    requires MemosAgreeBut(s, cfg, sid) && Grew(s.store, st, sid, n, cfg.spacer)
    ensures MemosAgreeBut(s.(store := st), cfg, sid)
    ensures MemosAgreeBut(Invalidate(s.(store := st), sid), cfg, sid)
  {
    hide Reading, SameLayout;
    var s1 := s.(store := st);
    forall k
      ensures TableAgrees(s1, k) && (k != sid ==> LengthAgrees(s1, k)) && ContextAgrees(s1, k)
    {
      assert TableAgrees(s, k) && (k != sid ==> LengthAgrees(s, k)) && ContextAgrees(s, k);
    }
    MemosAfterInvalidate(s1, cfg, sid);
  }

  lemma MemosAfterInvalidate(s: PoolState, cfg: PoolConfig, sid: nat)
    requires MemosAgreeBut(s, cfg, sid)
    ensures MemosAgreeBut(Invalidate(s, sid), cfg, sid)
  {
    hide BlockTableOf;
    var s1 := Invalidate(s, sid);
    forall k
      ensures TableAgrees(s1, k) && (k != sid ==> LengthAgrees(s1, k)) && ContextAgrees(s1, k)
    {
      assert TableAgrees(s, k) && (k != sid ==> LengthAgrees(s, k)) && ContextAgrees(s, k);
    }
  }

  lemma PoolAfterGrowth(s: PoolState, cfg: PoolConfig, st: Store)
    requires PoolInv(s, cfg) && CacheRuns.Inv(st) && SameLayout(s.store.pool, st.pool) && st.seqs.Keys == s.store.seqs.Keys
    ensures PoolInv(s.(store := st), cfg)
  {
    hide CacheRuns.Inv, SameLayout, TokensPerBlock, TableCount;
    CacheRuns.InvParts(st);
    LayoutNumbers(s.store.pool, st.pool);
  }

  /** One round of growth: a block for sid, then one for the spacer. */
  lemma RoundGrows(s: PoolState, cfg: PoolConfig, sid: nat)
    requires PoolInv(s, cfg) && Some(sid) != cfg.spacer && sid in s.store.seqs
    ensures var (st1, ok1) := ReserveTokens(s.store, sid, cfg.tpb);
            && ValidPool(st1.pool) && CacheRuns.Inv(st1)
            && (ok1 <==> s.store.pool.free != [])
            && (!ok1 ==> st1 == s.store)
            && (ok1 ==> Grew(s.store, st1, sid, 1, cfg.spacer) && |st1.pool.free| == |s.store.pool.free| - 1)
            && (ok1 && cfg.spacer.Some? ==>
                  var (st2, ok2) := ReserveTokens(st1, cfg.spacer.value, cfg.tpb);
                  && CacheRuns.Inv(st2) && Grew(s.store, st2, sid, 1, cfg.spacer)
                  && (ok2 <==> st1.pool.free != [])
                  && |st2.pool.free| == |st1.pool.free| - if ok2 then 1 else 0)
  {
    hide *;
    PoolShows(s, cfg);
    ReserveGrowsOne(s.store, sid);
    var (st1, ok1) := ReserveTokens(s.store, sid, cfg.tpb);
    CacheRuns.InvParts(st1);
    if ok1 {
      WiderGrowth(s.store, st1, sid, 1, cfg.spacer);
      GrewLayout(s.store, st1, sid, 1, cfg.spacer);
      LayoutNumbers(s.store.pool, st1.pool);
      if cfg.spacer.Some? {
        SpacerThere(s, cfg, st1);
        ReserveGrowsOne(st1, cfg.spacer.value);
        var (st2, ok2) := ReserveTokens(st1, cfg.spacer.value, cfg.tpb);
        if ok2 {
          SpacerGrowth(s.store, st1, st2, sid, cfg.spacer.value);
        }
      }
    }
  }

  lemma SpacerThere(s: PoolState, cfg: PoolConfig, st: Store)
    requires PoolInv(s, cfg) && st.seqs.Keys == s.store.seqs.Keys && cfg.spacer.Some?
    ensures cfg.spacer.value in st.seqs
  {}

  lemma WiderGrowth(st: Store, st': Store, sid: nat, n: nat, spacer: Option<nat>)
    requires Grew(st, st', sid, n, None)
    ensures Grew(st, st', sid, n, spacer)
  {
    hide Reading, BlockTableOf, SameLayout;
  }

  lemma GrewLayout(st: Store, st': Store, sid: nat, n: nat, spacer: Option<nat>)
    requires Grew(st, st', sid, n, spacer)
    ensures SameLayout(st.pool, st'.pool) && st'.seqs.Keys == st.seqs.Keys && sid in st.seqs
    ensures Untouched(st, st', sid, spacer)
    ensures |BlockTableOf(st', sid)| == |BlockTableOf(st, sid)| + n
  {}

  lemma SpacerGrowth(st: Store, st1: Store, st2: Store, sid: nat, spacer: nat)
    requires Grew(st, st1, sid, 1, Some(spacer)) && Grew(st1, st2, spacer, 1, None) && sid != spacer
    ensures Grew(st, st2, sid, 1, Some(spacer))
  {
    hide Reading;
    assert BlockTableOf(st2, sid) == BlockTableOf(st1, sid);
    hide BlockTableOf;
  }

  /**
    Growth succeeds exactly when its frames are there and takes no others.  Otherwise it uses up
    the pool, and the blocks it got on the way stay in the table.
   */
  lemma {:induction false} GrowBlocksGrows(s: PoolState, cfg: PoolConfig, sid: nat, times: nat)
    requires PoolInv(s, cfg) && MemosAgreeBut(s, cfg, sid) && Some(sid) != cfg.spacer && sid in s.store.seqs
    ensures ValidPool(s.store.pool)
    ensures var (s', ok) := GrowBlocks(s, cfg, sid, times);
            && PoolInv(s', cfg) && MemosAgreeBut(s', cfg, sid)
            && s'.tableLen == s.tableLen && s'.writable == s.writable
            && (ok <==> times * PerRound(cfg) <= |s.store.pool.free|)
            && Grew(s.store, s'.store, sid, if ok then times else CeilDiv(|s.store.pool.free|, PerRound(cfg)), cfg.spacer)
            && |s'.store.pool.free| == if ok then |s.store.pool.free| - times * PerRound(cfg) else 0
    decreases times
  {
    hide *;
    PoolShows(s, cfg);
    RoundsCount(cfg, times, |s.store.pool.free|);
    if times == 0 {
      GrewNothing(s.store, sid, cfg.spacer);
      GrowZero(s, cfg, sid);
    } else {
      RoundGrows(s, cfg, sid);
      GrowStep(s, cfg, sid, times);
      var (st1, ok1) := ReserveTokens(s.store, sid, cfg.tpb);
      if !ok1 {
        GrewNothing(s.store, sid, cfg.spacer);
        assert s.(store := st1) == s;
      } else {
        var (st2, ok2) := if cfg.spacer.Some? then ReserveTokens(st1, cfg.spacer.value, cfg.tpb) else (st1, true);
        GrewLayout(s.store, st2, sid, 1, cfg.spacer);
        PoolAfterGrowth(s, cfg, st2);
        MemosAfterGrowth(s, cfg, st2, sid, 1);
        if ok2 {
          var s1 := Invalidate(s.(store := st2), sid);
          InvalidateKeeps(s.(store := st2), cfg, sid);
          GrowBlocksGrows(s1, cfg, sid, times - 1);
          RoundTaken(cfg, times, |s.store.pool.free|);
          var (s', ok) := GrowBlocks(s1, cfg, sid, times - 1);
          var more := if ok then times - 1 else CeilDiv(|st2.pool.free|, PerRound(cfg));
          GrewTransitive(s.store, st2, s'.store, sid, 1, more, cfg.spacer);
        }
      }
    }
  }

  /** Frames needed by rounds: none for none, more than one frame only with a spacer. */
  lemma RoundsCount(cfg: PoolConfig, times: nat, free: nat)
    ensures PerRound(cfg) == if cfg.spacer.Some? then 2 else 1
    ensures 0 * PerRound(cfg) == 0
    ensures times > 0 ==> times * PerRound(cfg) >= PerRound(cfg)
    ensures free == 0 ==> CeilDiv(free, PerRound(cfg)) == 0
    ensures free == 1 ==> CeilDiv(free, PerRound(cfg)) == 1
  {}

  lemma RoundTaken(cfg: PoolConfig, times: nat, free: nat)
    requires times > 0 && free >= PerRound(cfg)
    ensures times * PerRound(cfg) == PerRound(cfg) + (times - 1) * PerRound(cfg)
    ensures CeilDiv(free, PerRound(cfg)) == 1 + CeilDiv(free - PerRound(cfg), PerRound(cfg))
  {}

  lemma InvalidateKeeps(s: PoolState, cfg: PoolConfig, sid: nat)
    ensures var s1 := Invalidate(s, sid);
            && s1.store == s.store && s1.tableLen == s.tableLen && s1.writable == s.writable
            && (PoolInv(s, cfg) ==> PoolInv(s1, cfg))
  {}

  lemma GrowBlocksStep(s: PoolState, cfg: PoolConfig, sid: nat, times: nat)
    requires ValidPool(s.store.pool) && times > 0
    ensures var (s1, ok) := GrowRound(s, cfg, sid);
            && ValidPool(s1.store.pool)
            && GrowBlocks(s, cfg, sid, times) == if ok then GrowBlocks(s1, cfg, sid, times - 1) else (s1, false)
  {
    hide GrowRound, ValidPool;
  }

  lemma GrowZero(s: PoolState, cfg: PoolConfig, sid: nat)
    requires ValidPool(s.store.pool)
    ensures GrowBlocks(s, cfg, sid, 0) == (s, true)
  {}

  lemma GrowStep(s: PoolState, cfg: PoolConfig, sid: nat, times: nat)
    requires ValidPool(s.store.pool) && times > 0
    ensures var (st1, ok1) := ReserveTokens(s.store, sid, cfg.tpb);
            && ValidPool(st1.pool)
            && (!ok1 ==> GrowBlocks(s, cfg, sid, times) == (s.(store := st1), false))
            && (ok1 ==>
                  var (st2, ok2) := if cfg.spacer.Some? then ReserveTokens(st1, cfg.spacer.value, cfg.tpb) else (st1, true);
                  && ValidPool(st2.pool)
                  && (!ok2 ==> GrowBlocks(s, cfg, sid, times) == (s.(store := st2), false))
                  && (ok2 ==> GrowBlocks(s, cfg, sid, times) == GrowBlocks(Invalidate(s.(store := st2), sid), cfg, sid, times - 1)))
  {
    hide ReserveTokens, ValidPool;
  }
}
