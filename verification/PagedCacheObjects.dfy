/** The pool and layer objects of the transformers cache, each method proved against the pool model. */
module PagedCacheObjects {
  import opened Wrappers
  import opened Vectors
  import opened Arithmetic
  import opened SwapStore
  import opened FramePool
  import opened CacheStore
  import opened CacheWrites
  import opened CacheLayout
  import opened CacheManager
  import opened PagedPoolModel
  import opened PagedPoolMemos
  import opened PagedRows
  import opened PagedLayers
  import opened PagedCacheRuns
  import opened PagedDecode
  import AttentionSpec
  import CacheRuns
  import Softmax
  import TritonKernel

  class PagedPool {
    const manager: KVCacheManager
    const tokensPerBlock: nat
    const spacer: Option<nat>
    const useKernel: bool
    var tableLen: map<nat, nat>
    var hostFrames: map<nat, seq<nat>>
    var devTable: map<nat, seq<nat>>
    var devContext: map<nat, nat>
    var cachedLength: map<nat, nat>
    var writable: Option<(nat, nat, nat)>

    ghost function Repr(): set<object>
      reads this, manager, manager.allocator
    {
      {this} + manager.Repr()
    }

    ghost function Model(): PoolState
      reads this, manager, manager.allocator, manager.allocator.backend
    {
      PoolState(manager.Model(), tableLen, hostFrames, devTable, devContext, cachedLength, writable)
    }

    ghost function Cfg(): PoolConfig {
      PoolConfig(tokensPerBlock, spacer, useKernel)
    }

    ghost predicate Valid()
      reads this, manager, manager.allocator, manager.allocator.backend
    {
      manager.Valid() && tokensPerBlock > 0
    }

    /** Over a fresh manager: creates the root sequence and, in scatter mode, the spacer. */
    constructor (manager: KVCacheManager, tokensPerBlock: nat, root: nat, spacer: Option<nat>, useKernel: bool)
      requires manager.Valid() && tokensPerBlock > 0 && manager.Model() == EmptyStore(manager.Model().pool)
      requires spacer != Some(root)
      modifies manager.Repr()
      ensures Valid() && this.manager == manager && this.tokensPerBlock == tokensPerBlock && this.spacer == spacer && this.useKernel == useKernel
      ensures Model() == FreshPoolState(old(manager.Model().pool), root, spacer)
    {
      hide ValidPool, CacheRuns.Inv, CreateSequence;
      this.manager := manager;
      this.tokensPerBlock := tokensPerBlock;
      this.spacer := spacer;
      this.useKernel := useKernel;
      tableLen, hostFrames, devTable, devContext, cachedLength, writable := map[], map[], map[], map[], map[], None;
      new;
      var created := manager.Create(root, root);
      if spacer.Some? {
        created := manager.Create(spacer.value, spacer.value);
      }
    }

    method BlockTable(sid: nat) returns (frames: seq<nat>)
      ensures frames == BlockTableOf(manager.Model(), sid)
    {
      frames := [];
      if sid !in manager.sequences || manager.sequences[sid].tables == [] {
        return;
      }
      var table := manager.sequences[sid].tables[0];
      var i := 0;
      while i < |table|
        invariant i <= |table| && |frames| == i
        invariant forall k :: 0 <= k < i ==> frames[k] == table[k].physical
      {
        frames := frames + [table[i].physical];
        i := i + 1;
      }
    }

    method InvalidateTable(sid: nat)
      modifies this
      ensures Model() == Invalidate(old(Model()), sid)
    {
      hostFrames := hostFrames - {sid};
      devTable := devTable - {sid};
      devContext := devContext - {sid};
      cachedLength := cachedLength - {sid};
    }

    /** One round of growth; a failed reservation is the assertion error. */
    method AppendBlock(sid: nat) returns (ok: bool)
      requires Valid()
      modifies Repr()
      ensures Valid() && manager.allocator.backend == old(manager.allocator.backend) && tableLen == old(tableLen)
      ensures (Model(), ok) == GrowRound(old(Model()), Cfg(), sid)
    {
      hide ReserveTokens, ValidPool, CacheRuns.Inv, BlockTableOf;
      var reserved := manager.Reserve(sid, tokensPerBlock);
      if !reserved {
        return false;
      }
      if spacer.Some? {
        var spaced := manager.Reserve(spacer.value, tokensPerBlock);
        if !spaced {
          return false;
        }
      }
      InvalidateTable(sid);
      ok := true;
    }

    /** The recorded length of a table, or its length. */
    method Length(sid: nat) returns (have: nat)
      ensures have == Have(Model(), sid)
    {
      if sid in tableLen {
        have := tableLen[sid];
      } else {
        var frames := BlockTable(sid);
        have := |frames|;
      }
    }

    /** Appends only the blocks the table is missing, then records its length. */
    method Ensure(sid: nat, total: nat) returns (ok: bool)
      requires Valid()
      modifies Repr()
      ensures Valid() && manager.allocator.backend == old(manager.allocator.backend)
      ensures (Model(), ok) == EnsureCapacity(old(Model()), Cfg(), sid, total)
    {
      hide GrowRound, ValidPool, CacheRuns.Inv, BlockTableOf, CeilDiv, GrowBlocks, EnsureCapacity, Have;
      CapacityUnfolds(Model(), Cfg(), sid, total);
      var have := Length(sid);
      var need := CeilDiv(total, tokensPerBlock);
      ghost var missing := if need > have then need - have else 0;
      ghost var result := GrowBlocks(Model(), Cfg(), sid, missing);
      var appended := 0;
      while have + appended < need
        invariant appended <= missing && Valid() && manager.allocator.backend == old(manager.allocator.backend)
        invariant GrowBlocks(Model(), Cfg(), sid, missing - appended) == result
      {
        GrowBlocksStep(Model(), Cfg(), sid, missing - appended);
        var grown := AppendBlock(sid);
        if !grown {
          return false;
        }
        appended := appended + 1;
      }
      GrowZero(Model(), Cfg(), sid);
      tableLen := tableLen[sid := have + appended];
      ok := true;
    }

    method Fork(parent: nat, child: nat) returns (ok: bool)
      requires Valid()
      modifies manager.Repr()
      ensures Valid() && manager.allocator.backend == old(manager.allocator.backend)
      ensures (Model(), ok) == ForkPool(old(Model()), parent, child)
    {
      hide ForkSequence, ValidPool, CacheRuns.Inv;
      ok := manager.ForkFrom(parent, child, child);
    }

    /** Honours copy-on-write before any write, once per token. */
    method Writable(sid: nat, token: nat) returns (frame: Option<nat>)
      requires Valid()
      modifies Repr()
      ensures Valid() && manager.allocator.backend == old(manager.allocator.backend)
      ensures (Model(), frame) == WritableFrame(old(Model()), Cfg(), sid, token)
    {
      hide EnsureTokenWritable, ValidPool, CacheRuns.Inv;
      if writable.Some? && writable.value.0 == sid && writable.value.1 == token {
        return Some(writable.value.2);
      }
      frame := manager.EnsureWritable(sid, token, 0);
      if frame.None? {
        return;
      }
      if sid in hostFrames {
        var host := hostFrames[sid];
        var logical := token / tokensPerBlock;
        if logical >= |host| || host[logical] != frame.value {
          InvalidateTable(sid);
        }
      }
      writable := Some((sid, token, frame.value));
    }

    method Inputs(sid: nat, length: nat) returns (table: seq<nat>, context: nat)
      requires Valid()
      modifies this
      ensures Valid() && (Model(), table, context) == DecodeInputs(old(Model()), Cfg(), sid, length)
    {
      hide ValidPool, CacheRuns.Inv, BlockTableOf, CeilDiv;
      var needed := CeilDiv(length, tokensPerBlock);
      if sid !in devTable || |devTable[sid]| != needed {
        var frames := BlockTable(sid);
        var host := if needed <= |frames| then frames[..needed] else frames;
        hostFrames := hostFrames[sid := host];
        devTable := devTable[sid := host];
      }
      if sid !in devContext || sid !in cachedLength || cachedLength[sid] != length {
        devContext := devContext[sid := length];
        cachedLength := cachedLength[sid := length];
      }
      table, context := devTable[sid], devContext[sid];
    }

    /** `frame_index`: the first `count` frames of a sequence. */
    method FrameIndex(sid: nat, length: nat) returns (frames: seq<nat>)
      requires Valid()
      modifies this
      ensures Valid() && (Model(), frames) == GatherFrames(old(Model()), Cfg(), sid, length)
    {
      hide DecodeInputs, CeilDiv, ValidPool, CacheRuns.Inv;
      GatherIs(Model(), Cfg(), sid, length);
      var needed := CeilDiv(length, tokensPerBlock);
      var table, _ := Inputs(sid, needed * tokensPerBlock);
      frames := if needed <= |table| then table[..needed] else table;
    }

    /** Assigns a slice of one frame; soundness of the books is the caller's to restore. */
    method Assign(frame: nat, at: nat, data: seq<real>)
      requires manager.allocator.Valid() && frame < |manager.allocator.blocks| && at + |data| <= |manager.allocator.blocks[frame]|
      modifies manager.allocator
      ensures manager.allocator.Valid() && manager.allocator.backend == old(manager.allocator.backend)
      ensures Model() == StoreSlice(old(Model()), frame, at, data)
    {
      hide ValidPool, Splice;
      SliceStores(Model(), frame, at, data);
      manager.allocator.StoreIntoFrame(frame, Splice(manager.allocator.blocks[frame], at, data));
    }
  }

  // ---- Steps of a layer's update ------------------------------------------------------------------------

  /** What a layer needs of the pool before it touches it. */
  ghost predicate Ready(s: PoolState, cfg: PoolConfig, sid: nat, layer: nat) {
    && cfg.tpb > 0 && PoolInv(s, cfg) && MemosAgree(s, cfg) && Geometry(s, cfg)
    && sid in s.store.seqs && Some(sid) != cfg.spacer && layer < ShapeOf(s).FrameLayers()
  }

  lemma ReadyShows(s: PoolState, cfg: PoolConfig, sid: nat, layer: nat)
    requires Ready(s, cfg, sid, layer)
    ensures cfg.tpb > 0 && PoolInv(s, cfg) && MemosAgree(s, cfg) && Geometry(s, cfg) && ValidPool(s.store.pool)
    ensures sid in s.store.seqs && Some(sid) != cfg.spacer && layer < ShapeOf(s).FrameLayers()
    ensures CacheRuns.Inv(s.store) && ShapeOf(s) == s.store.pool.shape && ShapeOf(s).tokensPerBlock == cfg.tpb
  {
    PoolShows(s, cfg);
  }

  lemma ReadyFrom(s: PoolState, cfg: PoolConfig, sid: nat, layer: nat)
    requires cfg.tpb > 0 && PoolInv(s, cfg) && MemosAgree(s, cfg) && Geometry(s, cfg)
    requires sid in s.store.seqs && Some(sid) != cfg.spacer && layer < ShapeOf(s).FrameLayers()
    ensures Ready(s, cfg, sid, layer)
  {}

  /** After a round of the span the pool is ready for the next one. */
  lemma RoundLeavesReady(s: PoolState, cfg: PoolConfig, sid: nat, layer: nat, from: nat, keys: seq<Row>, values: seq<Row>)
    requires Ready(s, cfg, sid, layer) && FreshMemo(s, cfg, sid, from)
    requires |values| == |keys| > 0 && from % cfg.tpb + |keys| <= cfg.tpb
    requires RowsOf(keys, TokenElems(ShapeOf(s))) && RowsOf(values, TokenElems(ShapeOf(s)))
    ensures ValidPool(s.store.pool) && cfg.tpb > 0
    ensures var (s1, frame) := WritableFrame(s, cfg, sid, from);
            frame.Some? ==>
              var s2 := StoreBlockRows(s1, frame.value, layer, from % cfg.tpb, keys, values);
              Ready(s2, cfg, sid, layer) && FreshMemo(s2, cfg, sid, from + |keys|) && ShapeOf(s2) == ShapeOf(s)
  {
    hide *;
    ReadyShows(s, cfg, sid, layer);
    RoundWrote(s, cfg, sid, layer, from, keys, values);
    var (s1, frame) := WritableFrame(s, cfg, sid, from);
    if frame.Some? {
      var s2 := StoreBlockRows(s1, frame.value, layer, from % cfg.tpb, keys, values);
      SpanWroteShows(s, s2, cfg, sid, layer, from, keys, values);
      AroundMemo(s, s2, cfg, sid, from, |keys|);
      ReadyFrom(s2, cfg, sid, layer);
      FreshAfter(s2, cfg, sid, from + |keys|);
    }
  }

  /** Both stores of a round fit the resolved frame. */
  lemma RoundIsSafe(s: PoolState, cfg: PoolConfig, sid: nat, layer: nat, from: nat, keys: seq<Row>, values: seq<Row>)
    requires Ready(s, cfg, sid, layer) && FreshMemo(s, cfg, sid, from)
    requires |values| == |keys| > 0 && from % cfg.tpb + |keys| <= cfg.tpb
    requires RowsOf(keys, TokenElems(ShapeOf(s))) && RowsOf(values, TokenElems(ShapeOf(s)))
    ensures ValidPool(s.store.pool) && cfg.tpb > 0
    ensures var (s1, frame) := WritableFrame(s, cfg, sid, from);
            frame.Some? ==>
              var shape, o := ShapeOf(s), from % cfg.tpb;
              && ShapeOf(s1) == shape && frame.value < |s1.store.pool.bytes|
              && StreamBase(shape, layer, Key) + o * TokenElems(shape) + |Flatten(keys)| <= |s1.store.pool.bytes[frame.value]|
              && StreamBase(shape, layer, Value) + o * TokenElems(shape) + |Flatten(values)| <= |s1.store.pool.bytes[frame.value]|
  {
    hide *;
    ReadyShows(s, cfg, sid, layer);
    FreshFrameIsOwn(s, cfg, sid, from);
    var (s1, frame) := WritableFrame(s, cfg, sid, from);
    if frame.Some? {
      ResolvedMeans(s, s1, cfg, sid, from, frame);
      RemappedShows(s.store, s1.store, sid, from / cfg.tpb, frame.value);
      GeometryKept(s, s1, cfg);
      OwnFrameReads(s1, cfg, sid, from / cfg.tpb, frame.value);
      PoolShows(s1, cfg);
      FrameIsSized(s1, cfg, frame.value);
      SliceFits(ShapeOf(s), layer, Key, from % cfg.tpb, keys);
      SliceFits(ShapeOf(s), layer, Value, from % cfg.tpb, values);
    }
  }

  lemma AroundMemo(s: PoolState, s': PoolState, cfg: PoolConfig, sid: nat, from: nat, n: nat)
    requires cfg.tpb > 0 && SpanAround(s, s', cfg, sid, from, n) && n > 0
    ensures sid in s'.store.seqs && s'.writable.Some?
    ensures Exclusive(s'.store, sid, 0, s'.writable.value.1 / cfg.tpb, s'.writable.value.2)
  {
    hide Reading, BlockTableOf, Exclusive;
  }

  lemma FrameIsSized(s: PoolState, cfg: PoolConfig, frame: nat)
    requires PoolInv(s, cfg) && Geometry(s, cfg) && frame < |s.store.pool.bytes|
    ensures |s.store.pool.bytes[frame]| >= ElementCount(ShapeOf(s))
  {
    hide CacheRuns.Inv, ElementCount;
  }

  lemma StoreKeepsSizes(s: PoolState, frame: nat, at: nat, data: seq<real>)
    requires ValidPool(s.store.pool) && frame < |s.store.pool.bytes| && at + |data| <= |s.store.pool.bytes[frame]|
    ensures var s1 := StoreSlice(s, frame, at, data);
            && ShapeOf(s1) == ShapeOf(s) && frame < |s1.store.pool.bytes| && |s1.store.pool.bytes[frame]| == |s.store.pool.bytes[frame]|
  {}

  /** Growing for an update leaves the pool ready to write from `start` on. */
  lemma GrownForUpdate(s: PoolState, cfg: PoolConfig, sid: nat, layer: nat, start: nat, n: nat)
    requires Ready(s, cfg, sid, layer)
    requires |BlockTableOf(s.store, sid)| <= CeilDiv(start + n, cfg.tpb)
    requires MemoBehind(s, sid, start) || (FreshMemo(s, cfg, sid, start) && |BlockTableOf(s.store, sid)| == CeilDiv(start + n, cfg.tpb))
    ensures ValidPool(s.store.pool) && cfg.tpb > 0
    ensures var (s1, ok) := EnsureCapacity(s, cfg, sid, start + n);
            ok ==> Ready(s1, cfg, sid, layer) && FreshMemo(s1, cfg, sid, start) && ShapeOf(s1) == ShapeOf(s)
  {
    hide *;
    ReadyShows(s, cfg, sid, layer);
    EnsureCapacityIs(s, cfg, sid, start + n);
    MaxIs(|BlockTableOf(s.store, sid)|, CeilDiv(start + n, cfg.tpb));
    var (s1, ok1) := EnsureCapacity(s, cfg, sid, start + n);
    if ok1 {
      GrewLayout(s.store, s1.store, sid, CeilDiv(start + n, cfg.tpb) - |BlockTableOf(s.store, sid)|, cfg.spacer);
      GeometryKept(s, s1, cfg);
      ReadyFrom(s1, cfg, sid, layer);
      if MemoBehind(s, sid, start) {
        BehindSame(s, s1, sid, start);
        VacuousMemo(s1, cfg, sid, start);
      } else {
        FreshOnSameStore(s, s1, cfg, sid, start);
      }
    }
  }

  lemma OneTokenSpan(s: PoolState, cfg: PoolConfig, sid: nat, layer: nat, from: nat, key: Row, value: Row)
    requires ValidPool(s.store.pool) && cfg.tpb > 0
    ensures var (s1, frame) := WritableFrame(s, cfg, sid, from);
            && ValidPool(s1.store.pool)
            && WriteSpan(s, cfg, sid, layer, from, [key], [value]) ==
               if frame.None? then (s1, false) else (StoreBlockRows(s1, frame.value, layer, from % cfg.tpb, [key], [value]), true)
  {
    hide WritableFrame, StoreBlockRows, ValidPool, WriteSpan;
    WriteSpanStep(s, cfg, sid, layer, from, [key], [value]);
    assert [key][..1] == [key] && [value][..1] == [value] && [key][1..] == [] && [value][1..] == [];
    var (s1, frame) := WritableFrame(s, cfg, sid, from);
    if frame.Some? {
      NothingToWrite(StoreBlockRows(s1, frame.value, layer, from % cfg.tpb, [key], [value]), cfg, sid, layer, from + 1);
    }
  }

  lemma HeadGroup(heads: nat, kvHeads: nat, h: nat)
    requires kvHeads > 0 && heads % kvHeads == 0 && h < heads
    ensures heads / kvHeads > 0 && h / (heads / kvHeads) < kvHeads
  {
    DivExact(heads, kvHeads);
    Swap(heads / kvHeads, kvHeads);
    DivSplits(h, heads / kvHeads, kvHeads);
  }

  /** One query head's output: attention over its kv head's part of everything appended. */
  ghost predicate HeadAttended(row: Row, queries: seq<Row>, shape: BlockShape, lists: Lists, scale: real, e: Softmax.Exp, h: nat)
    requires h < |queries| && shape.numKvHeads > 0 && Softmax.ExpLaws(e) && |queries[h]| == shape.headDim
    requires RowsOf(lists.keys, TokenElems(shape)) && RowsOf(lists.values, TokenElems(shape)) && |lists.values| == |lists.keys| > 0
  {
    && |queries| % shape.numKvHeads == 0
    && var kv := (HeadGroup(|queries|, shape.numKvHeads, h); h / (|queries| / shape.numKvHeads));
       row == AttentionSpec.Attended(e, queries[h], HeadsOf(lists.keys, shape, kv), HeadsOf(lists.values, shape, kv), scale)
  }

  lemma HeadIsAttended(l: TritonKernel.Launch, row: Row, queries: seq<Row>, shape: BlockShape, lists: Lists, scale: real, e: Softmax.Exp, h: nat)
    requires h < |queries| && shape.numKvHeads > 0 && Softmax.ExpLaws(e) && |queries[h]| == shape.headDim && |queries| % shape.numKvHeads == 0
    requires RowsOf(lists.keys, TokenElems(shape)) && RowsOf(lists.values, TokenElems(shape)) && |lists.values| == |lists.keys| > 0
    requires |queries| / shape.numKvHeads > 0 && h / (|queries| / shape.numKvHeads) < shape.numKvHeads
    requires TritonKernel.LaunchOk(l) && l.query == queries[h] && l.scale == scale && l.contextLen > 0
    requires TritonKernel.FlatRows(l, Key) == HeadsOf(lists.keys, shape, h / (|queries| / shape.numKvHeads))
    requires TritonKernel.FlatRows(l, Value) == HeadsOf(lists.values, shape, h / (|queries| / shape.numKvHeads))
    requires row == AttentionSpec.Attended(e, l.query, TritonKernel.FlatRows(l, Key), TritonKernel.FlatRows(l, Value), l.scale)
    ensures HeadAttended(row, queries, shape, lists, scale, e, h)
  {
    hide Softmax.ExpLaws, TritonKernel.LaunchOk, RowsOf, TokenElems;
  }

  lemma BothStreams(s: PoolState, cfg: PoolConfig, sid: nat, layer: nat, lists: Lists)
    requires Ready(s, cfg, sid, layer) && ShapeOf(s).tokensPerBlock > 0 && layer < ShapeOf(s).FrameLayers()
    requires Holds(Reading(s.store, sid), ShapeOf(s), layer, lists)
    ensures |lists.values| == |lists.keys| && RowsOf(lists.keys, TokenElems(ShapeOf(s))) && RowsOf(lists.values, TokenElems(ShapeOf(s)))
  {
    hide *;
    ReadyShows(s, cfg, sid, layer);
    HoldsShows(Reading(s.store, sid), ShapeOf(s), layer, lists);
    ReadingsSized(s, cfg, sid);
    forall t | 0 <= t < |lists.keys|
      ensures |lists.keys[t]| == TokenElems(ShapeOf(s)) && |lists.values[t]| == TokenElems(ShapeOf(s))
    {
      TokenSize(Reading(s.store, sid), ShapeOf(s), layer, Key, t);
      TokenSize(Reading(s.store, sid), ShapeOf(s), layer, Value, t);
    }
    RowsOfFrom(lists.keys, TokenElems(ShapeOf(s)));
    RowsOfFrom(lists.values, TokenElems(ShapeOf(s)));
  }

  lemma TokenSize(frames: seq<Frame>, s: BlockShape, layer: nat, stream: KVStream, t: nat)
    requires s.tokensPerBlock > 0 && layer < s.FrameLayers() && t / s.tokensPerBlock < |frames| && Sized(frames, s)
    ensures |TokenAt(frames, s, layer, stream, t)| == TokenElems(s)
  {
    hide ElementCount, RowIndex, TokenElems;
    RowFitsFrame(s, layer, stream, t % s.tokensPerBlock);
  }

  class PagedLayer {
    const pool: PagedPool
    const layerIdx: nat
    const sequenceId: nat
    var length: nat

    constructor (pool: PagedPool, layerIdx: nat, sequenceId: nat)
      ensures this.pool == pool && this.layerIdx == layerIdx && this.sequenceId == sequenceId && length == 0
    {
      this.pool, this.layerIdx, this.sequenceId, length := pool, layerIdx, sequenceId, 0;
    }

    /** Resolves one block's frame and assigns its keys and values. */
    method WriteRows(position: nat, keys: seq<Row>, values: seq<Row>) returns (ok: bool)
      requires pool.Valid() && Ready(pool.Model(), pool.Cfg(), sequenceId, layerIdx)
      requires FreshMemo(pool.Model(), pool.Cfg(), sequenceId, position)
      requires |values| == |keys| > 0 && position % pool.tokensPerBlock + |keys| <= pool.tokensPerBlock
      requires RowsOf(keys, TokenElems(pool.manager.allocator.shape)) && RowsOf(values, TokenElems(pool.manager.allocator.shape))
      modifies pool.Repr()
      ensures pool.Valid() && pool.manager.allocator.backend == old(pool.manager.allocator.backend)
      ensures var (s1, frame) := WritableFrame(old(pool.Model()), pool.Cfg(), sequenceId, position);
              && (ok <==> frame.Some?)
              && pool.Model() == if frame.None? then s1
                                 else StoreBlockRows(s1, frame.value, layerIdx, position % pool.tokensPerBlock, keys, values)
      ensures ok ==>
                && Ready(pool.Model(), pool.Cfg(), sequenceId, layerIdx)
                && FreshMemo(pool.Model(), pool.Cfg(), sequenceId, position + |keys|)
    {
      hide ValidPool, CacheRuns.Inv, Ready, FreshMemo, WritableFrame, StoreSlice, StoreBlockRows, Flatten, StreamBase, TokenElems, RowsOf;
      ghost var s := pool.Model();
      ReadyShows(s, pool.Cfg(), sequenceId, layerIdx);
      RoundIsSafe(s, pool.Cfg(), sequenceId, layerIdx, position, keys, values);
      RoundLeavesReady(s, pool.Cfg(), sequenceId, layerIdx, position, keys, values);
      var offset := position % pool.tokensPerBlock;
      var frame := pool.Writable(sequenceId, position);
      if frame.None? {
        return false;
      }
      ghost var s1 := pool.Model();
      var shape := pool.manager.allocator.shape;
      var tok := TokenElems(shape);
      var keyAt, valAt := StreamBase(shape, layerIdx, Key) + offset * tok, StreamBase(shape, layerIdx, Value) + offset * tok;
      StoreKeepsSizes(s1, frame.value, keyAt, Flatten(keys));
      StoreBlockIs(s1, frame.value, layerIdx, offset, keys, values);
      pool.Assign(frame.value, keyAt, Flatten(keys));
      pool.Assign(frame.value, valAt, Flatten(values));
      ReadyShows(pool.Model(), pool.Cfg(), sequenceId, layerIdx);
      ok := true;
    }

    /** A span, walking block boundaries. */
    method WriteSpanRows(start: nat, keys: seq<Row>, values: seq<Row>) returns (ok: bool)
      requires pool.Valid() && Ready(pool.Model(), pool.Cfg(), sequenceId, layerIdx)
      requires FreshMemo(pool.Model(), pool.Cfg(), sequenceId, start)
      requires |values| == |keys|
      requires RowsOf(keys, TokenElems(pool.manager.allocator.shape)) && RowsOf(values, TokenElems(pool.manager.allocator.shape))
      modifies pool.Repr()
      ensures pool.Valid() && pool.manager.allocator.backend == old(pool.manager.allocator.backend)
      ensures (pool.Model(), ok) == WriteSpan(old(pool.Model()), pool.Cfg(), sequenceId, layerIdx, start, keys, values)
    {
      hide ValidPool, CacheRuns.Inv, Ready, FreshMemo, WritableFrame, StoreBlockRows, WriteSpan, TokenElems, RowsOf;
      ReadyShows(pool.Model(), pool.Cfg(), sequenceId, layerIdx);
      ghost var result := WriteSpan(pool.Model(), pool.Cfg(), sequenceId, layerIdx, start, keys, values);
      var end := start + |keys|;
      var position := start;
      assert keys[0..] == keys && values[0..] == values;
      while position < end
        invariant start <= position <= end && pool.Valid() && pool.manager.allocator.backend == old(pool.manager.allocator.backend)
        invariant Ready(pool.Model(), pool.Cfg(), sequenceId, layerIdx) && FreshMemo(pool.Model(), pool.Cfg(), sequenceId, position)
        invariant WriteSpan(pool.Model(), pool.Cfg(), sequenceId, layerIdx, position, keys[position - start..], values[position - start..]) == result
      {
        ghost var k, v := keys[position - start..], values[position - start..];
        WriteSpanStep(pool.Model(), pool.Cfg(), sequenceId, layerIdx, position, k, v);
        var offset := position % pool.tokensPerBlock;
        var count := Min(pool.tokensPerBlock - offset, end - position);
        var i := position - start;
        PartRows(keys, i, TokenElems(pool.manager.allocator.shape));
        PartRows(values, i, TokenElems(pool.manager.allocator.shape));
        PartRows(k, count, TokenElems(pool.manager.allocator.shape));
        PartRows(v, count, TokenElems(pool.manager.allocator.shape));
        assert k[..count] == keys[i..i + count] && v[..count] == values[i..i + count];
        assert k[count..] == keys[i + count..] && v[count..] == values[i + count..];
        var wrote := WriteRows(position, keys[i..i + count], values[i..i + count]);
        if !wrote {
          return false;
        }
        position := position + count;
      }
      assert keys[position - start..] == [] && values[position - start..] == [];
      ReadyShows(pool.Model(), pool.Cfg(), sequenceId, layerIdx);
      NothingToWrite(pool.Model(), pool.Cfg(), sequenceId, layerIdx, position);
      ok := true;
    }

    /** Reassembles the first `length` rows of both streams from the sequence's frames. */
    method Gather(ghost lists: Lists) returns (keys: seq<Row>, values: seq<Row>)
      requires pool.Valid() && Ready(pool.Model(), pool.Cfg(), sequenceId, layerIdx)
      requires |lists.keys| == length && CeilDiv(length, pool.tokensPerBlock) <= |BlockTableOf(pool.Model().store, sequenceId)|
      requires ShapeOf(pool.Model()).tokensPerBlock > 0 && layerIdx < ShapeOf(pool.Model()).FrameLayers()
      requires Holds(Reading(pool.Model().store, sequenceId), ShapeOf(pool.Model()), layerIdx, lists)
      modifies pool
      ensures pool.Valid() && pool.Model() == GatherFrames(old(pool.Model()), pool.Cfg(), sequenceId, length).0
      ensures keys == lists.keys && values == lists.values
    {
      hide ValidPool, CacheRuns.Inv, Ready, BlockTableOf, CeilDiv, GatherFrames, GatherOk, Gathered, Holds, TokenElems, StreamBase, ElementCount, RowIndex;
      ReadyShows(pool.Model(), pool.Cfg(), sequenceId, layerIdx);
      GatherReturnsLists(pool.Model(), pool.Cfg(), sequenceId, layerIdx, lists);
      var index := pool.FrameIndex(sequenceId, length);
      keys := GatherStream(index, Key);
      values := GatherStream(index, Value);
    }

    method GatherStream(index: seq<nat>, stream: KVStream) returns (rows: seq<Row>)
      requires pool.Valid() && GatherOk(pool.Model(), index, layerIdx, length)
      ensures rows == Gathered(pool.Model(), index, layerIdx, stream, length)
    {
      hide ValidPool, CacheRuns.Inv, GatherOk, Gathered, TokenElems, ElementCount, RowIndex, CeilDiv;
      rows := [];
      var t := 0;
      while t < length
        invariant t <= length && |rows| == t
        invariant forall k :: 0 <= k < t ==> rows[k] == Gathered(pool.Model(), index, layerIdx, stream, length)[k]
      {
        GatheredIs(pool.Model(), index, layerIdx, stream, length, t);
        var shape := pool.manager.allocator.shape;
        var frame := pool.manager.allocator.blocks[index[t / shape.tokensPerBlock]];
        rows := rows + [RowAt(frame, RowIndex(shape, layerIdx, stream, t % shape.tokensPerBlock), TokenElems(shape))];
        t := t + 1;
      }
    }

    /** A single token takes the short path. */
    method WriteNew(start: nat, keys: seq<Row>, values: seq<Row>) returns (ok: bool)
      requires pool.Valid() && Ready(pool.Model(), pool.Cfg(), sequenceId, layerIdx)
      requires FreshMemo(pool.Model(), pool.Cfg(), sequenceId, start)
      requires |values| == |keys|
      requires RowsOf(keys, TokenElems(pool.manager.allocator.shape)) && RowsOf(values, TokenElems(pool.manager.allocator.shape))
      modifies pool.Repr()
      ensures pool.Valid() && pool.manager.allocator.backend == old(pool.manager.allocator.backend)
      ensures (pool.Model(), ok) == WriteSpan(old(pool.Model()), pool.Cfg(), sequenceId, layerIdx, start, keys, values)
    {
      hide ValidPool, CacheRuns.Inv, Ready, FreshMemo, TokenElems, RowsOf, WriteSpan;
      if |keys| == 1 {
        assert keys == [keys[0]] && values == [values[0]];
        ok := WriteOne(keys[0], values[0], start);
      } else {
        ok := WriteSpanRows(start, keys, values);
      }
    }

    /**
      Grows and writes.  A single token on a kernel pool comes back as it is, for AttendDecode to
      follow; otherwise a gather returns everything this layer was ever given.
     */
    method Update(keys: seq<Row>, values: seq<Row>, ghost lists: seq<Lists>) returns (ok: bool, allKeys: seq<Row>, allValues: seq<Row>)
      requires pool.Valid() && Ready(pool.Model(), pool.Cfg(), sequenceId, layerIdx)
      requires AllHold(pool.Model(), sequenceId, lists) && layerIdx < |lists| && |lists[layerIdx].keys| == length
      requires |values| == |keys|
      requires RowsOf(keys, TokenElems(pool.manager.allocator.shape)) && RowsOf(values, TokenElems(pool.manager.allocator.shape))
      requires |BlockTableOf(pool.Model().store, sequenceId)| <= CeilDiv(length + |keys|, pool.tokensPerBlock)
      requires MemoBehind(pool.Model(), sequenceId, length)
               || (FreshMemo(pool.Model(), pool.Cfg(), sequenceId, length)
                   && |BlockTableOf(pool.Model().store, sequenceId)| == CeilDiv(length + |keys|, pool.tokensPerBlock))
      modifies this`length, pool.Repr()
      ensures pool.Valid() && pool.manager.allocator.backend == old(pool.manager.allocator.backend)
      ensures var (s1, done) := UpdateLayer(old(pool.Model()), pool.Cfg(), sequenceId, layerIdx, old(length), keys, values);
              && ok == done
              && (ok ==> pool.Model() == if ToKernel(pool.Cfg(), |keys|) then s1
                                         else GatherFrames(s1, pool.Cfg(), sequenceId, old(length) + |keys|).0)
      ensures ok ==> length == old(length) + |keys|
      ensures ok && ToKernel(pool.Cfg(), |keys|) ==> allKeys == keys && allValues == values
      ensures ok && !ToKernel(pool.Cfg(), |keys|) ==> allKeys == lists[layerIdx].keys + keys && allValues == lists[layerIdx].values + values
    {
      hide ValidPool, CacheRuns.Inv, Ready, FreshMemo, MemoBehind, BlockTableOf, CeilDiv, GatherFrames, AllHold, TokenElems, RowsOf,
           EnsureCapacity, WriteSpan, UpdateLayer, Reading, Updated, WritableFrame, StoreBlockRows, PoolInv, MemosAgree, Geometry,
           Untouched, Holds;
      ghost var s := pool.Model();
      var start, end := length, length + |keys|;
      ReadyShows(s, pool.Cfg(), sequenceId, layerIdx);
      LayerIsUpdated(s, pool.Cfg(), sequenceId, layerIdx, start, lists, Lists(keys, values));
      UpdateIs(s, pool.Cfg(), sequenceId, layerIdx, start, keys, values);
      GrownForUpdate(s, pool.Cfg(), sequenceId, layerIdx, start, |keys|);
      allKeys, allValues := [], [];
      ok := pool.Ensure(sequenceId, end);
      if !ok {
        return;
      }
      ok := WriteNew(start, keys, values);
      if !ok {
        return;
      }
      length := end;
      if |keys| == 1 && pool.useKernel {
        allKeys, allValues := keys, values;
        return;
      }
      ghost var s2 := pool.Model();
      ghost var lists' := lists[layerIdx := Append(lists[layerIdx], Lists(keys, values))];
      UpdatedShows(s, s2, pool.Cfg(), sequenceId, start, |keys|, lists');
      ReadyFrom(s2, pool.Cfg(), sequenceId, layerIdx);
      AllHoldAt(s2, sequenceId, lists', layerIdx);
      allKeys, allValues := Gather(lists'[layerIdx]);
    }

    /** One token, already in the model's layout. */
    method WriteOne(key: Row, value: Row, position: nat) returns (ok: bool)
      requires pool.Valid() && Ready(pool.Model(), pool.Cfg(), sequenceId, layerIdx)
      requires FreshMemo(pool.Model(), pool.Cfg(), sequenceId, position)
      requires RowsOf([key], TokenElems(pool.manager.allocator.shape)) && RowsOf([value], TokenElems(pool.manager.allocator.shape))
      modifies pool.Repr()
      ensures pool.Valid() && pool.manager.allocator.backend == old(pool.manager.allocator.backend)
      ensures (pool.Model(), ok) == WriteSpan(old(pool.Model()), pool.Cfg(), sequenceId, layerIdx, position, [key], [value])
    {
      hide ValidPool, CacheRuns.Inv, Ready, FreshMemo, WritableFrame, StoreBlockRows, WriteSpan, TokenElems, RowsOf;
      ReadyShows(pool.Model(), pool.Cfg(), sequenceId, layerIdx);
      OneTokenSpan(pool.Model(), pool.Cfg(), sequenceId, layerIdx, position, key, value);
      ok := WriteRows(position, [key], [value]);
    }

    /** Attention of one decode step, straight off the pages: each query head over its kv head's tokens. */
    method AttendDecode(queries: seq<Row>, scale: real, e: Softmax.Exp, ghost lists: Lists) returns (ok: bool, out: seq<Row>)
      requires pool.Valid() && Ready(pool.Model(), pool.Cfg(), sequenceId, layerIdx) && Softmax.ExpLaws(e)
      requires |lists.keys| == length > 0 && CeilDiv(length, pool.tokensPerBlock) <= |BlockTableOf(pool.Model().store, sequenceId)|
      requires ShapeOf(pool.Model()).tokensPerBlock > 0 && layerIdx < ShapeOf(pool.Model()).FrameLayers()
      requires Holds(Reading(pool.Model().store, sequenceId), ShapeOf(pool.Model()), layerIdx, lists)
      requires forall h :: 0 <= h < |queries| ==> |queries[h]| == pool.manager.allocator.shape.headDim
      modifies pool
      ensures pool.Valid() && pool.Model() == DecodeInputs(old(pool.Model()), pool.Cfg(), sequenceId, length).0
      ensures var shape := pool.manager.allocator.shape;
              && shape.numKvHeads > 0 && (ok <==> |queries| % shape.numKvHeads == 0)
              && RowsOf(lists.keys, TokenElems(shape)) && RowsOf(lists.values, TokenElems(shape)) && |lists.values| == |lists.keys|
              && (ok ==> |out| == |queries| && forall h :: 0 <= h < |queries| ==> HeadAttended(out[h], queries, shape, lists, scale, e, h))
    {
      hide ValidPool, CacheRuns.Inv, Ready, BlockTableOf, CeilDiv, DecodeInputs, Holds, TokenElems, ElementCount, RowIndex, RowsOf, Softmax.ExpLaws,
           BranchLaunch, HeadAttended, TritonKernel.FlatRows, TritonKernel.LaunchOk;
      ghost var s := pool.Model();
      var shape := pool.manager.allocator.shape;
      ReadyShows(s, pool.Cfg(), sequenceId, layerIdx);
      GeometryShows(s, pool.Cfg());
      ContextCovered(length, pool.tokensPerBlock);
      BothStreams(s, pool.Cfg(), sequenceId, layerIdx, lists);
      var table, context := pool.Inputs(sequenceId, length);
      out := [];
      ok := |queries| % shape.numKvHeads == 0;
      if !ok {
        return;
      }
      var h := 0;
      while h < |queries|
        invariant h <= |queries| && |out| == h && pool.Valid()
        invariant (pool.Model(), table, context) == DecodeInputs(s, pool.Cfg(), sequenceId, length)
        invariant forall k :: 0 <= k < h ==> HeadAttended(out[k], queries, shape, lists, scale, e, k)
      {
        var row := AttendHead(table, context, queries, h, scale, e, s, lists);
        out := out + [row];
        h := h + 1;
      }
    }

    /** The programs of one query head. */
    method AttendHead(table: seq<nat>, context: nat, queries: seq<Row>, h: nat, scale: real, e: Softmax.Exp, ghost s: PoolState, ghost lists: Lists)
      returns (row: Row)
      requires pool.Valid() && Ready(s, pool.Cfg(), sequenceId, layerIdx) && Softmax.ExpLaws(e)
      requires (pool.Model(), table, context) == DecodeInputs(s, pool.Cfg(), sequenceId, length)
      requires |lists.keys| == length > 0 && 0 < CeilDiv(length, pool.tokensPerBlock) <= |BlockTableOf(s.store, sequenceId)|
      requires ShapeOf(s) == pool.manager.allocator.shape && ShapeOf(s).tokensPerBlock > 0 && ShapeOf(s).numKvHeads > 0
      requires layerIdx < ShapeOf(s).FrameLayers() && Holds(Reading(s.store, sequenceId), ShapeOf(s), layerIdx, lists)
      requires RowsOf(lists.keys, TokenElems(ShapeOf(s))) && RowsOf(lists.values, TokenElems(ShapeOf(s))) && |lists.values| == |lists.keys|
      requires h < |queries| && |queries| % ShapeOf(s).numKvHeads == 0 && |queries[h]| == ShapeOf(s).headDim
      ensures HeadAttended(row, queries, ShapeOf(s), lists, scale, e, h)
    {
      hide ValidPool, CacheRuns.Inv, Ready, BlockTableOf, CeilDiv, DecodeInputs, Holds, TokenElems, ElementCount, RowIndex, RowsOf, Softmax.ExpLaws,
           BranchLaunch, HeadAttended, TritonKernel.FlatRows, TritonKernel.LaunchOk;
      ReadyShows(s, pool.Cfg(), sequenceId, layerIdx);
      HeadGroup(|queries|, ShapeOf(s).numKvHeads, h);
      var kv := h / (|queries| / pool.manager.allocator.shape.numKvHeads);
      LaunchReadsLists(s, pool.Cfg(), sequenceId, layerIdx, lists, kv, queries[h], scale);
      var launch := LaunchOn(table, context, kv, queries[h], scale);
      var attended := TritonKernel.DecodePartitioned(launch, e, |table|, 1, |queries|, None);
      HeadIsAttended(launch, attended.value, queries, ShapeOf(s), lists, scale, e, h);
      row := attended.value;
    }

    method LaunchOn(table: seq<nat>, context: nat, kv: nat, query: Row, scale: real) returns (launch: TritonKernel.Launch)
      ensures launch == BranchLaunch(pool.Model(), table, context, layerIdx, kv, query, scale)
    {
      var shape := pool.manager.allocator.shape;
      launch := TritonKernel.Launch(pool.manager.allocator.blocks, table, context, layerIdx, kv,
                                    LayerStride(shape), StreamStride(shape), TokenStride(shape), HeadStride(shape),
                                    shape.tokensPerBlock, query, scale);
    }
  }
}
