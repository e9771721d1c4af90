/**
  Decode attention over the transformers cache: what a kernel launch on a branch's pages reads is,
  head by head, everything appended to that branch, so the kernels attend to the append list.
 */
module PagedDecode {
  import opened Wrappers
  import opened Vectors
  import opened Arithmetic
  import opened SwapStore
  import opened FramePool
  import opened CacheLayout
  import opened PagedPoolModel
  import opened PagedPoolMemos
  import opened PagedRows
  import opened PagedLayers
  import opened PagedCacheRuns
  import opened TritonKernel
  import Softmax
  import AttentionSpec

  /** `attend_decode` for one kv head: the layout's strides, the cached table and the layer's length. */
  function BranchLaunch(s: PoolState, table: seq<nat>, context: nat, layer: nat, head: nat, query: Row, scale: real): Launch {
    var shape := ShapeOf(s);
    Launch(s.store.pool.bytes, table, context, layer, head,
           LayerStride(shape), StreamStride(shape), TokenStride(shape), HeadStride(shape), shape.tokensPerBlock, query, scale)
  }

  lemma SliceOfRow(s: BlockShape, head: nat)
    requires head < s.numKvHeads
    ensures head * s.headDim + s.headDim <= TokenElems(s)
  {
    AttentionSpec.RowFits(head, s.numKvHeads, s.headDim);
  }

  /** One kv head's part of a token's row. */
  function HeadOf(row: Row, s: BlockShape, head: nat): (r: Row)
    requires head < s.numKvHeads && |row| == TokenElems(s)
    ensures |r| == s.headDim
  {
    SliceOfRow(s, head);
    row[head * s.headDim..head * s.headDim + s.headDim]
  }

  function HeadsOf(rows: seq<Row>, s: BlockShape, head: nat): (r: seq<Row>)
    requires head < s.numKvHeads && RowsOf(rows, TokenElems(s))
    ensures |r| == |rows| && Softmax.Rows(r, s.headDim)
  {
    seq(|rows|, t requires 0 <= t < |rows| => HeadOf(rows[t], s, head))
  }

  // ---- Addresses ------------------------------------------------------------------------------------------

  /** The kernel's offset of a head vector is its place in the token's row. */
  lemma OffsetInRow(s: PoolState, table: seq<nat>, context: nat, layer: nat, head: nat, query: Row, scale: real, stream: KVStream, t: nat)
    requires layer < ShapeOf(s).FrameLayers() && head < ShapeOf(s).numKvHeads && t < ShapeOf(s).tokensPerBlock
    ensures var shape := ShapeOf(s);
            var offset := TileOffset(BranchLaunch(s, table, context, layer, head, query, scale), stream, t);
            && offset == RowIndex(shape, layer, stream, t) * TokenElems(shape) + head * shape.headDim
            && offset + shape.headDim <= RowIndex(shape, layer, stream, t) * TokenElems(shape) + TokenElems(shape) <= ElementCount(shape)
  {
    hide RowIndex, ElementCount, StreamStride, LayerStride;
    var shape := ShapeOf(s);
    RowsAreStrided(shape, layer, stream, t);
    RowFitsFrame(shape, layer, stream, t);
    SliceOfRow(shape, head);
    assert TokenStride(shape) == TokenElems(shape);
  }

  /** A head vector the launch loads is the head's part of a row of that frame. */
  ghost predicate LoadsHead(l: Launch, block: nat, stream: KVStream, t: nat, frame: Frame, k: nat, shape: BlockShape, head: nat)
    requires head < shape.numKvHeads
  {
    && TileFits(l, block, stream, t) && k * TokenElems(shape) + TokenElems(shape) <= |frame|
    && LoadRow(l, block, stream, t) == HeadOf(RowAt(frame, k, TokenElems(shape)), shape, head)
  }

  lemma LoadsHeadShows(l: Launch, block: nat, stream: KVStream, t: nat, frame: Frame, k: nat, shape: BlockShape, head: nat)
    requires head < shape.numKvHeads && LoadsHead(l, block, stream, t, frame, k, shape, head)
    ensures TileFits(l, block, stream, t) && k * TokenElems(shape) + TokenElems(shape) <= |frame|
    ensures |RowAt(frame, k, TokenElems(shape))| == TokenElems(shape)
    ensures LoadRow(l, block, stream, t) == HeadOf(RowAt(frame, k, TokenElems(shape)), shape, head)
  {
    hide TileFits, TokenElems, HeadOf;
  }

  lemma LoadsHeadFrom(l: Launch, block: nat, stream: KVStream, t: nat, frame: Frame, k: nat, shape: BlockShape, head: nat)
    requires head < shape.numKvHeads && block < |l.table| && l.table[block] < |l.frames| && frame == l.frames[l.table[block]]
    requires |l.query| == shape.headDim && TileOffset(l, stream, t) == k * TokenElems(shape) + head * shape.headDim
    requires head * shape.headDim + shape.headDim <= TokenElems(shape) && k * TokenElems(shape) + TokenElems(shape) <= |frame|
    ensures LoadsHead(l, block, stream, t, frame, k, shape, head)
  {
    hide TileOffset, TokenElems;
    SliceOfSlice(frame, k * TokenElems(shape), TokenElems(shape), head * shape.headDim, shape.headDim);
  }

  lemma LaunchReaches(s: PoolState, table: seq<nat>, context: nat, layer: nat, head: nat, query: Row, scale: real)
    ensures var l := BranchLaunch(s, table, context, layer, head, query, scale);
            l.table == table && l.frames == s.store.pool.bytes && l.query == query
  {}

  lemma LoadedIsHead(s: PoolState, table: seq<nat>, context: nat, layer: nat, head: nat, query: Row, scale: real, block: nat, stream: KVStream, t: nat)
    requires layer < ShapeOf(s).FrameLayers() && head < ShapeOf(s).numKvHeads && t < ShapeOf(s).tokensPerBlock
    requires |query| == ShapeOf(s).headDim && block < |table| && table[block] < |s.store.pool.bytes|
    requires |s.store.pool.bytes[table[block]]| >= ElementCount(ShapeOf(s))
    ensures LoadsHead(BranchLaunch(s, table, context, layer, head, query, scale), block, stream, t, s.store.pool.bytes[table[block]],
                      RowIndex(ShapeOf(s), layer, stream, t), ShapeOf(s), head)
  {
    hide *;
    OffsetInRow(s, table, context, layer, head, query, scale, stream, t);
    SliceOfRow(ShapeOf(s), head);
    LaunchReaches(s, table, context, layer, head, query, scale);
    LoadsHeadFrom(BranchLaunch(s, table, context, layer, head, query, scale), block, stream, t, s.store.pool.bytes[table[block]],
                  RowIndex(ShapeOf(s), layer, stream, t), ShapeOf(s), head);
  }

  lemma SliceOfSlice(f: Frame, at: nat, size: nat, from: nat, n: nat)
    requires at + size <= |f| && from + n <= size
    ensures f[at..at + size][from..from + n] == f[at + from..at + from + n]
  {
    var row := f[at..at + size];
    var inner, outer := row[from..from + n], f[at + from..at + from + n];
    forall i | 0 <= i < n
      ensures inner[i] == outer[i]
    {
      assert row[from + i] == f[at + (from + i)];
    }
  }

  // ---- One launch -------------------------------------------------------------------------------------------

  lemma ContextCovered(n: nat, tpb: nat)
    requires tpb > 0 && n > 0
    ensures CeilDiv(n, tpb) > 0
  {
    CeilDivIsLeastCover(n, tpb, 0);
  }

  lemma LaunchFields(s: PoolState, table: seq<nat>, context: nat, layer: nat, head: nat, query: Row, scale: real)
    ensures var l := BranchLaunch(s, table, context, layer, head, query, scale);
            && l.tpb == ShapeOf(s).tokensPerBlock && l.contextLen == context && l.query == query && l.table == table && l.scale == scale
  {}

  lemma LaunchOkFrom(l: Launch)
    requires l.tpb > 0 && l.contextLen > 0
    requires forall b: nat, stream, t: nat :: t < l.tpb && b < CeilDiv(l.contextLen, l.tpb) ==> TileFits(l, b, stream, t)
    ensures LaunchOk(l)
  {
    hide TileFits, CeilDiv;
  }

  /** One token's vector through the launch is its head's part of the row the blocks hold. */
  lemma FlatRowIsHead(s: PoolState, cfg: PoolConfig, sid: nat, layer: nat, head: nat, query: Row, scale: real, length: nat, stream: KVStream, t: nat)
    requires cfg.tpb > 0 && PoolInv(s, cfg) && Geometry(s, cfg) && sid in s.store.seqs
    requires Sized(Reading(s.store, sid), ShapeOf(s)) && |Reading(s.store, sid)| == |BlockTableOf(s.store, sid)|
    requires ShapeOf(s).tokensPerBlock == cfg.tpb && layer < ShapeOf(s).FrameLayers() && head < ShapeOf(s).numKvHeads
    requires |query| == ShapeOf(s).headDim && t < length && CeilDiv(length, cfg.tpb) <= |BlockTableOf(s.store, sid)|
    ensures t / cfg.tpb < |Reading(s.store, sid)|
    ensures var l := BranchLaunch(s, BlockTableOf(s.store, sid)[..CeilDiv(length, cfg.tpb)], length, layer, head, query, scale);
            var row := TokenAt(Reading(s.store, sid), ShapeOf(s), layer, stream, t);
            && |row| == TokenElems(ShapeOf(s))
            && (LaunchOk(l) ==> FlatRow(l, stream, t) == HeadOf(row, ShapeOf(s), head))
  {
    hide *;
    var table := BlockTableOf(s.store, sid)[..CeilDiv(length, cfg.tpb)];
    var l := BranchLaunch(s, table, length, layer, head, query, scale);
    WithinBlocks(t, length, cfg.tpb);
    var b := t / cfg.tpb;
    BlockReads(s, cfg, sid, b);
    SizedAt(Reading(s.store, sid), ShapeOf(s), b);
    TokenIs(Reading(s.store, sid), ShapeOf(s), layer, stream, t);
    LoadedIsHead(s, table, length, layer, head, query, scale, b, stream, t % cfg.tpb);
    LoadsHeadShows(l, b, stream, t % cfg.tpb, s.store.pool.bytes[table[b]], RowIndex(ShapeOf(s), layer, stream, t % cfg.tpb), ShapeOf(s), head);
    LaunchFields(s, table, length, layer, head, query, scale);
    if LaunchOk(l) {
      FlatRowIs(l, stream, t);
    }
    RowAtSize(Reading(s.store, sid)[b], RowIndex(ShapeOf(s), layer, stream, t % cfg.tpb), TokenElems(ShapeOf(s)));
  }

  lemma RowAtSize(frame: Frame, k: nat, size: nat)
    requires k * size + size <= |frame|
    ensures |RowAt(frame, k, size)| == size
  {}

  lemma FlatRowIs(l: Launch, stream: KVStream, t: nat)
    requires LaunchOk(l) && t < l.contextLen
    ensures l.tpb > 0 && TileFits(l, t / l.tpb, stream, t % l.tpb)
    ensures FlatRow(l, stream, t) == LoadRow(l, t / l.tpb, stream, t % l.tpb)
  {
    hide LaunchOk, TileFits, CeilDiv;
    TokenFits(l, stream, t);
  }

  /** What a launch on a branch reads in one layer is that layer's lists, head by head. */
  lemma LaunchReadsLists(s: PoolState, cfg: PoolConfig, sid: nat, layer: nat, lists: Lists, head: nat, query: Row, scale: real)
    requires cfg.tpb > 0 && PoolInv(s, cfg) && MemosAgree(s, cfg) && Geometry(s, cfg) && sid in s.store.seqs && Some(sid) != cfg.spacer
    requires layer < ShapeOf(s).FrameLayers() && ShapeOf(s).tokensPerBlock > 0 && Holds(Reading(s.store, sid), ShapeOf(s), layer, lists)
    requires 0 < CeilDiv(|lists.keys|, cfg.tpb) <= |BlockTableOf(s.store, sid)| && lists.keys != []
    requires head < ShapeOf(s).numKvHeads && |query| == ShapeOf(s).headDim
    ensures RowsOf(lists.keys, TokenElems(ShapeOf(s))) && RowsOf(lists.values, TokenElems(ShapeOf(s))) && |lists.values| == |lists.keys|
    ensures var (s', table, context) := DecodeInputs(s, cfg, sid, |lists.keys|);
            var l := BranchLaunch(s', table, context, layer, head, query, scale);
            && ShapeOf(s') == ShapeOf(s) && LaunchOk(l) && l.query == query && l.scale == scale
            && 0 < CeilDiv(l.contextLen, l.tpb) <= |table|
            && FlatRows(l, Key) == HeadsOf(lists.keys, ShapeOf(s), head)
            && FlatRows(l, Value) == HeadsOf(lists.values, ShapeOf(s), head)
  {
    hide *;
    var n := |lists.keys|;
    GeometryShows(s, cfg);
    DecodeInputsAreCurrent(s, cfg, sid, n);
    MinIs(CeilDiv(n, cfg.tpb), |BlockTableOf(s.store, sid)|);
    var (s', table, context) := DecodeInputs(s, cfg, sid, n);
    SameStoreShape(s, s');
    SameLaunch(s, s', table, context, layer, head, query, scale);
    var l := BranchLaunch(s, table, context, layer, head, query, scale);
    LaunchFields(s, table, context, layer, head, query, scale);
    HoldsShows(Reading(s.store, sid), ShapeOf(s), layer, lists);
    ReadingsSized(s, cfg, sid);
    forall b: nat, stream, t: nat | t < l.tpb && b < CeilDiv(l.contextLen, l.tpb)
      ensures TileFits(l, b, stream, t)
    {
      BlockReads(s, cfg, sid, b);
      SizedAt(Reading(s.store, sid), ShapeOf(s), b);
      LoadedIsHead(s, table, context, layer, head, query, scale, b, stream, t);
      LoadsHeadShows(l, b, stream, t, s.store.pool.bytes[table[b]], RowIndex(ShapeOf(s), layer, stream, t), ShapeOf(s), head);
    }
    LaunchOkFrom(l);
    forall t | 0 <= t < n
      ensures |lists.keys[t]| == TokenElems(ShapeOf(s)) && FlatRow(l, Key, t) == HeadOf(lists.keys[t], ShapeOf(s), head)
      ensures |lists.values[t]| == TokenElems(ShapeOf(s)) && FlatRow(l, Value, t) == HeadOf(lists.values[t], ShapeOf(s), head)
    {
      FlatRowIsHead(s, cfg, sid, layer, head, query, scale, n, Key, t);
      FlatRowIsHead(s, cfg, sid, layer, head, query, scale, n, Value, t);
    }
    RowsOfFrom(lists.keys, TokenElems(ShapeOf(s)));
    RowsOfFrom(lists.values, TokenElems(ShapeOf(s)));
    FlatRowsAre(l, Key, lists.keys, ShapeOf(s), head);
    FlatRowsAre(l, Value, lists.values, ShapeOf(s), head);
  }

  lemma SameLaunch(s: PoolState, s': PoolState, table: seq<nat>, context: nat, layer: nat, head: nat, query: Row, scale: real)
    requires s'.store == s.store
    ensures BranchLaunch(s', table, context, layer, head, query, scale) == BranchLaunch(s, table, context, layer, head, query, scale)
  {}

  lemma RowsOfFrom(rows: seq<Row>, size: nat)
    requires forall t :: 0 <= t < |rows| ==> |rows[t]| == size
    ensures RowsOf(rows, size)
  {}

  lemma FlatRowsAre(l: Launch, stream: KVStream, rows: seq<Row>, s: BlockShape, head: nat)
    requires LaunchOk(l) && l.contextLen == |rows| && head < s.numKvHeads && RowsOf(rows, TokenElems(s)) && |l.query| == s.headDim
    requires forall t :: 0 <= t < |rows| ==> FlatRow(l, stream, t) == HeadOf(rows[t], s, head)
    ensures FlatRows(l, stream) == HeadsOf(rows, s, head)
  {
    hide LaunchOk, FlatRow, HeadOf, TokenElems;
  }

  // ---- Whole runs -------------------------------------------------------------------------------------------

  /**
    Main result: after every run of steps and forks, a decode launch on any branch, layer and head
    is attention over everything appended to that branch, inherited prefix included.  The kernels'
    contracts say that the whole-context and the split path both compute the launch's attention.
   */
  lemma AttendsToEverythingAppended(c: PagedCache, cfg: PoolConfig, all: map<nat, seq<Lists>>, ops: seq<CacheOp>, c': PagedCache,
                                    sid: nat, layer: nat, head: nat, query: Row, scale: real, e: Softmax.Exp)
    requires CacheOk(c, cfg, all) && cfg.tpb > 0 && RunsTo(c, cfg, ops, c') && sid in c'.lengths && c'.lengths[sid] > 0
    requires layer < ShapeOf(c'.pool).FrameLayers() && head < ShapeOf(c'.pool).numKvHeads && |query| == ShapeOf(c'.pool).headDim
    requires Softmax.ExpLaws(e)
    ensures sid in RunLists(all, ops) && layer < |RunLists(all, ops)[sid]|
    ensures var lists, shape := RunLists(all, ops)[sid][layer], ShapeOf(c'.pool);
            var (s', table, context) := DecodeInputs(c'.pool, cfg, sid, c'.lengths[sid]);
            var l := BranchLaunch(s', table, context, layer, head, query, scale);
            && |lists.values| == |lists.keys| == c'.lengths[sid]
            && RowsOf(lists.keys, TokenElems(shape)) && RowsOf(lists.values, TokenElems(shape))
            && LaunchOk(l) && l.query == query && 0 < CeilDiv(l.contextLen, l.tpb) <= |table|
            && AttentionSpec.Attended(e, query, FlatRows(l, Key), FlatRows(l, Value), l.scale)
            == AttentionSpec.Attended(e, query, HeadsOf(lists.keys, shape, head), HeadsOf(lists.values, shape, head), scale)
  {
    hide *;
    PagedCacheIsAppendList(c, cfg, all, ops, c');
    CacheShows(c', cfg, RunLists(all, ops));
    BranchShows(c', cfg, RunLists(all, ops), sid);
    AllHoldAt(c'.pool, sid, RunLists(all, ops)[sid], layer);
    ContextCovered(c'.lengths[sid], cfg.tpb);
    LaunchReadsLists(c'.pool, cfg, sid, layer, RunLists(all, ops)[sid][layer], head, query, scale);
  }
}
