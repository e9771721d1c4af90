/**
  The kernels' output written out: sums over tokens and dimensions of elements of the bytes a
  sequence reads, with every layer, stream, token, head and dimension named by its position.
 */
module AttentionReference {
  import opened Vectors
  import opened Arithmetic
  import opened SwapStore
  import opened FramePool
  import opened PageTable
  import opened CacheStore
  import opened CacheAccounting
  import opened CacheRefinement
  import opened CacheLayout
  import opened CacheViews
  import opened Softmax
  import opened AttentionSpec
  import opened AttentionOverCache
  import CacheRuns
  import PagedAttention

  // ---- Which layer is read -----------------------------------------------------------------------------

  /** Frames hold one layer each, and every layer has a table of its own. */
  predicate OneLayerPerFrame(s: BlockShape) {
    s.layersPerFrame == 1 && s.numLayers > 1
  }

  lemma LayerPlace(v: CacheView, layer: nat)
    requires v.pool.infos != []
    ensures if OneLayerPerFrame(v.pool.shape) then TableOfLayer(v, layer) == layer && OffsetLayer(v, layer) == 0
            else TableOfLayer(v, layer) == 0 && OffsetLayer(v, layer) == layer
  {}

  /** A sequence has a table per layer when frames hold one layer each, and otherwise one table. */
  lemma TablesPerLayer(st: Store, sid: nat)
    requires MemoryInv(st) && sid in st.seqs && st.pool.infos != []
    ensures |st.seqs[sid].tables| == if OneLayerPerFrame(st.pool.shape) then st.pool.shape.numLayers else 1
  {
    TablesOkOf(st, sid);
  }

  /** A head vector cut out of a sequence's blocks: table, block, layer within the frame, stream, token and head. */
  ghost predicate CutFrom(s: BlockShape, blocks: seq<seq<Frame>>, layer: nat, stream: KVStream, token: nat, head: nat, row: Row) {
    var table, l := if OneLayerPerFrame(s) then layer else 0, if OneLayerPerFrame(s) then 0 else layer;
    && s.tokensPerBlock > 0 && s.headDim > 0 && l < s.FrameLayers() && head < s.numKvHeads
    && table < |blocks| && token / s.tokensPerBlock < |blocks[table]|
    && |blocks[table][token / s.tokensPerBlock]| >= ElementCount(s)
    && row == VectorIn(s, blocks[table][token / s.tokensPerBlock], l, stream, token % s.tokensPerBlock, head)
  }

  lemma CutFromIs(s: BlockShape, blocks: seq<seq<Frame>>, layer: nat, stream: KVStream, token: nat, head: nat, row: Row, table: nat, l: nat)
    requires table == (if OneLayerPerFrame(s) then layer else 0) && l == if OneLayerPerFrame(s) then 0 else layer
    requires s.tokensPerBlock > 0 && s.headDim > 0 && l < s.FrameLayers() && head < s.numKvHeads
    requires table < |blocks| && token / s.tokensPerBlock < |blocks[table]|
    requires |blocks[table][token / s.tokensPerBlock]| >= ElementCount(s)
    ensures CutFrom(s, blocks, layer, stream, token, head, row)
            <==> row == VectorIn(s, blocks[table][token / s.tokensPerBlock], l, stream, token % s.tokensPerBlock, head)
  {
    hide ElementCount, VectorIn;
  }

  /**
    Main result on layers: what a kernel reads for a token is cut out of the bytes its sequence reads,
    from the layer it was asked for: from that layer's own table when frames hold one layer each, and
    otherwise from that layer's part of the frames of the one table.
   */
  lemma ReadsTheLayer(st: Store, sid: nat, p: Params, stream: KVStream, token: nat, head: nat)
    requires MemoryInv(st) && sid in st.seqs
    requires var v := ViewOf(st, sid);
             ValidView(v) && WellSized(v) && Stored(v, p) && Resolved(v, p) && token < p.contextLen && head < Shape(v).numKvHeads
    ensures sid in Abs(st).seqs && Shape(ViewOf(st, sid)) == st.pool.shape
    ensures CutFrom(st.pool.shape, Abs(st).seqs[sid].blocks, p.layer, stream, token, head, KVRow(ViewOf(st, sid), p, stream, token, head))
  {
    hide *;
    var v := ViewOf(st, sid);
    ViewFields(st, sid);
    ShapeOf(v);
    ShapePositive(v);
    ViewIsDense(st, sid);
    LayerPlace(v, p.layer);
    StoredIs(v, p);
    var i := token / Shape(v).tokensPerBlock;
    TokenInBlocks(v, p, token);
    ResolvedAt(v, p, i);
    NoTableNoFrame(v, i, TableOfLayer(v, p.layer));
    ResidentBlock(v, TableOfLayer(v, p.layer), i);
    BlocksSizes(v.pool, v.tables, TableOfLayer(v, p.layer));
    FrameSized(v, BlockFrame(v, i, TableOfLayer(v, p.layer)).value);
    KVRowUnfolds(v, p, stream, token, head);
    CutFromIs(st.pool.shape, Abs(st).seqs[sid].blocks, p.layer, stream, token, head, KVRow(v, p, stream, token, head),
              TableOfLayer(v, p.layer), OffsetLayer(v, p.layer));
  }

  lemma StoredIs(v: CacheView, p: Params)
    ensures Stored(v, p) <==> OffsetLayer(v, p.layer) < Shape(v).FrameLayers()
  {}

  lemma ResolvedAt(v: CacheView, p: Params, i: nat)
    requires Resolved(v, p) && i < LogicalBlocks(v, p)
    ensures BlockFrame(v, i, TableOfLayer(v, p.layer)).Some?
  {}

  lemma BlocksSizes(p: Pool, tables: seq<Table>, l: nat)
    requires l < |tables|
    ensures |Blocks(p, tables)| == |tables| && |Blocks(p, tables)[l]| == |tables[l]|
  {}

  lemma FrameSized(v: CacheView, f: nat)
    requires WellSized(v) && f < |v.pool.bytes|
    ensures |v.pool.bytes[f]| >= ElementCount(Shape(v))
  {}

  lemma KVRowUnfolds(v: CacheView, p: Params, stream: KVStream, token: nat, head: nat)
    requires ValidView(v) && WellSized(v) && Stored(v, p) && Resolved(v, p) && token < p.contextLen && head < Shape(v).numKvHeads
    ensures var s := Shape(v);
            && s.tokensPerBlock > 0 && s.headDim > 0 && OffsetLayer(v, p.layer) < s.FrameLayers()
            && BlockFrame(v, token / s.tokensPerBlock, TableOfLayer(v, p.layer)).Some?
            && var f := BlockFrame(v, token / s.tokensPerBlock, TableOfLayer(v, p.layer)).value;
               && |v.pool.bytes[f]| >= ElementCount(s)
               && KVRow(v, p, stream, token, head)
                  == VectorIn(s, v.pool.bytes[f], OffsetLayer(v, p.layer), stream, token % s.tokensPerBlock, head)
  {
    hide ElementCount, VectorIn, BlockFrame, ValidView, OffsetLayer, TableOfLayer, LogicalBlocks;
    ShapePositive(v);
    TokenInBlocks(v, p, token);
  }

  /** A slot of the view points into the same place: the frame behind that block, at that layer's part of it. */
  lemma SlotOfTheLayer(st: Store, sid: nat, eb: nat, stream: KVStream, layer: nat, token: nat, head: nat)
    requires MemoryInv(st) && sid in st.seqs && Slot(ViewOf(st, sid), eb, stream, layer, token, head).Some?
    ensures st.pool.shape.tokensPerBlock > 0
    ensures var s, tables := st.pool.shape, st.seqs[sid].tables;
            var (frame, offset) := Slot(ViewOf(st, sid), eb, stream, layer, token, head).value;
            var table, l := if OneLayerPerFrame(s) then layer else 0, if OneLayerPerFrame(s) then 0 else layer;
            var i := token / s.tokensPerBlock;
            && table < |tables| && i < |tables[table]| && tables[table][i].slot.None? && tables[table][i].physical == frame
            && l < s.FrameLayers() && head < s.numKvHeads && offset == Position(s, l, stream, token % s.tokensPerBlock, head, 0)
  {
    hide *;
    var v := ViewOf(st, sid);
    ViewFields(st, sid);
    ViewIsDense(st, sid);
    SlotIs(v, eb, stream, layer, token, head);
    ShapeOf(v);
    LayerPlace(v, layer);
    var s := st.pool.shape;
    DenseLookup(v.tables[TableOfLayer(v, layer)], token / s.tokensPerBlock);
    OffsetPosition(s, OffsetLayer(v, layer), stream, token % s.tokensPerBlock, head, 0);
  }

  // ---- When a kernel answers ------------------------------------------------------------------------------

  /** The numbers a kernel checks before it reads anything. */
  predicate Sensible(s: BlockShape, eb: nat, p: Params) {
    && s.tokensPerBlock > 0 && s.numKvHeads > 0 && s.headDim > 0 && s.FrameLayers() > 0
    && eb == s.bytesPerElement && p.contextLen > 0 && p.layer < s.numLayers
    && p.numQueryHeads > 0 && p.numQueryHeads % s.numKvHeads == 0
    && (OneLayerPerFrame(s) || p.layer < s.FrameLayers())
  }

  predicate ResidentAt(tables: seq<Table>, table: nat, i: nat) {
    table < |tables| && i < |tables[table]| && tables[table][i].slot.None?
  }

  /** Every block with a token below the context length is mapped and resident in the layer's table. */
  ghost predicate CoversContext(s: BlockShape, tables: seq<Table>, p: Params) {
    var table := if OneLayerPerFrame(s) then p.layer else 0;
    forall i: nat :: i * s.tokensPerBlock < p.contextLen ==> ResidentAt(tables, table, i)
  }

  /** Exactly when a kernel call on a sequence succeeds. */
  lemma KernelSucceedsIff(st: Store, sid: nat, eb: nat, p: Params)
    requires MemoryInv(st) && sid in st.seqs
    ensures CanAttend(ViewOf(st, sid), eb, p) <==>
            st.pool.infos != [] && Sensible(st.pool.shape, eb, p) && CoversContext(st.pool.shape, st.seqs[sid].tables, p)
  {
    hide *;
    var v := ViewOf(st, sid);
    ViewFields(st, sid);
    AttendsIffResident(st, sid, eb, p);
    ArgsAre(v, eb, p);
    if st.pool.infos != [] {
      LayerPlace(v, p.layer);
      if Sensible(st.pool.shape, eb, p) {
        ShapeIs(v);
        SensibleHasBlocks(st.pool.shape, eb, p);
        ContextBlocks(v, p);
        ResidentContext(v, p);
      }
    }
  }

  lemma ShapeIs(v: CacheView)
    ensures v.pool.infos != [] ==> Shape(v) == v.pool.shape
  {}

  lemma SensibleHasBlocks(s: BlockShape, eb: nat, p: Params)
    requires Sensible(s, eb, p)
    ensures s.tokensPerBlock > 0
  {}

  lemma ArgsAre(v: CacheView, eb: nat, p: Params)
    ensures ArgsOk(v, eb, p) && Stored(v, p) <==> v.pool.infos != [] && Sensible(v.pool.shape, eb, p)
  {
    if v.pool.infos != [] {
      LayerPlace(v, p.layer);
      CountIsProduct(v.pool.shape);
      if ElementCount(v.pool.shape) > 0 {
        PositiveFactors(v.pool.shape);
      }
      CountPositive(v.pool.shape);
    } else {
      assert ElementCount(EmptyShape()) == 0;
    }
    hide ElementCount;
  }

  lemma CountPositive(s: BlockShape)
    ensures s.FrameLayers() > 0 && s.tokensPerBlock > 0 && s.numKvHeads > 0 && s.headDim > 0 ==> ElementCount(s) > 0
  {
    if s.FrameLayers() > 0 && s.tokensPerBlock > 0 && s.numKvHeads > 0 && s.headDim > 0 {
      EveryFactorCounts(s);
    }
  }

  lemma EveryFactorCounts(s: BlockShape)
    requires s.FrameLayers() > 0 && s.tokensPerBlock > 0 && s.numKvHeads > 0 && s.headDim > 0
    ensures ElementCount(s) > 0
  {
    AddressesTileTheFrame(s, Coordinate(0, Key, 0, 0, 0));
  }

  lemma ContextBlocks(v: CacheView, p: Params)
    requires Shape(v).tokensPerBlock > 0
    ensures forall i: nat :: i < LogicalBlocks(v, p) <==> i * Shape(v).tokensPerBlock < p.contextLen
  {
    var tpb := Shape(v).tokensPerBlock;
    forall i: nat
      ensures i < LogicalBlocks(v, p) <==> i * tpb < p.contextLen
    {
      CeilDivIsLeastCover(p.contextLen, tpb, i);
    }
  }

  lemma ResidentContext(v: CacheView, p: Params)
    requires v.pool.infos != [] && Shape(v) == v.pool.shape
    requires TableOfLayer(v, p.layer) == if OneLayerPerFrame(v.pool.shape) then p.layer else 0
    requires forall i: nat :: i < LogicalBlocks(v, p) <==> i * Shape(v).tokensPerBlock < p.contextLen
    ensures (forall i :: 0 <= i < LogicalBlocks(v, p) ==> MappedResident(v, TableOfLayer(v, p.layer), i)) <==>
            CoversContext(v.pool.shape, v.tables, p)
  {
    hide LogicalBlocks, TableOfLayer, Shape;
    if forall i :: 0 <= i < LogicalBlocks(v, p) ==> MappedResident(v, TableOfLayer(v, p.layer), i) {
      forall i: nat | i * v.pool.shape.tokensPerBlock < p.contextLen
        ensures ResidentAt(v.tables, TableOfLayer(v, p.layer), i)
      {
        assert i < LogicalBlocks(v, p);
        assert MappedResident(v, TableOfLayer(v, p.layer), i);
      }
    }
    if CoversContext(v.pool.shape, v.tables, p) {
      forall i | 0 <= i < LogicalBlocks(v, p)
        ensures MappedResident(v, TableOfLayer(v, p.layer), i)
      {
        assert i * Shape(v).tokensPerBlock < p.contextLen;
        assert ResidentAt(v.tables, TableOfLayer(v, p.layer), i);
      }
    }
  }

  // ---- One element ---------------------------------------------------------------------------------------

  /** Layer, stream, token, head and dimension as one number, the dimension moving fastest. */
  function Position(s: BlockShape, layer: nat, stream: KVStream, token: nat, head: nat, d: nat): nat {
    (((layer * 2 + (if stream == Key then 0 else 1)) * s.tokensPerBlock + token) * s.numKvHeads + head) * s.headDim + d
  }

  lemma OffsetPosition(s: BlockShape, layer: nat, stream: KVStream, token: nat, head: nat, d: nat)
    requires d < s.headDim
    ensures ElementOffset(s, layer, stream, token, head).Some? <==> layer < s.FrameLayers() && token < s.tokensPerBlock && head < s.numKvHeads
    ensures ElementOffset(s, layer, stream, token, head).Some? ==>
              && ElementOffset(s, layer, stream, token, head).value + d == Position(s, layer, stream, token, head, d)
              && Position(s, layer, stream, token, head, d) < ElementCount(s)
  {
    hide *;
    OffsetGiven(s, layer, stream, token, head);
    if ElementOffset(s, layer, stream, token, head).Some? {
      var c := Coordinate(layer, stream, token, head, d);
      CoordinateInShape(s, c);
      AddressIs(s, c);
      StridesAreDigits(s, c);
      HornerPosition(s, c);
      AddressesTileTheFrame(s, c);
    }
  }

  lemma OffsetGiven(s: BlockShape, layer: nat, stream: KVStream, token: nat, head: nat)
    ensures ElementOffset(s, layer, stream, token, head).Some? <==> layer < s.FrameLayers() && token < s.tokensPerBlock && head < s.numKvHeads
  {}

  lemma CoordinateInShape(s: BlockShape, c: Coordinate)
    ensures InShape(s, c) <==> c.layer < s.FrameLayers() && c.token < s.tokensPerBlock && c.head < s.numKvHeads && c.dim < s.headDim
  {}

  lemma AddressIs(s: BlockShape, c: Coordinate)
    requires InShape(s, c)
    ensures ElementOffset(s, c.layer, c.stream, c.token, c.head).Some?
    ensures Address(s, c) == ElementOffset(s, c.layer, c.stream, c.token, c.head).value + c.dim
  {
    hide LayerStride, StreamStride, TokenStride, HeadStride;
  }

  lemma HornerPosition(s: BlockShape, c: Coordinate)
    ensures Horner(s, c) == Position(s, c.layer, c.stream, c.token, c.head, c.dim)
  {}

  lemma VectorElement(s: BlockShape, frame: Frame, layer: nat, stream: KVStream, token: nat, head: nat, d: nat)
    requires layer < s.FrameLayers() && token < s.tokensPerBlock && head < s.numKvHeads && d < s.headDim
    requires |frame| >= ElementCount(s)
    ensures Position(s, layer, stream, token, head, d) < |frame|
    ensures VectorIn(s, frame, layer, stream, token, head)[d] == frame[Position(s, layer, stream, token, head, d)]
  {
    hide Position, ElementCount, LayerStride, StreamStride, TokenStride, HeadStride, ElementOffset;
    OffsetPosition(s, layer, stream, token, head, d);
    OffsetFits(s, layer, stream, token, head);
  }

  /** Element d of a token's key or value vector is among the bytes a sequence reads. */
  ghost predicate InCache(s: BlockShape, blocks: seq<seq<Frame>>, layer: nat, stream: KVStream, token: nat, head: nat, d: nat) {
    var table, l := if OneLayerPerFrame(s) then layer else 0, if OneLayerPerFrame(s) then 0 else layer;
    && s.tokensPerBlock > 0 && table < |blocks| && token / s.tokensPerBlock < |blocks[table]|
    && Position(s, l, stream, token % s.tokensPerBlock, head, d) < |blocks[table][token / s.tokensPerBlock]|
  }

  /** That element, wherever it is. */
  ghost function Element(s: BlockShape, blocks: seq<seq<Frame>>, layer: nat, stream: KVStream, token: nat, head: nat, d: nat): real {
    if InCache(s, blocks, layer, stream, token, head, d) then
      var table, l := if OneLayerPerFrame(s) then layer else 0, if OneLayerPerFrame(s) then 0 else layer;
      blocks[table][token / s.tokensPerBlock][Position(s, l, stream, token % s.tokensPerBlock, head, d)]
    else 0.0
  }

  lemma KVElement(st: Store, sid: nat, p: Params, stream: KVStream, token: nat, head: nat, d: nat)
    requires MemoryInv(st) && sid in st.seqs
    requires var v := ViewOf(st, sid);
             && ValidView(v) && WellSized(v) && Stored(v, p) && Resolved(v, p) && token < p.contextLen
             && head < Shape(v).numKvHeads && d < Shape(v).headDim
    ensures sid in Abs(st).seqs && InCache(st.pool.shape, Abs(st).seqs[sid].blocks, p.layer, stream, token, head, d)
    ensures KVRow(ViewOf(st, sid), p, stream, token, head)[d]
         == Element(st.pool.shape, Abs(st).seqs[sid].blocks, p.layer, stream, token, head, d)
  {
    hide *;
    ReadsTheLayer(st, sid, p, stream, token, head);
    CutElement(st.pool.shape, Abs(st).seqs[sid].blocks, p.layer, stream, token, head, KVRow(ViewOf(st, sid), p, stream, token, head), d);
  }

  lemma CutElement(s: BlockShape, blocks: seq<seq<Frame>>, layer: nat, stream: KVStream, token: nat, head: nat, row: Row, d: nat)
    requires CutFrom(s, blocks, layer, stream, token, head, row) && d < s.headDim
    ensures InCache(s, blocks, layer, stream, token, head, d) && d < |row| && row[d] == Element(s, blocks, layer, stream, token, head, d)
  {
    hide Position, ElementCount, VectorIn;
    var table, l := if OneLayerPerFrame(s) then layer else 0, if OneLayerPerFrame(s) then 0 else layer;
    VectorElement(s, blocks[table][token / s.tokensPerBlock], l, stream, token % s.tokensPerBlock, head, d);
  }

  // ---- One element of the output ------------------------------------------------------------------------------

  /** A query, by its elements. */
  function QueryElement(query: seq<real>, i: nat): real { if i < |query| then query[i] else 0.0 }

  /** Query head h times the key of token t in kv head kv, over the first n dimensions. */
  ghost function Product(s: BlockShape, blocks: seq<seq<Frame>>, layer: nat, query: seq<real>, h: nat, kv: nat, t: nat, n: nat): real {
    if n == 0 then 0.0
    else Product(s, blocks, layer, query, h, kv, t, n - 1)
         + QueryElement(query, h * s.headDim + (n - 1)) * Element(s, blocks, layer, Key, t, kv, n - 1)
  }

  /** How well token t matches. */
  ghost function Match(s: BlockShape, blocks: seq<seq<Frame>>, p: Params, query: seq<real>, h: nat, kv: nat, t: nat): real {
    Product(s, blocks, p.layer, query, h, kv, t, s.headDim) * p.scale
  }

  /** The exponentials of the matches of the first n tokens, added up. */
  ghost function TotalWeight(s: BlockShape, blocks: seq<seq<Frame>>, p: Params, e: Exp, query: seq<real>, h: nat, kv: nat, n: nat): real {
    if n == 0 then 0.0
    else TotalWeight(s, blocks, p, e, query, h, kv, n - 1) + e(Match(s, blocks, p, query, h, kv, n - 1))
  }

  /** The same with each times element d of its token's value. */
  ghost function TotalValue(s: BlockShape, blocks: seq<seq<Frame>>, p: Params, e: Exp, query: seq<real>, h: nat, kv: nat, d: nat, n: nat): real {
    if n == 0 then 0.0
    else TotalValue(s, blocks, p, e, query, h, kv, d, n - 1)
         + e(Match(s, blocks, p, query, h, kv, n - 1)) * Element(s, blocks, p.layer, Value, n - 1, kv, d)
  }

  lemma {:induction false} ProductIs(s: BlockShape, blocks: seq<seq<Frame>>, layer: nat, query: seq<real>, h: nat, kv: nat, t: nat, q: Row, key: Row, n: nat)
    requires n <= |q| == |key|
    requires forall i :: 0 <= i < |q| ==> q[i] == QueryElement(query, h * s.headDim + i) && key[i] == Element(s, blocks, layer, Key, t, kv, i)
    ensures Dot(q[..n], key[..n]) == Product(s, blocks, layer, query, h, kv, t, n)
  {
    hide QueryElement, Element;
    if n > 0 {
      assert q[..n][..n - 1] == q[..n - 1] && key[..n][..n - 1] == key[..n - 1];
      ProductIs(s, blocks, layer, query, h, kv, t, q, key, n - 1);
    }
  }

  lemma {:induction false} TotalsAre(s: BlockShape, blocks: seq<seq<Frame>>, p: Params, e: Exp, query: seq<real>, h: nat, kv: nat, d: nat,
                                     scores: seq<real>, values: seq<Row>, n: nat)
    requires n <= |scores| == |values| && forall t :: 0 <= t < |values| ==> d < |values[t]|
    requires forall t :: 0 <= t < |scores| ==>
               scores[t] == Match(s, blocks, p, query, h, kv, t) && values[t][d] == Element(s, blocks, p.layer, Value, t, kv, d)
    ensures Weights(e, scores[..n], 0.0) == TotalWeight(s, blocks, p, e, query, h, kv, n)
    ensures Weighted(e, scores[..n], values[..n], 0.0, d) == TotalValue(s, blocks, p, e, query, h, kv, d, n)
  {
    hide Match, Element;
    if n > 0 {
      assert scores[..n][..n - 1] == scores[..n - 1] && values[..n][..n - 1] == values[..n - 1];
      assert scores[n - 1] - 0.0 == scores[n - 1];
      TotalsAre(s, blocks, p, e, query, h, kv, d, scores, values, n - 1);
    }
  }

  /** Head h's row of a head-major output. */
  predicate RowOfHead(out: seq<real>, dim: nat, h: nat, row: Row) {
    h * dim + dim <= |out| && out[h * dim..h * dim + dim] == row
  }

  lemma {:induction false} OutputRow(v: CacheView, eb: nat, p: Params, e: Exp, query: seq<real>, n: nat, h: nat)
    requires ExpLaws(e) && WellSized(v) && CanAttend(v, eb, p) && h < n <= p.numQueryHeads
    requires |query| == p.numQueryHeads * Shape(v).headDim
    ensures RowOfHead(Output(v, eb, p, e, query, n), Shape(v).headDim, h, HeadOutput(v, eb, p, e, query, h))
    decreases n
  {
    hide HeadOutput, ExpLaws, WellSized, CanAttend;
    RowFits(h, n, Shape(v).headDim);
    RowFits(n - 1, n, Shape(v).headDim);
    if h < n - 1 {
      OutputRow(v, eb, p, e, query, n - 1, h);
      RowFits(h, n - 1, Shape(v).headDim);
      var a, b := Output(v, eb, p, e, query, n - 1), HeadOutput(v, eb, p, e, query, n - 1);
      var x, y := h * Shape(v).headDim, h * Shape(v).headDim + Shape(v).headDim;
      assert (a + b)[x..y] == a[x..y];
    }
  }

  lemma AttendedElement(e: Exp, q: Row, keys: seq<Row>, values: seq<Row>, scale: real, d: nat)
    requires ExpLaws(e) && Rows(keys, |q|) && Rows(values, |q|) && |values| == |keys| > 0 && d < |q|
    ensures var scores := ScoresOf(q, keys, scale);
            && Weights(e, scores, 0.0) > 0.0
            && Attended(e, q, keys, values, scale)[d] == Weighted(e, scores, values, 0.0, d) / Weights(e, scores, 0.0)
  {
    hide ExpLaws, Weights, Weighted, Dot;
    WeightsPositive(e, ScoresOf(q, keys, scale), 0.0);
  }

  /** Element d of query head h's output, written out for the kv head of its group. */
  ghost predicate WrittenOut(s: BlockShape, blocks: seq<seq<Frame>>, p: Params, e: Exp, query: seq<real>, out: seq<real>, h: nat, d: nat) {
    && s.numKvHeads > 0 && p.numQueryHeads / s.numKvHeads > 0
    && var kv := h / (p.numQueryHeads / s.numKvHeads);
       && kv < s.numKvHeads && h * s.headDim + d < |out| == |query|
       && TotalWeight(s, blocks, p, e, query, h, kv, p.contextLen) > 0.0
       && out[h * s.headDim + d]
          == TotalValue(s, blocks, p, e, query, h, kv, d, p.contextLen) / TotalWeight(s, blocks, p, e, query, h, kv, p.contextLen)
       && forall t, i, stream :: 0 <= t < p.contextLen && 0 <= i < s.headDim ==> InCache(s, blocks, p.layer, stream, t, kv, i)
  }

  lemma WrittenOutFrom(s: BlockShape, blocks: seq<seq<Frame>>, p: Params, e: Exp, query: seq<real>, out: seq<real>, h: nat, kv: nat, d: nat, row: Row)
    requires s.numKvHeads > 0 && p.numQueryHeads / s.numKvHeads > 0 && kv == h / (p.numQueryHeads / s.numKvHeads) && kv < s.numKvHeads
    requires |out| == |query| && RowOfHead(out, s.headDim, h, row) && d < |row|
    requires TotalWeight(s, blocks, p, e, query, h, kv, p.contextLen) > 0.0
    requires row[d] == TotalValue(s, blocks, p, e, query, h, kv, d, p.contextLen) / TotalWeight(s, blocks, p, e, query, h, kv, p.contextLen)
    requires forall t, i, stream :: 0 <= t < p.contextLen && 0 <= i < s.headDim ==> InCache(s, blocks, p.layer, stream, t, kv, i)
    ensures WrittenOut(s, blocks, p, e, query, out, h, d)
  {
    hide TotalWeight, TotalValue, InCache, RowOfHead;
    ElementOfRow(out, s.headDim, h, row, d);
  }

  lemma ElementOfRow(out: seq<real>, dim: nat, h: nat, row: Row, d: nat)
    requires RowOfHead(out, dim, h, row) && d < |row|
    ensures h * dim + d < |out| && out[h * dim + d] == row[d]
  {
    ElementOfSlice(out, h * dim, dim, d);
  }

  lemma AttendsForShows(v: CacheView, p: Params, e: Exp, query: seq<real>, h: nat, kv: nat, row: Row)
    requires ExpLaws(e) && ValidView(v) && WellSized(v) && Stored(v, p) && Resolved(v, p) && p.contextLen > 0
    requires kv < Shape(v).numKvHeads && h * Shape(v).headDim + Shape(v).headDim <= |query|
    requires PagedAttention.AttendsFor(v, p, e, query, h, kv, row)
    ensures var q, keys, values := QueryRow(query, Shape(v).headDim, h), HeadRows(v, p, Key, kv), HeadRows(v, p, Value, kv);
            && Rows(keys, |q|) && Rows(values, |q|) && |values| == |keys| == p.contextLen
            && row == Attended(e, q, keys, values, p.scale)
  {
    hide ExpLaws, ValidView, WellSized, Stored, Resolved, KVRow, Attended;
  }

  /** One row: what a query head attends to in one kv head. */
  lemma RowWrittenOut(st: Store, sid: nat, p: Params, e: Exp, query: seq<real>, h: nat, kv: nat, d: nat, row: Row)
    requires MemoryInv(st) && sid in st.seqs && ExpLaws(e) && Shape(ViewOf(st, sid)) == st.pool.shape
    requires var v := ViewOf(st, sid);
             && ValidView(v) && WellSized(v) && Stored(v, p) && Resolved(v, p) && p.contextLen > 0
             && kv < Shape(v).numKvHeads && h * Shape(v).headDim + Shape(v).headDim <= |query|
             && PagedAttention.AttendsFor(v, p, e, query, h, kv, row)
    requires d < st.pool.shape.headDim
    ensures sid in Abs(st).seqs && d < |row|
    ensures var s, blocks := st.pool.shape, Abs(st).seqs[sid].blocks;
            var weight := TotalWeight(s, blocks, p, e, query, h, kv, p.contextLen);
            weight > 0.0 && row[d] == TotalValue(s, blocks, p, e, query, h, kv, d, p.contextLen) / weight
  {
    hide *;
    var v, s := ViewOf(st, sid), st.pool.shape;
    ViewIsDense(st, sid);
    var blocks := Abs(st).seqs[sid].blocks;
    AttendsForShows(v, p, e, query, h, kv, row);
    var q, keys, values := QueryRow(query, s.headDim, h), HeadRows(v, p, Key, kv), HeadRows(v, p, Value, kv);
    var scores := ScoresOf(q, keys, p.scale);
    RowsAre(keys, s.headDim);
    RowsAre(values, s.headDim);
    forall t | 0 <= t < |scores|
      ensures scores[t] == Match(s, blocks, p, query, h, kv, t) && values[t][d] == Element(s, blocks, p.layer, Value, t, kv, d)
    {
      MatchIs(st, sid, p, query, h, kv, t);
      ScoreAt(q, keys, p.scale, t);
      KVElement(st, sid, p, Value, t, kv, d);
    }
    TotalsAre(s, blocks, p, e, query, h, kv, d, scores, values, |scores|);
    assert scores[..|scores|] == scores && values[..|scores|] == values;
    AttendedElement(e, q, keys, values, p.scale, d);
  }

  /** Which kv head serves a query head, and what that head's row of the output is. */
  lemma HeadServed(v: CacheView, eb: nat, p: Params, e: Exp, query: seq<real>, h: nat) returns (kv: nat)
    requires ExpLaws(e) && WellSized(v) && CanAttend(v, eb, p) && h < p.numQueryHeads && |query| == p.numQueryHeads * Shape(v).headDim
    ensures Shape(v).numKvHeads > 0 && p.numQueryHeads / Shape(v).numKvHeads > 0
    ensures kv == h / (p.numQueryHeads / Shape(v).numKvHeads) && kv < Shape(v).numKvHeads
    ensures ValidView(v) && Stored(v, p) && Resolved(v, p) && p.contextLen > 0 && h * Shape(v).headDim + Shape(v).headDim <= |query|
    ensures PagedAttention.AttendsFor(v, p, e, query, h, kv, HeadOutput(v, eb, p, e, query, h))
    ensures |Output(v, eb, p, e, query, p.numQueryHeads)| == |query|
    ensures RowOfHead(Output(v, eb, p, e, query, p.numQueryHeads), Shape(v).headDim, h, HeadOutput(v, eb, p, e, query, h))
  {
    hide *;
    AttendShows(v, eb, p);
    ArgsShow(v, eb, p);
    PagedAttention.HeadOutputIs(v, eb, p, e, query, h);
    GroupIs(v, p);
    OutputRow(v, eb, p, e, query, p.numQueryHeads, h);
    kv := h / GroupSize(v, p);
  }

  /** One element of such a row. */
  lemma ElementWrittenOut(st: Store, sid: nat, p: Params, e: Exp, query: seq<real>, out: seq<real>, h: nat, kv: nat, d: nat, row: Row)
    requires MemoryInv(st) && sid in st.seqs && ExpLaws(e) && Shape(ViewOf(st, sid)) == st.pool.shape
    requires var v := ViewOf(st, sid);
             && ValidView(v) && WellSized(v) && Stored(v, p) && Resolved(v, p) && p.contextLen > 0
             && kv < Shape(v).numKvHeads && h * Shape(v).headDim + Shape(v).headDim <= |query|
             && PagedAttention.AttendsFor(v, p, e, query, h, kv, row)
    requires st.pool.shape.numKvHeads > 0 && p.numQueryHeads / st.pool.shape.numKvHeads > 0
    requires kv == h / (p.numQueryHeads / st.pool.shape.numKvHeads) && d < st.pool.shape.headDim
    requires |out| == |query| && RowOfHead(out, st.pool.shape.headDim, h, row)
    ensures sid in Abs(st).seqs && WrittenOut(st.pool.shape, Abs(st).seqs[sid].blocks, p, e, query, out, h, d)
  {
    hide *;
    RowWrittenOut(st, sid, p, e, query, h, kv, d, row);
    AllInCache(st, sid, p, kv);
    WrittenOutFrom(st.pool.shape, Abs(st).seqs[sid].blocks, p, e, query, out, h, kv, d, row);
  }

  /**
    Main result on the kernels' output: every element is the weighted average, written out, over the
    tokens below the context length of the elements the sequence reads in the layer asked for, for the
    kv head that serves the query head's group.
   */
  lemma OutputWrittenOut(st: Store, sid: nat, eb: nat, p: Params, e: Exp, query: seq<real>, h: nat, d: nat)
    requires CacheRuns.Inv(st) && sid in st.seqs && ExpLaws(e)
    requires WellSized(ViewOf(st, sid)) && CanAttend(ViewOf(st, sid), eb, p)
    requires |query| == p.numQueryHeads * Shape(ViewOf(st, sid)).headDim && h < p.numQueryHeads && d < Shape(ViewOf(st, sid)).headDim
    ensures sid in Abs(st).seqs
    ensures WrittenOut(st.pool.shape, Abs(st).seqs[sid].blocks, p, e, query, Output(ViewOf(st, sid), eb, p, e, query, p.numQueryHeads), h, d)
  {
    hide *;
    CacheRuns.InvParts(st);
    var v := ViewOf(st, sid);
    ViewFields(st, sid);
    var kv := HeadServed(v, eb, p, e, query, h);
    ShapeOf(v);
    ElementWrittenOut(st, sid, p, e, query, Output(v, eb, p, e, query, p.numQueryHeads), h, kv, d, HeadOutput(v, eb, p, e, query, h));
  }

  lemma ElementOfSlice(row: seq<real>, at: nat, n: nat, d: nat)
    requires at + n <= |row| && d < n
    ensures row[at..at + n][d] == row[at + d]
  {}

  lemma RowsAre(rows: seq<Row>, dim: nat)
    ensures Rows(rows, dim) <==> forall t :: 0 <= t < |rows| ==> |rows[t]| == dim
  {}

  lemma ArgsShow(v: CacheView, eb: nat, p: Params)
    requires CanAttend(v, eb, p)
    ensures ArgsOk(v, eb, p) && p.contextLen > 0
  {
    hide ValidView, Stored, Resolved;
  }

  lemma GroupIs(v: CacheView, p: Params)
    requires Shape(v).numKvHeads > 0
    ensures GroupSize(v, p) == p.numQueryHeads / Shape(v).numKvHeads
  {}

  lemma AllInCache(st: Store, sid: nat, p: Params, kv: nat)
    requires MemoryInv(st) && sid in st.seqs && Shape(ViewOf(st, sid)) == st.pool.shape
    requires var v := ViewOf(st, sid);
             ValidView(v) && WellSized(v) && Stored(v, p) && Resolved(v, p) && kv < Shape(v).numKvHeads
    ensures sid in Abs(st).seqs
    ensures forall t, i, stream :: 0 <= t < p.contextLen && 0 <= i < st.pool.shape.headDim ==>
              InCache(st.pool.shape, Abs(st).seqs[sid].blocks, p.layer, stream, t, kv, i)
  {
    hide *;
    ViewIsDense(st, sid);
    forall t, i, stream | 0 <= t < p.contextLen && 0 <= i < st.pool.shape.headDim
      ensures InCache(st.pool.shape, Abs(st).seqs[sid].blocks, p.layer, stream, t, kv, i)
    {
      KVElement(st, sid, p, stream, t, kv, i);
    }
  }

  lemma MatchIs(st: Store, sid: nat, p: Params, query: seq<real>, h: nat, kv: nat, t: nat)
    requires MemoryInv(st) && sid in st.seqs
    requires var v := ViewOf(st, sid);
             ValidView(v) && WellSized(v) && Stored(v, p) && Resolved(v, p) && t < p.contextLen && kv < Shape(v).numKvHeads
    requires Shape(ViewOf(st, sid)) == st.pool.shape && h * st.pool.shape.headDim + st.pool.shape.headDim <= |query|
    ensures sid in Abs(st).seqs && |KVRow(ViewOf(st, sid), p, Key, t, kv)| == st.pool.shape.headDim
    ensures Match(st.pool.shape, Abs(st).seqs[sid].blocks, p, query, h, kv, t)
         == Dot(QueryRow(query, st.pool.shape.headDim, h), KVRow(ViewOf(st, sid), p, Key, t, kv)) * p.scale
  {
    hide *;
    var s := st.pool.shape;
    ViewIsDense(st, sid);
    var blocks, q, key := Abs(st).seqs[sid].blocks, QueryRow(query, s.headDim, h), KVRow(ViewOf(st, sid), p, Key, t, kv);
    forall i | 0 <= i < s.headDim
      ensures q[i] == QueryElement(query, h * s.headDim + i) && key[i] == Element(s, blocks, p.layer, Key, t, kv, i)
    {
      KVElement(st, sid, p, Key, t, kv, i);
      QueryElementIs(query, s.headDim, h, i);
    }
    ProductIs(s, blocks, p.layer, query, h, kv, t, q, key, s.headDim);
    assert q[..s.headDim] == q && key[..s.headDim] == key;
    MatchUnfolds(s, blocks, p, query, h, kv, t);
  }

  lemma MatchUnfolds(s: BlockShape, blocks: seq<seq<Frame>>, p: Params, query: seq<real>, h: nat, kv: nat, t: nat)
    ensures Match(s, blocks, p, query, h, kv, t) == Product(s, blocks, p.layer, query, h, kv, t, s.headDim) * p.scale
  {}

  lemma ScoreAt(q: Row, keys: seq<Row>, scale: real, t: nat)
    requires Rows(keys, |q|) && t < |keys|
    ensures ScoresOf(q, keys, scale)[t] == Dot(q, keys[t]) * scale
  {
    hide Dot;
  }

  lemma QueryElementIs(query: seq<real>, dim: nat, h: nat, i: nat)
    requires h * dim + dim <= |query| && i < dim
    ensures QueryElement(query, h * dim + i) == QueryRow(query, dim, h)[i]
  {}
}
