/**
  What decode attention over a paged cache computes: for every query head the softmax-weighted
  average over the flat keys and values of the tokens below the context length.
 */
module AttentionSpec {
  import opened Vectors
  import opened Arithmetic
  import opened SwapStore
  import opened FramePool
  import opened PageTable
  import opened CacheStore
  import opened CacheLayout
  import opened CacheViews
  import opened Softmax

  datatype Params = Params(layer: nat, numQueryHeads: nat, contextLen: nat, scale: real)

  /** Frames hold whole blocks. */
  ghost predicate WellSized(v: CacheView) {
    forall f :: 0 <= f < |v.pool.bytes| ==> |v.pool.bytes[f]| >= ElementCount(Shape(v))
  }

  predicate ArgsOk(v: CacheView, eb: nat, p: Params) {
    && ValidView(v)
    && eb == Shape(v).bytesPerElement && p.contextLen != 0
    && p.layer < Shape(v).numLayers && p.numQueryHeads != 0
    && Shape(v).numKvHeads != 0 && p.numQueryHeads % Shape(v).numKvHeads == 0
  }

  predicate Stored(v: CacheView, p: Params) {
    OffsetLayer(v, p.layer) < Shape(v).FrameLayers()
  }

  function LogicalBlocks(v: CacheView, p: Params): nat {
    if Shape(v).tokensPerBlock == 0 then 0 else CeilDiv(p.contextLen, Shape(v).tokensPerBlock)
  }

  /** Every block below the context length is mapped and resident. */
  ghost predicate Resolved(v: CacheView, p: Params) {
    forall i :: 0 <= i < LogicalBlocks(v, p) ==> BlockFrame(v, i, TableOfLayer(v, p.layer)).Some?
  }

  /** When a call succeeds. */
  ghost predicate CanAttend(v: CacheView, eb: nat, p: Params) {
    ArgsOk(v, eb, p) && Stored(v, p) && Resolved(v, p)
  }

  lemma ShapePositive(v: CacheView)
    requires ValidView(v)
    ensures var s := Shape(v);
            s.headDim > 0 && s.numKvHeads > 0 && s.tokensPerBlock > 0 && s.FrameLayers() > 0
  {
    CountIsProduct(Shape(v));
    PositiveFactors(Shape(v));
  }

  lemma TokenInBlocks(v: CacheView, p: Params, token: nat)
    requires Shape(v).tokensPerBlock > 0
    ensures token < p.contextLen ==> token / Shape(v).tokensPerBlock < LogicalBlocks(v, p)
  {
    var tpb := Shape(v).tokensPerBlock;
    if token < p.contextLen {
      CeilDivOfSuccessor(token, tpb);
      CeilDivMonotone(token + 1, p.contextLen, tpb);
    }
  }

  /** The head vector of one token inside a frame. */
  function VectorIn(s: BlockShape, frame: Frame, layer: nat, stream: KVStream, tokenInBlock: nat, head: nat): (r: Row)
    requires layer < s.FrameLayers() && tokenInBlock < s.tokensPerBlock && head < s.numKvHeads
    requires |frame| >= ElementCount(s) && s.headDim > 0
    ensures |r| == s.headDim
  {
    OffsetFits(s, layer, stream, tokenInBlock, head);
    var o := ElementOffset(s, layer, stream, tokenInBlock, head).value;
    frame[o..o + s.headDim]
  }

  /** The key or value vector of a token, through the page table. */
  ghost function KVRow(v: CacheView, p: Params, stream: KVStream, token: nat, head: nat): (r: Row)
    requires ValidView(v) && WellSized(v) && Stored(v, p) && Resolved(v, p)
    requires token < p.contextLen && head < Shape(v).numKvHeads
    ensures |r| == Shape(v).headDim
  {
    ShapePositive(v);
    TokenInBlocks(v, p, token);
    var s := Shape(v);
    var f := BlockFrame(v, token / s.tokensPerBlock, TableOfLayer(v, p.layer)).value;
    VectorIn(s, v.pool.bytes[f], OffsetLayer(v, p.layer), stream, token % s.tokensPerBlock, head)
  }

  ghost function HeadRows(v: CacheView, p: Params, stream: KVStream, head: nat): (r: seq<Row>)
    requires ValidView(v) && WellSized(v) && Stored(v, p) && Resolved(v, p) && head < Shape(v).numKvHeads
    ensures |r| == p.contextLen && Rows(r, Shape(v).headDim)
    ensures forall t :: 0 <= t < |r| ==> r[t] == KVRow(v, p, stream, t, head)
  {
    seq(p.contextLen, t requires 0 <= t < p.contextLen => KVRow(v, p, stream, t, head))
  }

  function Dot(a: Row, b: Row): real
    requires |a| == |b|
  {
    if a == [] then 0.0 else Dot(a[..|a| - 1], b[..|a| - 1]) + a[|a| - 1] * b[|a| - 1]
  }

  function ScoreOf(q: Row, key: Row, scale: real): real
    requires |key| == |q|
  {
    Dot(q, key) * scale
  }

  function ScoresOf(q: Row, keys: seq<Row>, scale: real): (r: seq<real>)
    requires Rows(keys, |q|)
    ensures |r| == |keys|
  {
    seq(|keys|, t requires 0 <= t < |keys| => ScoreOf(q, keys[t], scale))
  }

  function QueryRow(query: seq<real>, dim: nat, h: nat): (r: Row)
    requires h * dim + dim <= |query|
    ensures |r| == dim
  {
    query[h * dim..h * dim + dim]
  }

  lemma RowFits(h: nat, n: nat, dim: nat)
    requires h < n
    ensures h * dim + dim <= n * dim && (h + 1) * dim == h * dim + dim
  {
    MulMonotone(h + 1, n, dim);
    assert (h + 1) * dim == h * dim + dim;
  }

  /** One output row: attention of a query row over keys and values. */
  ghost function Attended(e: Exp, q: Row, keys: seq<Row>, values: seq<Row>, scale: real): (r: Row)
    requires ExpLaws(e) && Rows(keys, |q|) && Rows(values, |q|) && |values| == |keys| > 0
    ensures |r| == |q|
  {
    var scores := ScoresOf(q, keys, scale);
    WeightsPositive(e, scores, 0.0);
    seq(|q|, d requires 0 <= d < |q| => Attention(e, scores, values, d))
  }

  function GroupSize(v: CacheView, p: Params): nat
    requires Shape(v).numKvHeads > 0
  {
    p.numQueryHeads / Shape(v).numKvHeads
  }

  lemma HeadInGroup(v: CacheView, eb: nat, p: Params, h: nat)
    requires ArgsOk(v, eb, p) && h < p.numQueryHeads
    ensures Shape(v).numKvHeads > 0 && GroupSize(v, p) > 0 && h / GroupSize(v, p) < Shape(v).numKvHeads
    ensures p.numQueryHeads == GroupSize(v, p) * Shape(v).numKvHeads
  {
    DivExact(p.numQueryHeads, Shape(v).numKvHeads);
    var g := GroupSize(v, p);
    Swap(g, Shape(v).numKvHeads);
    DivSplits(h, g, Shape(v).numKvHeads);
  }

  /** The output of one query head. */
  ghost function HeadOutput(v: CacheView, eb: nat, p: Params, e: Exp, query: seq<real>, h: nat): (r: Row)
    requires ExpLaws(e) && WellSized(v) && CanAttend(v, eb, p) && h < p.numQueryHeads
    requires |query| == p.numQueryHeads * Shape(v).headDim
    ensures |r| == Shape(v).headDim
  {
    hide ElementCount, WellSized, ExpLaws;
    HeadInGroup(v, eb, p, h);
    RowFits(h, p.numQueryHeads, Shape(v).headDim);
    var kv := h / GroupSize(v, p);
    Attended(e, QueryRow(query, Shape(v).headDim, h), HeadRows(v, p, Key, kv), HeadRows(v, p, Value, kv), p.scale)
  }

  /** The outputs of the first n query heads, head-major. */
  ghost function Output(v: CacheView, eb: nat, p: Params, e: Exp, query: seq<real>, n: nat): (r: seq<real>)
    requires ExpLaws(e) && WellSized(v) && CanAttend(v, eb, p) && n <= p.numQueryHeads
    requires |query| == p.numQueryHeads * Shape(v).headDim
    ensures |r| == n * Shape(v).headDim
  {
    if n == 0 then []
    else
      RowFits(n - 1, n, Shape(v).headDim);
      Output(v, eb, p, e, query, n - 1) + HeadOutput(v, eb, p, e, query, n - 1)
  }

  // ---- Paging is transparent ---------------------------------------------------------------------

  lemma ResidentBlock(v: CacheView, layer: nat, index: nat)
    requires layer < |v.tables| && Dense(v.tables[layer]) && BlockFrame(v, index, layer).Some?
    ensures index < |v.tables[layer]|
    ensures v.pool.bytes[BlockFrame(v, index, layer).value] == Blocks(v.pool, v.tables)[layer][index]
  {
    DenseLookup(v.tables[layer], index);
  }

  /** Two views whose sequences read the same in every element of every token below the context length. */
  ghost predicate SameTokens(v: CacheView, v': CacheView, p: Params)
    requires ValidView(v) && ValidView(v') && WellSized(v) && WellSized(v') && Shape(v') == Shape(v)
    requires Stored(v, p) && Resolved(v, p) && Stored(v', p) && Resolved(v', p)
  {
    forall stream, token, head :: 0 <= token < p.contextLen && 0 <= head < Shape(v).numKvHeads ==>
      KVRow(v', p, stream, token, head) == KVRow(v, p, stream, token, head)
  }

  /**
    Attention depends on the flat contents of the tokens below the context length and nothing
    else: not on which frames hold them, nor on stale elements past the end.
   */
  lemma PagingIsTransparent(v: CacheView, v': CacheView, eb: nat, p: Params, e: Exp, query: seq<real>, n: nat)
    requires ExpLaws(e) && WellSized(v) && WellSized(v') && CanAttend(v, eb, p) && CanAttend(v', eb, p)
    requires Shape(v') == Shape(v) && SameTokens(v, v', p) && n <= p.numQueryHeads
    requires |query| == p.numQueryHeads * Shape(v).headDim
    ensures Output(v', eb, p, e, query, n) == Output(v, eb, p, e, query, n)
  {
    hide ExpLaws, CanAttend, WellSized, SameTokens, Attended, KVRow, ElementCount;
    if n > 0 {
      PagingIsTransparent(v, v', eb, p, e, query, n - 1);
      SameHeads(v, v', eb, p, n - 1);
    }
  }

  lemma SameHeads(v: CacheView, v': CacheView, eb: nat, p: Params, h: nat)
    requires WellSized(v) && WellSized(v') && CanAttend(v, eb, p) && CanAttend(v', eb, p)
    requires Shape(v') == Shape(v) && SameTokens(v, v', p) && h < p.numQueryHeads
    ensures GroupSize(v, p) > 0 && h / GroupSize(v, p) < Shape(v).numKvHeads
    ensures forall stream :: HeadRows(v', p, stream, h / GroupSize(v, p)) == HeadRows(v, p, stream, h / GroupSize(v, p))
  {
    hide ElementCount, KVRow;
    HeadInGroup(v, eb, p, h);
  }

  /** Sequences that read the same block by block, resident anywhere, have the same tokens. */
  lemma SameBlocksSameTokens(v: CacheView, v': CacheView, p: Params)
    requires ValidView(v) && ValidView(v') && WellSized(v) && WellSized(v') && Shape(v') == Shape(v)
    requires Stored(v, p) && Resolved(v, p) && Stored(v', p) && Resolved(v', p)
    requires (forall l :: 0 <= l < |v.tables| ==> Dense(v.tables[l])) && (forall l :: 0 <= l < |v'.tables| ==> Dense(v'.tables[l]))
    requires Blocks(v'.pool, v'.tables) == Blocks(v.pool, v.tables)
    ensures SameTokens(v, v', p)
  {
    hide ElementCount, KVRow, Blocks, Dense, Resolved, WellSized, Stored, Shape;
    forall stream, token, head | 0 <= token < p.contextLen && 0 <= head < Shape(v).numKvHeads
      ensures KVRow(v', p, stream, token, head) == KVRow(v, p, stream, token, head)
    {
      SameBlockSameToken(v, v', p, stream, token, head);
    }
  }

  lemma SameBlockSameToken(v: CacheView, v': CacheView, p: Params, stream: KVStream, token: nat, head: nat)
    requires ValidView(v) && ValidView(v') && WellSized(v) && WellSized(v') && Shape(v') == Shape(v)
    requires Stored(v, p) && Resolved(v, p) && Stored(v', p) && Resolved(v', p)
    requires (forall l :: 0 <= l < |v.tables| ==> Dense(v.tables[l])) && (forall l :: 0 <= l < |v'.tables| ==> Dense(v'.tables[l]))
    requires Blocks(v'.pool, v'.tables) == Blocks(v.pool, v.tables)
    requires token < p.contextLen && head < Shape(v).numKvHeads
    ensures KVRow(v', p, stream, token, head) == KVRow(v, p, stream, token, head)
  {
    ShapePositive(v);
    var t, i := TableOfLayer(v, p.layer), token / Shape(v).tokensPerBlock;
    TokenInBlocks(v, p, token);
    TokenInBlocks(v', p, token);
    assert BlockFrame(v, i, TableOfLayer(v, p.layer)).Some? && BlockFrame(v', i, TableOfLayer(v', p.layer)).Some?;
    assert t == TableOfLayer(v', p.layer) && t < |v.tables| && t < |v'.tables|;
    hide ElementCount, VectorIn, Blocks, Dense, Resolved, WellSized, BlockFrame, OffsetLayer, TableOfLayer;
    ResidentBlock(v, t, i);
    ResidentBlock(v', t, i);
  }
}
