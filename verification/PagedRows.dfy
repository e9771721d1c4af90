/**
  A frame as rows: one row per (layer, stream, token in block), each holding every kv head of a
  token.  Writing a span of rows changes those rows and no others.
 */
module PagedRows {
  import opened Wrappers
  import opened Vectors
  import opened Arithmetic
  import opened SwapStore
  import opened FramePool
  import opened CacheLayout

  function TokenElems(s: BlockShape): nat { s.numKvHeads * s.headDim }

  /** Position of a row within the frame, in rows. */
  function RowIndex(s: BlockShape, layer: nat, stream: KVStream, offset: nat): nat {
    (layer * 2 + StreamIndex(stream)) * s.tokensPerBlock + offset
  }

  predicate InBlock(s: BlockShape, layer: nat, offset: nat) {
    layer < s.FrameLayers() && offset < s.tokensPerBlock
  }

  /** `stream_base`: where a layer's stream starts within a frame. */
  function StreamBase(s: BlockShape, layer: nat, stream: KVStream): nat {
    layer * LayerStride(s) + StreamIndex(stream) * StreamStride(s)
  }

  lemma BaseIsOffset(s: BlockShape, layer: nat, stream: KVStream)
    requires layer < s.FrameLayers() && s.tokensPerBlock > 0 && s.numKvHeads > 0
    ensures ElementOffset(s, layer, stream, 0, 0) == Some(StreamBase(s, layer, stream))
  {
    assert 0 * TokenStride(s) == 0 && 0 * HeadStride(s) == 0;
  }

  /** Rows sit where the strides put them. */
  lemma RowsAreStrided(s: BlockShape, layer: nat, stream: KVStream, offset: nat)
    ensures RowIndex(s, layer, stream, offset) * TokenElems(s) == StreamBase(s, layer, stream) + offset * TokenElems(s)
  {
    var i, t, k := StreamIndex(stream), s.tokensPerBlock, TokenElems(s);
    assert TokenStride(s) == k;
    Distribute(layer * 2 + i, offset, t, k);
    Distribute(layer * 2, i, 1, t * k);
    Associate(layer * 2 + i, t, k);
    Associate(layer, 2, t * k);
  }

  /** Different coordinates are different rows, all inside the frame. */
  lemma RowIndexInjective(s: BlockShape, layer: nat, stream: KVStream, offset: nat, layer': nat, stream': KVStream, offset': nat)
    requires InBlock(s, layer, offset) && InBlock(s, layer', offset')
    ensures RowIndex(s, layer, stream, offset) == RowIndex(s, layer', stream', offset') ==> layer == layer' && stream == stream' && offset == offset'
  {
    var t := s.tokensPerBlock;
    Digit(layer * 2 + StreamIndex(stream), offset, t);
    Digit(layer' * 2 + StreamIndex(stream'), offset', t);
    Digit(layer, StreamIndex(stream), 2);
    Digit(layer', StreamIndex(stream'), 2);
  }

  lemma RowFitsFrame(s: BlockShape, layer: nat, stream: KVStream, offset: nat)
    requires InBlock(s, layer, offset)
    ensures RowIndex(s, layer, stream, offset) * TokenElems(s) + TokenElems(s) <= ElementCount(s)
  {
    var t, k := s.tokensPerBlock, TokenElems(s);
    DigitsBelow(layer, StreamIndex(stream), 2, s.FrameLayers());
    DigitsBelow(layer * 2 + StreamIndex(stream), offset, t, s.FrameLayers() * 2);
    MulMonotone(RowIndex(s, layer, stream, offset) + 1, s.FrameLayers() * 2 * t, k);
    assert (RowIndex(s, layer, stream, offset) + 1) * k == RowIndex(s, layer, stream, offset) * k + k;
    CountIsProduct(s);
    Associate(s.FrameLayers() * 2 * t, s.numKvHeads, s.headDim);
  }

  function RowAt(frame: Frame, k: nat, size: nat): Row
    requires k * size + size <= |frame|
  {
    frame[k * size..k * size + size]
  }

  function Flatten(rows: seq<Row>): seq<real> {
    if rows == [] then [] else Flatten(rows[..|rows| - 1]) + rows[|rows| - 1]
  }

  predicate RowsOf(rows: seq<Row>, size: nat) {
    forall i :: 0 <= i < |rows| ==> |rows[i]| == size
  }

  lemma {:induction false} FlattenSize(rows: seq<Row>, size: nat)
    requires RowsOf(rows, size)
    ensures |Flatten(rows)| == |rows| * size
  {
    if rows != [] {
      FlattenSize(rows[..|rows| - 1], size);
      assert |rows| * size == (|rows| - 1) * size + size;
    }
  }

  lemma FlattenSplits(rows: seq<Row>)
    requires rows != []
    ensures Flatten(rows) == Flatten(rows[..|rows| - 1]) + rows[|rows| - 1]
  {}

  lemma RowsOfInit(rows: seq<Row>, size: nat)
    requires RowsOf(rows, size) && rows != []
    ensures RowsOf(rows[..|rows| - 1], size) && |rows[|rows| - 1]| == size
  {}

  lemma {:induction false} FlattenAt(rows: seq<Row>, size: nat, j: nat)
    requires RowsOf(rows, size) && j < |rows|
    ensures j * size + size <= |Flatten(rows)| && Flatten(rows)[j * size..j * size + size] == rows[j]
    decreases |rows|
  {
    hide *;
    var n := |rows| - 1;
    FlattenSplits(rows);
    RowsOfInit(rows, size);
    FlattenSize(rows[..n], size);
    if j < n {
      FlattenAt(rows[..n], size, j);
    }
  }

  function Splice(frame: Frame, at: nat, data: seq<real>): (r: Frame)
    requires at + |data| <= |frame|
    ensures |r| == |frame|
  {
    frame[..at] + data + frame[at + |data|..]
  }

  lemma SpliceElsewhere(frame: Frame, at: nat, data: seq<real>, a: nat, b: nat)
    requires at + |data| <= |frame| && a <= b <= |frame| && (b <= at || at + |data| <= a)
    ensures Splice(frame, at, data)[a..b] == frame[a..b]
  {}

  lemma SpliceInside(frame: Frame, at: nat, data: seq<real>, a: nat, b: nat)
    requires at + |data| <= |frame| && a <= b <= |data|
    ensures Splice(frame, at, data)[at + a..at + b] == data[a..b]
  {}

  lemma RowAtIs(frame: Frame, k: nat, size: nat)
    requires k * size + size <= |frame|
    ensures RowAt(frame, k, size) == frame[k * size..k * size + size]
  {}

  /** Splicing rows from row k on replaces rows k to k + |rows| and leaves every other row. */
  lemma SpliceRows(frame: Frame, k: nat, rows: seq<Row>, size: nat, i: nat)
    requires RowsOf(rows, size) && (k + |rows|) * size <= |frame| && i * size + size <= |frame|
    ensures k * size + |Flatten(rows)| <= |frame|
    ensures RowAt(Splice(frame, k * size, Flatten(rows)), i, size)
         == if k <= i < k + |rows| then rows[i - k] else RowAt(frame, i, size)
  {
    hide *;
    FlattenSize(rows, size);
    MulAdd(k, |rows|, size);
    RowAtIs(frame, i, size);
    RowAtIs(Splice(frame, k * size, Flatten(rows)), i, size);
    if k <= i < k + |rows| {
      FlattenAt(rows, size, i - k);
      MulAdd(k, i - k, size);
      SpliceInside(frame, k * size, Flatten(rows), (i - k) * size, (i - k) * size + size);
    } else {
      MulMonotone(i + 1, k, size);
      MulMonotone(k + |rows|, i, size);
      MulAdd(i, 1, size);
      SpliceElsewhere(frame, k * size, Flatten(rows), i * size, i * size + size);
    }
  }
}
