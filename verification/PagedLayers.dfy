/** One decoder layer's writes into the shared pool, and what they do to what every branch reads. */
module PagedLayers {
  import opened Vectors
  import opened Arithmetic
  import opened SwapStore
  import opened FramePool
  import opened CacheStore
  import opened CacheWrites
  import opened CacheLayout
  import opened PagedPoolModel
  import opened PagedPoolMemos
  import opened PagedRows
  import CacheRuns

  function ShapeOf(s: PoolState): BlockShape { s.store.pool.shape }

  /** Every layer in one frame, and frames at least as large as a block. */
  ghost predicate Geometry(s: PoolState, cfg: PoolConfig) {
    var shape := ShapeOf(s);
    && shape.tokensPerBlock == cfg.tpb > 0 && shape.numKvHeads > 0
    && s.store.pool.width >= ElementCount(shape)
  }

  function StoreSlice(s: PoolState, frame: nat, at: nat, data: seq<real>): (r: PoolState)
    requires ValidPool(s.store.pool)
    ensures ValidPool(r.store.pool)
  {
    if frame < |s.store.pool.bytes| && at + |data| <= |s.store.pool.bytes[frame]| then
      s.(store := s.store.(pool := WriteFrame(s.store.pool, frame, Splice(s.store.pool.bytes[frame], at, data))))
    else s
  }

  /** Writes a span of tokens block by block: resolve the frame, store its keys, store its values. */
  function WriteSpan(s: PoolState, cfg: PoolConfig, sid: nat, layer: nat, position: nat, keys: seq<Row>, values: seq<Row>): (r: (PoolState, bool))
    requires ValidPool(s.store.pool) && cfg.tpb > 0 && |values| == |keys|
    ensures ValidPool(r.0.store.pool)
    decreases |keys|
  {
    if keys == [] then (s, true)
    else
      var offset := position % cfg.tpb;
      var count := Min(cfg.tpb - offset, |keys|);
      var (s1, frame) := WritableFrame(s, cfg, sid, position);
      if frame.None? then (s1, false)
      else
        WriteSpan(StoreBlockRows(s1, frame.value, layer, offset, keys[..count], values[..count]),
                  cfg, sid, layer, position + count, keys[count..], values[count..])
  }

  function StoreBlockRows(s: PoolState, frame: nat, layer: nat, offset: nat, keys: seq<Row>, values: seq<Row>): (r: PoolState)
    requires ValidPool(s.store.pool)
    ensures ValidPool(r.store.pool)
  {
    var shape := ShapeOf(s);
    StoreSlice(StoreSlice(s, frame, StreamBase(shape, layer, Key) + offset * TokenElems(shape), Flatten(keys)),
               frame, StreamBase(shape, layer, Value) + offset * TokenElems(shape), Flatten(values))
  }

  // ---- What a sequence reads, token by token -----------------------------------------------------------

  ghost predicate Sized(frames: seq<Frame>, s: BlockShape) {
    forall b :: 0 <= b < |frames| ==> |frames[b]| >= ElementCount(s)
  }

  /** The row of one token in one layer's keys or values. */
  ghost function TokenAt(frames: seq<Frame>, s: BlockShape, layer: nat, stream: KVStream, t: nat): Row
    requires s.tokensPerBlock > 0 && layer < s.FrameLayers() && t / s.tokensPerBlock < |frames| && Sized(frames, s)
  {
    RowFitsFrame(s, layer, stream, t % s.tokensPerBlock);
    RowAt(frames[t / s.tokensPerBlock], RowIndex(s, layer, stream, t % s.tokensPerBlock), TokenElems(s))
  }

  /** Tokens from `from` on, in this layer, now read these rows; every other token reads what it read. */
  ghost predicate WroteRows(r: seq<Frame>, r': seq<Frame>, s: BlockShape, layer: nat, from: nat, keys: seq<Row>, values: seq<Row>)
    requires s.tokensPerBlock > 0 && |values| == |keys|
  {
    && |r'| == |r| && Sized(r, s) && Sized(r', s)
    && forall l, stream, t :: 0 <= l < s.FrameLayers() && 0 <= t && t / s.tokensPerBlock < |r| ==>
         TokenAt(r', s, l, stream, t) == WrittenOr(l == layer && from <= t < from + |keys|, stream, keys, values, t - from, TokenAt(r, s, l, stream, t))
  }

  function WrittenOr(written: bool, stream: KVStream, keys: seq<Row>, values: seq<Row>, i: int, was: Row): Row
    requires written ==> 0 <= i < |keys| == |values|
  {
    if written then (if stream.Key? then keys[i] else values[i]) else was
  }

  lemma WroteNothing(r: seq<Frame>, s: BlockShape, layer: nat, from: nat)
    requires s.tokensPerBlock > 0 && Sized(r, s)
    ensures WroteRows(r, r, s, layer, from, [], [])
  {}

  lemma WroteMore(a: seq<Frame>, b: seq<Frame>, c: seq<Frame>, s: BlockShape, layer: nat, from: nat, keys: seq<Row>, values: seq<Row>, n: nat)
    requires s.tokensPerBlock > 0 && |values| == |keys| && n <= |keys|
    requires WroteRows(a, b, s, layer, from, keys[..n], values[..n])
    requires WroteRows(b, c, s, layer, from + n, keys[n..], values[n..])
    ensures WroteRows(a, c, s, layer, from, keys, values)
  {
    hide TokenAt, Sized;
    forall l, stream, t | 0 <= l < s.FrameLayers() && 0 <= t && t / s.tokensPerBlock < |a|
      ensures Sized(a, s) && Sized(c, s)
      ensures TokenAt(c, s, l, stream, t) == WrittenOr(l == layer && from <= t < from + |keys|, stream, keys, values, t - from, TokenAt(a, s, l, stream, t))
    {
      assert TokenAt(c, s, l, stream, t)
          == WrittenOr(l == layer && from + n <= t < from + n + |keys[n..]|, stream, keys[n..], values[n..], t - (from + n), TokenAt(b, s, l, stream, t));
      assert TokenAt(b, s, l, stream, t)
          == WrittenOr(l == layer && from <= t < from + |keys[..n]|, stream, keys[..n], values[..n], t - from, TokenAt(a, s, l, stream, t));
    }
  }

  // ---- One block's worth ---------------------------------------------------------------------------------

  lemma SliceFits(s: BlockShape, layer: nat, stream: KVStream, offset: nat, rows: seq<Row>)
    requires layer < s.FrameLayers() && offset + |rows| <= s.tokensPerBlock && RowsOf(rows, TokenElems(s)) && rows != []
    ensures StreamBase(s, layer, stream) + offset * TokenElems(s) == RowIndex(s, layer, stream, offset) * TokenElems(s)
    ensures (RowIndex(s, layer, stream, offset) + |rows|) * TokenElems(s) <= ElementCount(s)
    ensures StreamBase(s, layer, stream) + offset * TokenElems(s) + |Flatten(rows)| <= ElementCount(s)
  {
    hide *;
    RowsAreStrided(s, layer, stream, offset);
    Blocked(s, layer, offset + |rows| - 1);
    RowFitsFrame(s, layer, stream, offset + |rows| - 1);
    FlattenSize(rows, TokenElems(s));
    Shifted(s, layer, stream, offset, offset + |rows| - 1);
    Spans(RowIndex(s, layer, stream, offset), |rows|, TokenElems(s));
  }

  lemma Spans(k: nat, n: nat, e: nat)
    requires n > 0
    ensures (k + n) * e == (k + n - 1) * e + e == k * e + n * e
  {}

  /** Storing rows of one stream into a block's frame, seen through the readings. */
  function PutRows(frame: Frame, s: BlockShape, layer: nat, stream: KVStream, offset: nat, rows: seq<Row>): Frame
    requires layer < s.FrameLayers() && offset + |rows| <= s.tokensPerBlock && RowsOf(rows, TokenElems(s)) && rows != []
    requires |frame| >= ElementCount(s)
  {
    SliceFits(s, layer, stream, offset, rows);
    Splice(frame, StreamBase(s, layer, stream) + offset * TokenElems(s), Flatten(rows))
  }

  lemma PutRowsAt(frame: Frame, s: BlockShape, layer: nat, stream: KVStream, offset: nat, rows: seq<Row>, l: nat, st: KVStream, o: nat)
    requires layer < s.FrameLayers() && offset + |rows| <= s.tokensPerBlock && RowsOf(rows, TokenElems(s)) && rows != []
    requires |frame| >= ElementCount(s) && InBlock(s, l, o)
    ensures |PutRows(frame, s, layer, stream, offset, rows)| == |frame|
    ensures RowIndex(s, l, st, o) * TokenElems(s) + TokenElems(s) <= |frame|
    ensures RowAt(PutRows(frame, s, layer, stream, offset, rows), RowIndex(s, l, st, o), TokenElems(s))
         == if l == layer && st == stream && offset <= o < offset + |rows| then rows[o - offset]
            else RowAt(frame, RowIndex(s, l, st, o), TokenElems(s))
  {
    hide *;
    SliceFits(s, layer, stream, offset, rows);
    PutRowsIs(frame, s, layer, stream, offset, rows);
    RowFitsFrame(s, l, st, o);
    var k, i := RowIndex(s, layer, stream, offset), RowIndex(s, l, st, o);
    SpliceRows(frame, k, rows, TokenElems(s), i);
    Shifted(s, layer, stream, offset, o);
    if k <= i < k + |rows| {
      Shifted(s, layer, stream, offset, offset + (i - k));
      Blocked(s, layer, offset + (i - k));
      RowIndexInjective(s, l, st, o, layer, stream, offset + (i - k));
    }
  }

  lemma Blocked(s: BlockShape, layer: nat, offset: nat)
    requires layer < s.FrameLayers() && offset < s.tokensPerBlock
    ensures InBlock(s, layer, offset)
  {}

  lemma Shifted(s: BlockShape, layer: nat, stream: KVStream, o: nat, o': nat)
    ensures RowIndex(s, layer, stream, o') - o' == RowIndex(s, layer, stream, o) - o
  {}

  lemma PutRowsIs(frame: Frame, s: BlockShape, layer: nat, stream: KVStream, offset: nat, rows: seq<Row>)
    requires layer < s.FrameLayers() && offset + |rows| <= s.tokensPerBlock && RowsOf(rows, TokenElems(s)) && rows != []
    requires |frame| >= ElementCount(s)
    ensures StreamBase(s, layer, stream) + offset * TokenElems(s) + |Flatten(rows)| <= |frame|
    ensures PutRows(frame, s, layer, stream, offset, rows)
         == Splice(frame, StreamBase(s, layer, stream) + offset * TokenElems(s), Flatten(rows))
  {
    hide ElementCount, StreamBase, TokenElems;
    SliceFits(s, layer, stream, offset, rows);
  }

  /** A block's frame after its keys and then its values were stored. */
  lemma BlockWrote(r: seq<Frame>, s: BlockShape, layer: nat, from: nat, keys: seq<Row>, values: seq<Row>)
    requires s.tokensPerBlock > 0 && layer < s.FrameLayers() && Sized(r, s) && from / s.tokensPerBlock < |r|
    requires |values| == |keys| > 0 && from % s.tokensPerBlock + |keys| <= s.tokensPerBlock
    requires RowsOf(keys, TokenElems(s)) && RowsOf(values, TokenElems(s))
    ensures var b, o := from / s.tokensPerBlock, from % s.tokensPerBlock;
            var f1 := PutRows(r[b], s, layer, Key, o, keys);
            && |f1| == |r[b]|
            && WroteRows(r, r[b := PutRows(f1, s, layer, Value, o, values)], s, layer, from, keys, values)
  {
    hide *;
    SizedAt(r, s, from / s.tokensPerBlock);
    Blocked(s, layer, from % s.tokensPerBlock);
    var tpb := s.tokensPerBlock;
    var b, o := from / tpb, from % tpb;
    PutRowsAt(r[b], s, layer, Key, o, keys, layer, Key, o);
    var f1 := PutRows(r[b], s, layer, Key, o, keys);
    PutRowsAt(f1, s, layer, Value, o, values, layer, Value, o);
    var r' := r[b := PutRows(f1, s, layer, Value, o, values)];
    SizedPut(r, s, b, PutRows(f1, s, layer, Value, o, values));
    forall l, stream, t | 0 <= l < s.FrameLayers() && 0 <= t && t / tpb < |r|
      ensures TokenAt(r', s, l, stream, t)
           == WrittenOr(l == layer && from <= t < from + |keys|, stream, keys, values, t - from, TokenAt(r, s, l, stream, t))
    {
      TokenWrote(r, s, layer, from, keys, values, l, stream, t);
    }
    WroteFrom(r, r', s, layer, from, keys, values);
  }

  lemma SizedPut(r: seq<Frame>, s: BlockShape, b: nat, f: Frame)
    requires Sized(r, s) && b < |r| && |f| == |r[b]|
    ensures Sized(r[b := f], s)
  {
    hide ElementCount;
  }

  lemma WroteFrom(r: seq<Frame>, r': seq<Frame>, s: BlockShape, layer: nat, from: nat, keys: seq<Row>, values: seq<Row>)
    requires s.tokensPerBlock > 0 && |values| == |keys| && |r'| == |r| && Sized(r, s) && Sized(r', s)
    requires forall l, stream, t :: 0 <= l < s.FrameLayers() && 0 <= t && t / s.tokensPerBlock < |r| ==>
               TokenAt(r', s, l, stream, t) == WrittenOr(l == layer && from <= t < from + |keys|, stream, keys, values, t - from, TokenAt(r, s, l, stream, t))
    ensures WroteRows(r, r', s, layer, from, keys, values)
  {
    hide TokenAt, Sized;
  }

  lemma TokenIs(frames: seq<Frame>, s: BlockShape, layer: nat, stream: KVStream, t: nat)
    requires s.tokensPerBlock > 0 && layer < s.FrameLayers() && t / s.tokensPerBlock < |frames| && Sized(frames, s)
    ensures RowIndex(s, layer, stream, t % s.tokensPerBlock) * TokenElems(s) + TokenElems(s) <= |frames[t / s.tokensPerBlock]|
    ensures TokenAt(frames, s, layer, stream, t)
         == RowAt(frames[t / s.tokensPerBlock], RowIndex(s, layer, stream, t % s.tokensPerBlock), TokenElems(s))
  {
    hide ElementCount, TokenElems, RowAt, RowIndex;
    RowFitsFrame(s, layer, stream, t % s.tokensPerBlock);
  }

  lemma TokenWrote(r: seq<Frame>, s: BlockShape, layer: nat, from: nat, keys: seq<Row>, values: seq<Row>, l: nat, stream: KVStream, t: nat)
    requires s.tokensPerBlock > 0 && layer < s.FrameLayers() && Sized(r, s) && from / s.tokensPerBlock < |r|
    requires |values| == |keys| > 0 && from % s.tokensPerBlock + |keys| <= s.tokensPerBlock
    requires RowsOf(keys, TokenElems(s)) && RowsOf(values, TokenElems(s))
    requires l < s.FrameLayers() && t / s.tokensPerBlock < |r|
    ensures var b, o := from / s.tokensPerBlock, from % s.tokensPerBlock;
            var f1 := PutRows(r[b], s, layer, Key, o, keys);
            && |f1| == |r[b]|
            && var r' := r[b := PutRows(f1, s, layer, Value, o, values)];
               && Sized(r', s)
               && TokenAt(r', s, l, stream, t)
               == WrittenOr(l == layer && from <= t < from + |keys|, stream, keys, values, t - from, TokenAt(r, s, l, stream, t))
  {
    hide *;
    var tpb := s.tokensPerBlock;
    var b, o := from / tpb, from % tpb;
    SizedAt(r, s, b);
    Blocked(s, layer, o);
    PutRowsAt(r[b], s, layer, Key, o, keys, layer, Key, o);
    var f1 := PutRows(r[b], s, layer, Key, o, keys);
    PutRowsAt(f1, s, layer, Value, o, values, layer, Value, o);
    var f2 := PutRows(f1, s, layer, Value, o, values);
    var r' := r[b := f2];
    SizedPut(r, s, b, f2);
    TokenIs(r, s, l, stream, t);
    TokenIs(r', s, l, stream, t);
    WrittenIs(l == layer && from <= t < from + |keys|, stream, keys, values, t - from, TokenAt(r, s, l, stream, t));
    if t / tpb == b {
      Blocked(s, l, t % tpb);
      PutRowsAt(r[b], s, layer, Key, o, keys, l, stream, t % tpb);
      PutRowsAt(f1, s, layer, Value, o, values, l, stream, t % tpb);
      SameBlock(from, t, tpb);
    } else {
      OtherBlock(from, t, tpb, |keys|);
    }
  }

  lemma WrittenIs(written: bool, stream: KVStream, keys: seq<Row>, values: seq<Row>, i: int, was: Row)
    requires written ==> 0 <= i < |keys| == |values|
    ensures WrittenOr(written, stream, keys, values, i, was) == if written then (if stream.Key? then keys[i] else values[i]) else was
  {}

  lemma SameBlock(from: nat, t: nat, tpb: nat)
    requires tpb > 0 && from / tpb == t / tpb
    ensures t - from == t % tpb - from % tpb
  {
    assert from == from / tpb * tpb + from % tpb && t == t / tpb * tpb + t % tpb;
  }

  lemma OtherBlock(from: nat, t: nat, tpb: nat, n: nat)
    requires tpb > 0 && from / tpb != t / tpb && from % tpb + n <= tpb
    ensures !(from <= t < from + n)
  {
    assert from == from / tpb * tpb + from % tpb;
    if from <= t < from + n {
      Digit(from / tpb, from % tpb + (t - from), tpb);
    }
  }

  // ---- One span ------------------------------------------------------------------------------------------

  /** What the others, and the memo of the last write, look like afterwards. */
  ghost predicate SpanAround(s: PoolState, s': PoolState, cfg: PoolConfig, sid: nat, from: nat, n: nat)
    requires cfg.tpb > 0
  {
    && s'.tableLen == s.tableLen && sid in s.store.seqs && s'.store.seqs.Keys == s.store.seqs.Keys
    && (forall k :: k in s.store.seqs && k != sid ==> k in s'.store.seqs && s'.store.seqs[k] == s.store.seqs[k] && Reading(s'.store, k) == Reading(s.store, k))
    && |BlockTableOf(s'.store, sid)| == |BlockTableOf(s.store, sid)|
    && (if n == 0 then s'.writable == s.writable
        else s'.writable.Some? && s'.writable.value.0 == sid && from <= s'.writable.value.1 < from + n
             && Exclusive(s'.store, sid, 0, s'.writable.value.1 / cfg.tpb, s'.writable.value.2))
  }

  /** What one span's writes leave behind for everybody. */
  ghost predicate SpanWrote(s: PoolState, s': PoolState, cfg: PoolConfig, sid: nat, layer: nat, from: nat, keys: seq<Row>, values: seq<Row>)
    requires |values| == |keys| && cfg.tpb > 0 && ShapeOf(s).tokensPerBlock > 0
  {
    && SpanAround(s, s', cfg, sid, from, |keys|)
    && WroteRows(Reading(s.store, sid), Reading(s'.store, sid), ShapeOf(s), layer, from, keys, values)
    && PoolInv(s', cfg) && MemosAgree(s', cfg) && Geometry(s', cfg) && ShapeOf(s') == ShapeOf(s)
  }

  lemma ReadingsSized(s: PoolState, cfg: PoolConfig, sid: nat)
    requires PoolInv(s, cfg) && Geometry(s, cfg) && sid in s.store.seqs
    ensures Sized(Reading(s.store, sid), ShapeOf(s)) && |Reading(s.store, sid)| == |BlockTableOf(s.store, sid)|
  {
    hide ElementCount, PoolInv, CacheRuns.Inv;
    PoolShows(s, cfg);
    AbsReads(s.store, sid);
    OneTable(s.store, sid);
    AlwaysResident(s.store, sid);
    forall b | 0 <= b < |Reading(s.store, sid)|
      ensures |Reading(s.store, sid)[b]| == s.store.pool.width
    {
      EntryIsCounted(s.store, sid, 0, b);
    }
  }

  lemma SliceStores(s: PoolState, frame: nat, at: nat, data: seq<real>)
    requires ValidPool(s.store.pool) && frame < |s.store.pool.bytes| && at + |data| <= |s.store.pool.bytes[frame]|
    ensures var content := Splice(s.store.pool.bytes[frame], at, data);
            && |content| == s.store.pool.width
            && StoreSlice(s, frame, at, data) == s.(store := s.store.(pool := WriteFrame(s.store.pool, frame, content)))
  {}

  /** The exclusive frame's bytes are the block the sequence reads. */
  lemma OwnFrameReads(s: PoolState, cfg: PoolConfig, sid: nat, block: nat, frame: nat)
    requires PoolInv(s, cfg) && Exclusive(s.store, sid, 0, block, frame)
    ensures frame < |s.store.pool.bytes| && block < |Reading(s.store, sid)| && Reading(s.store, sid)[block] == s.store.pool.bytes[frame]
  {
    hide PoolInv, CacheRuns.Inv;
    PoolShows(s, cfg);
    OneTable(s.store, sid);
  }

  /** Storing rows of one stream into the block's own frame. */
  lemma StoreRowsIs(s: PoolState, cfg: PoolConfig, sid: nat, block: nat, frame: nat, layer: nat, stream: KVStream, offset: nat, rows: seq<Row>)
    requires PoolInv(s, cfg) && MemosAgree(s, cfg) && Geometry(s, cfg) && Exclusive(s.store, sid, 0, block, frame)
    requires layer < ShapeOf(s).FrameLayers() && offset + |rows| <= ShapeOf(s).tokensPerBlock && RowsOf(rows, TokenElems(ShapeOf(s))) && rows != []
    ensures ValidPool(s.store.pool) && sid in s.store.seqs && block < |Reading(s.store, sid)|
    ensures |Reading(s.store, sid)[block]| >= ElementCount(ShapeOf(s))
    ensures var s' := StoreSlice(s, frame, StreamBase(ShapeOf(s), layer, stream) + offset * TokenElems(ShapeOf(s)), Flatten(rows));
            && PoolInv(s', cfg) && MemosAgree(s', cfg) && Geometry(s', cfg) && ShapeOf(s') == ShapeOf(s)
            && s' == s.(store := s.store.(pool := s'.store.pool)) && Exclusive(s'.store, sid, 0, block, frame)
            && Reading(s'.store, sid) == Reading(s.store, sid)[block := PutRows(Reading(s.store, sid)[block], ShapeOf(s), layer, stream, offset, rows)]
            && (forall k :: k in s.store.seqs && k != sid ==> Reading(s'.store, k) == Reading(s.store, k))
  {
    hide *;
    PoolShows(s, cfg);
    ExclusiveShows(s.store, sid, block, frame);
    OwnFrameReads(s, cfg, sid, block, frame);
    ReadingsSized(s, cfg, sid);
    SizedAt(Reading(s.store, sid), ShapeOf(s), block);
    GeometryShows(s, cfg);
    var shape := ShapeOf(s);
    PutRowsIs(Reading(s.store, sid)[block], shape, layer, stream, offset, rows);
    var at := StreamBase(shape, layer, stream) + offset * TokenElems(shape);
    SliceStores(s, frame, at, Flatten(rows));
    StoreIs(s, cfg, sid, block, frame, Splice(s.store.pool.bytes[frame], at, Flatten(rows)));
    var s' := StoreSlice(s, frame, at, Flatten(rows));
    GeometryKept(s, s', cfg);
  }

  lemma SizedAt(frames: seq<Frame>, s: BlockShape, b: nat)
    requires Sized(frames, s) && b < |frames|
    ensures |frames[b]| >= ElementCount(s)
  {}

  lemma GeometryShows(s: PoolState, cfg: PoolConfig)
    requires Geometry(s, cfg)
    ensures ShapeOf(s).tokensPerBlock == cfg.tpb > 0 && ShapeOf(s) == s.store.pool.shape && ShapeOf(s).numKvHeads > 0
  {}

  lemma GeometryKept(s: PoolState, s': PoolState, cfg: PoolConfig)
    requires Geometry(s, cfg) && SameLayout(s.store.pool, s'.store.pool)
    ensures Geometry(s', cfg) && ShapeOf(s') == ShapeOf(s)
  {}

  /** Keys and values of one block. */
  lemma BlockRowsStored(s: PoolState, cfg: PoolConfig, sid: nat, from: nat, frame: nat, layer: nat, keys: seq<Row>, values: seq<Row>)
    requires PoolInv(s, cfg) && MemosAgree(s, cfg) && Geometry(s, cfg) && cfg.tpb > 0
    requires Exclusive(s.store, sid, 0, from / cfg.tpb, frame)
    requires layer < ShapeOf(s).FrameLayers() && |values| == |keys| > 0 && from % cfg.tpb + |keys| <= cfg.tpb
    requires RowsOf(keys, TokenElems(ShapeOf(s))) && RowsOf(values, TokenElems(ShapeOf(s)))
    ensures ValidPool(s.store.pool) && ShapeOf(s).tokensPerBlock > 0
    ensures var s' := StoreBlockRows(s, frame, layer, from % cfg.tpb, keys, values);
            && PoolInv(s', cfg) && MemosAgree(s', cfg) && Geometry(s', cfg) && ShapeOf(s') == ShapeOf(s)
            && s' == s.(store := s.store.(pool := s'.store.pool)) && sid in s.store.seqs
            && Exclusive(s'.store, sid, 0, from / cfg.tpb, frame)
            && WroteRows(Reading(s.store, sid), Reading(s'.store, sid), ShapeOf(s), layer, from, keys, values)
            && (forall k :: k in s.store.seqs && k != sid ==> Reading(s'.store, k) == Reading(s.store, k))
  {
    hide *;
    PoolShows(s, cfg);
    GeometryShows(s, cfg);
    var shape, o, b := ShapeOf(s), from % cfg.tpb, from / cfg.tpb;
    StoreRowsIs(s, cfg, sid, b, frame, layer, Key, o, keys);
    var s1 := StoreSlice(s, frame, StreamBase(shape, layer, Key) + o * TokenElems(shape), Flatten(keys));
    StoreRowsIs(s1, cfg, sid, b, frame, layer, Value, o, values);
    ReadingsSized(s, cfg, sid);
    BlockWrote(Reading(s.store, sid), shape, layer, from, keys, values);
    StoreBlockIs(s, frame, layer, o, keys, values);
    var f1 := PutRows(Reading(s.store, sid)[b], shape, layer, Key, o, keys);
    Blocked(shape, layer, o);
    PutRowsAt(Reading(s.store, sid)[b], shape, layer, Key, o, keys, layer, Key, o);
    PutTwice(Reading(s.store, sid), b, f1, PutRows(f1, shape, layer, Value, o, values));
  }

  lemma PutTwice(r: seq<Frame>, b: nat, f: Frame, g: Frame)
    requires b < |r|
    ensures r[b := f][b] == f && r[b := f][b := g] == r[b := g]
  {}

  lemma StoreBlockIs(s: PoolState, frame: nat, layer: nat, offset: nat, keys: seq<Row>, values: seq<Row>)
    requires ValidPool(s.store.pool)
    ensures var shape := ShapeOf(s);
            StoreBlockRows(s, frame, layer, offset, keys, values) ==
            StoreSlice(StoreSlice(s, frame, StreamBase(shape, layer, Key) + offset * TokenElems(shape), Flatten(keys)),
                       frame, StreamBase(shape, layer, Value) + offset * TokenElems(shape), Flatten(values))
  {
    hide StoreSlice, StreamBase, TokenElems, Flatten, ValidPool;
  }

  /** One round of the span: resolve the frame, then store the block's rows. */
  lemma RoundWrote(s: PoolState, cfg: PoolConfig, sid: nat, layer: nat, from: nat, keys: seq<Row>, values: seq<Row>)
    requires cfg.tpb > 0 && PoolInv(s, cfg) && MemosAgree(s, cfg) && Geometry(s, cfg) && FreshMemo(s, cfg, sid, from)
    requires layer < ShapeOf(s).FrameLayers() && |values| == |keys| > 0 && from % cfg.tpb + |keys| <= cfg.tpb
    requires RowsOf(keys, TokenElems(ShapeOf(s))) && RowsOf(values, TokenElems(ShapeOf(s)))
    ensures ValidPool(s.store.pool) && ShapeOf(s).tokensPerBlock > 0
    ensures var (s1, frame) := WritableFrame(s, cfg, sid, from);
            frame.Some? ==> SpanWrote(s, StoreBlockRows(s1, frame.value, layer, from % cfg.tpb, keys, values), cfg, sid, layer, from, keys, values)
  {
    hide *;
    PoolShows(s, cfg);
    GeometryShows(s, cfg);
    FreshFrameIsOwn(s, cfg, sid, from);
    var (s1, frame) := WritableFrame(s, cfg, sid, from);
    if frame.Some? {
      ResolvedMeans(s, s1, cfg, sid, from, frame);
      RemappedShows(s.store, s1.store, sid, from / cfg.tpb, frame.value);
      RemappedReads(s.store, s1.store, sid, from / cfg.tpb, frame.value);
      GeometryKept(s, s1, cfg);
      BlockRowsStored(s1, cfg, sid, from, frame.value, layer, keys, values);
      var s2 := StoreBlockRows(s1, frame.value, layer, from % cfg.tpb, keys, values);
      BlockTableOnPool(s1.store, s2.store.pool, sid);
      AroundShows(s, s2, cfg, sid, from, |keys|);
      SpanWroteFrom(s, s2, cfg, sid, layer, from, keys, values);
    }
  }

  lemma RemappedReads(st: Store, st': Store, sid: nat, block: nat, frame: nat)
    requires Remapped(st, st', sid, block, frame)
    ensures forall k :: k in st.seqs && k != sid ==> k in st'.seqs && st'.seqs[k] == st.seqs[k]
    ensures forall k :: k in st.seqs ==> Reading(st', k) == Reading(st, k)
  {}

  lemma BlockTableOnPool(st: Store, p: Pool, sid: nat)
    ensures BlockTableOf(st.(pool := p), sid) == BlockTableOf(st, sid)
  {}

  lemma SpanWroteFrom(s: PoolState, s': PoolState, cfg: PoolConfig, sid: nat, layer: nat, from: nat, keys: seq<Row>, values: seq<Row>)
    requires |values| == |keys| && cfg.tpb > 0 && ShapeOf(s).tokensPerBlock > 0 && ShapeOf(s') == ShapeOf(s)
    requires SpanAround(s, s', cfg, sid, from, |keys|)
    requires WroteRows(Reading(s.store, sid), Reading(s'.store, sid), ShapeOf(s), layer, from, keys, values)
    requires Geometry(s', cfg) && MemosAgree(s', cfg) && PoolInv(s', cfg)
    ensures SpanWrote(s, s', cfg, sid, layer, from, keys, values)
  {
    hide PoolInv, MemosAgree, Geometry, SpanAround, WroteRows, Reading;
  }

  lemma AroundShows(s: PoolState, s': PoolState, cfg: PoolConfig, sid: nat, from: nat, n: nat)
    requires cfg.tpb > 0
    ensures SpanAround(s, s', cfg, sid, from, n) <==>
            && s'.tableLen == s.tableLen && sid in s.store.seqs && s'.store.seqs.Keys == s.store.seqs.Keys
            && (forall k :: k in s.store.seqs && k != sid ==> k in s'.store.seqs && s'.store.seqs[k] == s.store.seqs[k] && Reading(s'.store, k) == Reading(s.store, k))
            && |BlockTableOf(s'.store, sid)| == |BlockTableOf(s.store, sid)|
            && (if n == 0 then s'.writable == s.writable
                else s'.writable.Some? && s'.writable.value.0 == sid && from <= s'.writable.value.1 < from + n
                     && Exclusive(s'.store, sid, 0, s'.writable.value.1 / cfg.tpb, s'.writable.value.2))
  {
    hide Reading, BlockTableOf, Exclusive;
  }

  lemma SpanWroteShows(s: PoolState, s': PoolState, cfg: PoolConfig, sid: nat, layer: nat, from: nat, keys: seq<Row>, values: seq<Row>)
    requires |values| == |keys| && cfg.tpb > 0 && ShapeOf(s).tokensPerBlock > 0
    requires SpanWrote(s, s', cfg, sid, layer, from, keys, values)
    ensures SpanAround(s, s', cfg, sid, from, |keys|)
    ensures WroteRows(Reading(s.store, sid), Reading(s'.store, sid), ShapeOf(s), layer, from, keys, values)
    ensures Geometry(s', cfg) && ShapeOf(s') == ShapeOf(s)
    ensures MemosAgree(s', cfg)
    ensures PoolInv(s', cfg)
  {
    hide PoolInv, MemosAgree, Geometry, Exclusive, WroteRows, Reading, BlockTableOf;
  }

  lemma FreshAfter(s: PoolState, cfg: PoolConfig, sid: nat, from: nat)
    requires cfg.tpb > 0 && s.writable.Some? && Exclusive(s.store, sid, 0, s.writable.value.1 / cfg.tpb, s.writable.value.2)
    ensures FreshMemo(s, cfg, sid, from)
  {
    hide Exclusive;
  }

  /** A whole span is written as if row by row, and leaves everything else alone. */
  lemma {:induction false} SpanIsWritten(s: PoolState, cfg: PoolConfig, sid: nat, layer: nat, from: nat, keys: seq<Row>, values: seq<Row>)
    requires cfg.tpb > 0 && PoolInv(s, cfg) && MemosAgree(s, cfg) && Geometry(s, cfg) && FreshMemo(s, cfg, sid, from)
    requires layer < ShapeOf(s).FrameLayers() && |values| == |keys| && sid in s.store.seqs
    requires RowsOf(keys, TokenElems(ShapeOf(s))) && RowsOf(values, TokenElems(ShapeOf(s)))
    ensures ValidPool(s.store.pool) && ShapeOf(s).tokensPerBlock > 0
    ensures var (s', ok) := WriteSpan(s, cfg, sid, layer, from, keys, values);
            ok ==> SpanWrote(s, s', cfg, sid, layer, from, keys, values)
    decreases |keys|
  {
    hide *;
    PoolShows(s, cfg);
    GeometryShows(s, cfg);
    ReadingsSized(s, cfg, sid);
    if keys == [] {
      WroteNothing(Reading(s.store, sid), ShapeOf(s), layer, from);
      NothingToWrite(s, cfg, sid, layer, from);
      AroundShows(s, s, cfg, sid, from, 0);
      SpanWroteFrom(s, s, cfg, sid, layer, from, [], []);
    } else {
      var offset := from % cfg.tpb;
      var n := Min(cfg.tpb - offset, |keys|);
      CountIs(cfg.tpb - offset, |keys|);
      PartRows(keys, n, TokenElems(ShapeOf(s)));
      PartRows(values, n, TokenElems(ShapeOf(s)));
      WriteSpanStep(s, cfg, sid, layer, from, keys, values);
      RoundWrote(s, cfg, sid, layer, from, keys[..n], values[..n]);
      var (s1, frame) := WritableFrame(s, cfg, sid, from);
      if frame.Some? {
        var s2 := StoreBlockRows(s1, frame.value, layer, offset, keys[..n], values[..n]);
        SpanWroteShows(s, s2, cfg, sid, layer, from, keys[..n], values[..n]);
        AroundShows(s, s2, cfg, sid, from, |keys[..n]|);
        FreshAfter(s2, cfg, sid, from + n);
        SpanIsWritten(s2, cfg, sid, layer, from + n, keys[n..], values[n..]);
        var (s', ok) := WriteSpan(s2, cfg, sid, layer, from + n, keys[n..], values[n..]);
        if ok {
          SpanWroteShows(s2, s', cfg, sid, layer, from + n, keys[n..], values[n..]);
          AroundShows(s2, s', cfg, sid, from + n, |keys[n..]|);
          WroteMore(Reading(s.store, sid), Reading(s2.store, sid), Reading(s'.store, sid), ShapeOf(s), layer, from, keys, values, n);
          if keys[n..] == [] {
            assert values[n..] == [];
            NothingToWrite(s2, cfg, sid, layer, from + n);
          }
          ExclusiveStays(s2, s', cfg, sid, keys[n..]);
          AroundShows(s, s', cfg, sid, from, |keys|);
          SpanWroteFrom(s, s', cfg, sid, layer, from, keys, values);
        }
      }
    }
  }

  lemma ExclusiveStays(s: PoolState, s': PoolState, cfg: PoolConfig, sid: nat, rest: seq<Row>)
    requires cfg.tpb > 0 && s.writable.Some? && s'.writable.Some?
    requires Exclusive(s.store, sid, 0, s.writable.value.1 / cfg.tpb, s.writable.value.2)
    requires rest == [] ==> s' == s
    requires rest != [] ==> Exclusive(s'.store, sid, 0, s'.writable.value.1 / cfg.tpb, s'.writable.value.2)
    ensures Exclusive(s'.store, sid, 0, s'.writable.value.1 / cfg.tpb, s'.writable.value.2)
  {}

  lemma CountIs(room: nat, left: nat)
    requires room > 0 && left > 0
    ensures 0 < Min(room, left) <= room && Min(room, left) <= left
  {}

  lemma PartRows(rows: seq<Row>, n: nat, size: nat)
    requires RowsOf(rows, size) && n <= |rows|
    ensures RowsOf(rows[..n], size) && RowsOf(rows[n..], size)
  {}

  lemma NothingToWrite(s: PoolState, cfg: PoolConfig, sid: nat, layer: nat, from: nat)
    requires ValidPool(s.store.pool) && cfg.tpb > 0
    ensures WriteSpan(s, cfg, sid, layer, from, [], []) == (s, true)
  {}

  lemma WriteSpanStep(s: PoolState, cfg: PoolConfig, sid: nat, layer: nat, from: nat, keys: seq<Row>, values: seq<Row>)
    requires ValidPool(s.store.pool) && cfg.tpb > 0 && |values| == |keys| > 0
    ensures var n := Min(cfg.tpb - from % cfg.tpb, |keys|);
            var (s1, frame) := WritableFrame(s, cfg, sid, from);
            && n <= |keys|
            && WriteSpan(s, cfg, sid, layer, from, keys, values) ==
               if frame.None? then (s1, false)
               else WriteSpan(StoreBlockRows(s1, frame.value, layer, from % cfg.tpb, keys[..n], values[..n]),
                              cfg, sid, layer, from + n, keys[n..], values[n..])
  {
    hide WritableFrame, StoreBlockRows, ValidPool;
  }
}
