/** The read-only view an execution backend gets: page tables, frames and the layout. */
module CacheViews {
  import opened Wrappers
  import opened Arithmetic
  import opened FramePool
  import opened PageTable
  import opened CacheStore
  import opened CacheAccounting
  import opened CacheLayout
  import CacheWrites

  datatype CacheView = CacheView(tables: seq<Table>, pool: Pool)

  function EmptyShape(): BlockShape { BlockShape(0, 0, 0, 0, 0, 0) }

  function Shape(v: CacheView): BlockShape {
    if v.pool.infos == [] then EmptyShape() else v.pool.shape
  }

  predicate ValidView(v: CacheView) {
    ElementCount(Shape(v)) > 0
  }

  /** The frame behind a logical block; nothing when it is unmapped or swapped out. */
  function BlockFrame(v: CacheView, index: nat, layer: nat): (r: Option<nat>)
    ensures r.Some? ==> r.value < |v.pool.bytes|
  {
    if !ValidView(v) || layer >= |v.tables| then None
    else
      match Lookup(v.tables[layer], index)
      case None => None
      case Some(f) => if f < |v.pool.bytes| then Some(f) else None
  }

  function TableOfLayer(v: CacheView, layer: nat): nat {
    if Shape(v).PerLayerFrames() then layer else 0
  }

  function OffsetLayer(v: CacheView, layer: nat): nat {
    if Shape(v).PerLayerFrames() then 0 else layer
  }

  /** Where the head vector of one token lives: a frame and an element offset in it. */
  function Slot(v: CacheView, elementBytes: nat, stream: KVStream, layer: nat, token: nat, head: nat): (r: Option<(nat, nat)>)
    ensures r.Some? ==> r.value.0 < |v.pool.bytes|
  {
    if !ValidView(v) || elementBytes != Shape(v).bytesPerElement then None
    else if Shape(v).PerLayerFrames() && layer >= |v.tables| then None
    else
      var tpb := Shape(v).tokensPerBlock;
      if tpb == 0 then None
      else
        match ElementOffset(Shape(v), OffsetLayer(v, layer), stream, token % tpb, head)
        case None => None
        case Some(offset) =>
          match BlockFrame(v, token / tpb, TableOfLayer(v, layer))
          case None => None
          case Some(f) => Some((f, offset))
  }

  /** The first byte of a slot, counted from the start of the pool. */
  function SlotByte(c: AllocatorConfig, slot: (nat, nat)): nat {
    slot.0 * BlockStrideFor(c) + slot.1 * c.shape.bytesPerElement
  }

  function SlotBytes(s: BlockShape): nat { s.headDim * s.bytesPerElement }

  lemma SlotIs(v: CacheView, eb: nat, stream: KVStream, layer: nat, token: nat, head: nat)
    requires Slot(v, eb, stream, layer, token, head).Some?
    ensures ValidView(v) && Shape(v).tokensPerBlock > 0 && Shape(v).headDim > 0
    ensures var (f, o) := Slot(v, eb, stream, layer, token, head).value;
            var tpb, t := Shape(v).tokensPerBlock, TableOfLayer(v, layer);
            && ElementOffset(Shape(v), OffsetLayer(v, layer), stream, token % tpb, head) == Some(o)
            && t < |v.tables| && Lookup(v.tables[t], token / tpb) == Some(f) && f < |v.pool.bytes|
  {}

  /** A dense table finds a block at its own index. */
  lemma DenseLookup(t: Table, index: nat)
    requires Dense(t) && Lookup(t, index).Some?
    ensures index < |t| && t[index].slot.None? && Lookup(t, index) == Some(t[index].physical)
  {
    DenseLowerBound(t, index);
  }

  /**
    Main result on slots: through an injective table and the aligned stride, distinct head
    vectors of one sequence occupy disjoint byte ranges inside the pool.
   */
  lemma SlotsAreDisjoint(v: CacheView, c: AllocatorConfig, eb: nat,
                         stream: KVStream, layer: nat, token: nat, head: nat,
                         stream': KVStream, layer': nat, token': nat, head': nat)
    requires c.shape == v.pool.shape && c.maxBlocks == |v.pool.bytes| == |v.pool.infos|
    requires forall l :: 0 <= l < |v.tables| ==> Dense(v.tables[l])
    requires NoRepeats(Flat(v.tables))
    requires Slot(v, eb, stream, layer, token, head).Some? && Slot(v, eb, stream', layer', token', head').Some?
    requires (stream, layer, token, head) != (stream', layer', token', head')
    ensures var a, a' := Slot(v, eb, stream, layer, token, head).value, Slot(v, eb, stream', layer', token', head').value;
            var n := SlotBytes(c.shape);
            && SlotByte(c, a) + n <= PoolBytesFor(c)
            && (SlotByte(c, a) + n <= SlotByte(c, a') || SlotByte(c, a') + n <= SlotByte(c, a))
  {
    hide *;
    SlotIs(v, eb, stream, layer, token, head);
    SlotIs(v, eb, stream', layer', token', head');
    ShapeOf(v);
    var a, a' := Slot(v, eb, stream, layer, token, head).value, Slot(v, eb, stream', layer', token', head').value;
    SlotInFrame(c, a, OffsetLayer(v, layer), stream, token % c.shape.tokensPerBlock, head);
    SlotInFrame(c, a', OffsetLayer(v, layer'), stream', token' % c.shape.tokensPerBlock, head');
    if a.0 != a'.0 {
      FramesAreDisjoint(c, a.0, a'.0);
    } else {
      OtherPlace(v, eb, stream, layer, token, head, stream', layer', token', head');
      SameFrameDisjoint(c, a, a', OffsetLayer(v, layer), stream, token % c.shape.tokensPerBlock, head,
                        OffsetLayer(v, layer'), stream', token' % c.shape.tokensPerBlock, head');
    }
  }

  lemma ShapeOf(v: CacheView)
    requires ValidView(v)
    ensures v.pool.infos != [] && Shape(v) == v.pool.shape
  {}

  lemma SameWhere(e: Entry, e': Entry)
    requires e.slot.None? && e'.slot.None? && e.physical == e'.physical
    ensures Where(e) == Where(e')
  {}

  lemma SameNumeral(a: nat, a': nat, k: nat)
    requires k > 0 && a / k == a' / k
    ensures a % k == a' % k ==> a == a'
  {
    assert a == a / k * k + a % k && a' == a' / k * k + a' % k;
  }

  lemma SameTableSameLayer(v: CacheView, layer: nat, layer': nat)
    ensures TableOfLayer(v, layer) == TableOfLayer(v, layer') && OffsetLayer(v, layer) == OffsetLayer(v, layer') ==> layer == layer'
  {}

  /** Distinct coordinates differ in the frame or in the place within it. */
  lemma OtherPlace(v: CacheView, eb: nat, stream: KVStream, layer: nat, token: nat, head: nat,
                   stream': KVStream, layer': nat, token': nat, head': nat)
    requires forall l :: 0 <= l < |v.tables| ==> Dense(v.tables[l])
    requires NoRepeats(Flat(v.tables))
    requires Slot(v, eb, stream, layer, token, head).Some? && Slot(v, eb, stream', layer', token', head').Some?
    requires (stream, layer, token, head) != (stream', layer', token', head')
    requires Slot(v, eb, stream, layer, token, head).value.0 == Slot(v, eb, stream', layer', token', head').value.0
    ensures Shape(v).tokensPerBlock > 0
    ensures (OffsetLayer(v, layer), stream, token % Shape(v).tokensPerBlock, head)
         != (OffsetLayer(v, layer'), stream', token' % Shape(v).tokensPerBlock, head')
  {
    hide *;
    SlotIs(v, eb, stream, layer, token, head);
    SlotIs(v, eb, stream', layer', token', head');
    var tpb := Shape(v).tokensPerBlock;
    var t, t' := TableOfLayer(v, layer), TableOfLayer(v, layer');
    var b, b' := token / tpb, token' / tpb;
    DenseLookup(v.tables[t], b);
    DenseLookup(v.tables[t'], b');
    if (t, b) != (t', b') {
      CacheWrites.PositionsDiffer(v.tables, t, b, t', b');
      SameWhere(v.tables[t][b], v.tables[t'][b']);
    } else {
      SameNumeral(token, token', tpb);
      SameTableSameLayer(v, layer, layer');
    }
  }

  lemma SlotInFrame(c: AllocatorConfig, a: (nat, nat), layer: nat, stream: KVStream, token: nat, head: nat)
    requires ElementOffset(c.shape, layer, stream, token, head) == Some(a.1) && c.shape.headDim > 0 && a.0 < c.maxBlocks
    ensures a.1 * c.shape.bytesPerElement + SlotBytes(c.shape) <= BlockStrideFor(c)
    ensures SlotByte(c, a) + SlotBytes(c.shape) <= PoolBytesFor(c)
    ensures a.0 * BlockStrideFor(c) <= SlotByte(c, a) && SlotByte(c, a) + SlotBytes(c.shape) <= a.0 * BlockStrideFor(c) + BlockStrideFor(c)
  {
    hide *;
    var s := c.shape;
    OffsetFits(s, layer, stream, token, head);
    BytesAreElements(s);
    StrideIsLeast(c, 1);
    BytesFit(a.1, s.headDim, ElementCount(s), s.bytesPerElement, BlockStrideFor(c));
    FramesFit(a.0, c.maxBlocks, BlockStrideFor(c));
    SlotNumbers(c, a);
  }

  lemma OffsetFits(s: BlockShape, layer: nat, stream: KVStream, token: nat, head: nat)
    requires s.headDim > 0 && ElementOffset(s, layer, stream, token, head).Some?
    ensures ElementOffset(s, layer, stream, token, head).value + s.headDim <= ElementCount(s)
  {
    AddressesTileTheFrame(s, Coordinate(layer, stream, token, head, s.headDim - 1));
    hide ElementOffset, ElementCount;
  }

  lemma SlotNumbers(c: AllocatorConfig, a: (nat, nat))
    ensures SlotByte(c, a) == a.0 * BlockStrideFor(c) + a.1 * c.shape.bytesPerElement
    ensures SlotBytes(c.shape) == c.shape.headDim * c.shape.bytesPerElement
    ensures PoolBytesFor(c) == BlockStrideFor(c) * c.maxBlocks
  {
    hide BlockStrideFor;
  }

  lemma BytesFit(o: nat, d: nat, n: nat, b: nat, stride: nat)
    requires o + d <= n && n * b <= stride
    ensures o * b + d * b <= stride
  {
    MulMonotone(o + d, n, b);
    assert (o + d) * b == o * b + d * b;
  }

  lemma FramesFit(f: nat, n: nat, stride: nat)
    requires f < n
    ensures f * stride + stride <= stride * n
  {
    MulMonotone(f + 1, n, stride);
    assert (f + 1) * stride == f * stride + stride;
  }

  lemma SameFrameDisjoint(c: AllocatorConfig, a: (nat, nat), a': (nat, nat),
                          layer: nat, stream: KVStream, token: nat, head: nat,
                          layer': nat, stream': KVStream, token': nat, head': nat)
    requires a.0 == a'.0 && c.shape.headDim > 0
    requires ElementOffset(c.shape, layer, stream, token, head) == Some(a.1)
    requires ElementOffset(c.shape, layer', stream', token', head') == Some(a'.1)
    requires (layer, stream, token, head) != (layer', stream', token', head')
    ensures SlotByte(c, a) + SlotBytes(c.shape) <= SlotByte(c, a') || SlotByte(c, a') + SlotBytes(c.shape) <= SlotByte(c, a)
  {
    hide *;
    HeadVectorsAreDisjoint(c.shape, layer, stream, token, head, layer', stream', token', head');
    SlotNumbers(c, a);
    SlotNumbers(c, a');
    var d, b := c.shape.headDim, c.shape.bytesPerElement;
    BytesApart(a.1, a'.1, d, b);
    BytesApart(a'.1, a.1, d, b);
  }

  lemma BytesApart(o: nat, o': nat, d: nat, b: nat)
    ensures o + d <= o' ==> o * b + d * b <= o' * b
  {
    MulMonotone(o + d, o', b);
    assert (o + d) * b == o * b + d * b;
  }
}
