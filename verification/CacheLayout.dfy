/** Element addressing inside one frame, and frame addressing inside the pool. */
module CacheLayout {
  import opened Wrappers
  import opened Arithmetic
  import opened FramePool

  datatype KVStream = Key | Value

  function StreamIndex(stream: KVStream): nat { if stream.Key? then 0 else 1 }

  function HeadStride(s: BlockShape): nat { s.headDim }

  function TokenStride(s: BlockShape): nat { s.numKvHeads * HeadStride(s) }

  function StreamStride(s: BlockShape): nat { s.tokensPerBlock * TokenStride(s) }

  function LayerStride(s: BlockShape): nat { 2 * StreamStride(s) }

  function ElementCount(s: BlockShape): nat { s.FrameLayers() * LayerStride(s) }

  function ElementOffset(s: BlockShape, layer: nat, stream: KVStream, token: nat, head: nat): Option<nat> {
    if layer >= s.FrameLayers() || token >= s.tokensPerBlock || head >= s.numKvHeads then None
    else Some(layer * LayerStride(s) + StreamIndex(stream) * StreamStride(s) + token * TokenStride(s) + head * HeadStride(s))
  }

  /** One element of a frame, by meaning. */
  datatype Coordinate = Coordinate(layer: nat, stream: KVStream, token: nat, head: nat, dim: nat)

  predicate InShape(s: BlockShape, c: Coordinate) {
    c.layer < s.FrameLayers() && c.token < s.tokensPerBlock && c.head < s.numKvHeads && c.dim < s.headDim
  }

  function Address(s: BlockShape, c: Coordinate): nat
    requires InShape(s, c)
  {
    ElementOffset(s, c.layer, c.stream, c.token, c.head).value + c.dim
  }

  /** Reads an address back: the strides are a mixed-radix numeral, head dimension innermost. */
  function CoordinateOf(s: BlockShape, e: nat): Coordinate
    requires s.headDim > 0 && s.numKvHeads > 0 && s.tokensPerBlock > 0
  {
    var head := e / s.headDim;
    var token := head / s.numKvHeads;
    var stream := token / s.tokensPerBlock;
    Coordinate(stream / 2, if stream % 2 == 0 then Key else Value, token % s.tokensPerBlock, head % s.numKvHeads, e % s.headDim)
  }

  lemma Digit(q: nat, r: nat, k: nat)
    requires r < k
    ensures (q * k + r) / k == q && (q * k + r) % k == r
  {
    var x := q * k + r;
    assert x == x / k * k + x % k;
    MulMonotone(x / k + 1, q, k);
    MulMonotone(q + 1, x / k, k);
    assert (x / k + 1) * k == x / k * k + k && (q + 1) * k == q * k + k;
  }

  lemma DigitsBelow(q: nat, r: nat, k: nat, n: nat)
    requires r < k && q < n
    ensures q * k + r < n * k
  {
    MulMonotone(q + 1, n, k);
    assert (q + 1) * k == q * k + k;
  }

  function Horner(s: BlockShape, c: Coordinate): nat {
    (((c.layer * 2 + StreamIndex(c.stream)) * s.tokensPerBlock + c.token) * s.numKvHeads + c.head) * s.headDim + c.dim
  }

  /** The sum of strides is the nested numeral. */
  lemma StridesAreDigits(s: BlockShape, c: Coordinate)
    requires InShape(s, c)
    ensures Address(s, c) == Horner(s, c)
  {
    var i, t, h, d := StreamIndex(c.stream), s.tokensPerBlock, s.numKvHeads, s.headDim;
    var a := c.layer * 2 + i;
    Distribute(a * t + c.token, c.head, h, d);
    Distribute(a, c.token, t, h * d);
    Distribute3(a, t, h, d);
    Distribute(c.layer * 2, i, 1, t * (h * d));
    assert c.layer * (2 * (t * (h * d))) == c.layer * 2 * (t * (h * d)) by {
      Associate(c.layer, 2, t * (h * d));
    }
    assert (a * t + c.token) * h * d == (a * t + c.token) * (h * d) by {
      Associate(a * t + c.token, h, d);
    }
  }

  lemma Associate(a: nat, b: nat, c: nat)
    ensures a * b * c == a * (b * c)
  {}

  lemma Distribute(a: nat, b: nat, k: nat, m: nat)
    ensures (a * k + b) * m == a * k * m + b * m
  {}

  lemma Distribute3(a: nat, t: nat, h: nat, d: nat)
    ensures a * t * (h * d) == a * (t * (h * d))
  {
    Associate(a, t, h * d);
  }

  /**
    Main result on addressing: addresses and in-shape coordinates correspond one to one, so the
    head vectors tile the frame: every element below the element count belongs to exactly one.
   */
  lemma AddressesTileTheFrame(s: BlockShape, c: Coordinate)
    requires InShape(s, c)
    ensures Address(s, c) < ElementCount(s) && CoordinateOf(s, Address(s, c)) == c
  {
    hide *;
    InShapeShows(s, c);
    StridesAreDigits(s, c);
    NumeralReadsBack(s, c);
    NumeralFits(s, c);
    CountIsProduct(s);
  }

  lemma InShapeShows(s: BlockShape, c: Coordinate)
    requires InShape(s, c)
    ensures s.headDim > 0 && s.numKvHeads > 0 && s.tokensPerBlock > 0
  {}

  lemma CoordinateFrom(s: BlockShape, e: nat, head: nat, token: nat, stream: nat)
    requires s.headDim > 0 && s.numKvHeads > 0 && s.tokensPerBlock > 0
    requires head == e / s.headDim && token == head / s.numKvHeads && stream == token / s.tokensPerBlock
    ensures CoordinateOf(s, e)
         == Coordinate(stream / 2, if stream % 2 == 0 then Key else Value, token % s.tokensPerBlock, head % s.numKvHeads, e % s.headDim)
  {}

  lemma HornerIs(s: BlockShape, c: Coordinate, stream: nat, token: nat, head: nat)
    requires InShape(s, c)
    requires stream == c.layer * 2 + StreamIndex(c.stream) && token == stream * s.tokensPerBlock + c.token
    requires head == token * s.numKvHeads + c.head
    ensures Horner(s, c) == head * s.headDim + c.dim
    ensures c.token < s.tokensPerBlock && c.head < s.numKvHeads && c.dim < s.headDim
    ensures StreamIndex(c.stream) < 2 && c.stream == if StreamIndex(c.stream) == 0 then Key else Value
  {}

  lemma NumeralReadsBack(s: BlockShape, c: Coordinate)
    requires InShape(s, c)
    ensures CoordinateOf(s, Horner(s, c)) == c
  {
    hide *;
    InShapeShows(s, c);
    var stream := c.layer * 2 + StreamIndex(c.stream);
    var token := stream * s.tokensPerBlock + c.token;
    var head := token * s.numKvHeads + c.head;
    HornerIs(s, c, stream, token, head);
    Digit(c.layer, StreamIndex(c.stream), 2);
    Digit(stream, c.token, s.tokensPerBlock);
    Digit(token, c.head, s.numKvHeads);
    Digit(head, c.dim, s.headDim);
    CoordinateFrom(s, head * s.headDim + c.dim, head, token, stream);
  }

  lemma NumeralFits(s: BlockShape, c: Coordinate)
    requires InShape(s, c)
    ensures Horner(s, c) < s.FrameLayers() * 2 * s.tokensPerBlock * s.numKvHeads * s.headDim
  {
    var i, t, h, d := StreamIndex(c.stream), s.tokensPerBlock, s.numKvHeads, s.headDim;
    var a := c.layer * 2 + i;
    DigitsBelow(c.layer, i, 2, s.FrameLayers());
    DigitsBelow(a, c.token, t, s.FrameLayers() * 2);
    DigitsBelow(a * t + c.token, c.head, h, s.FrameLayers() * 2 * t);
    DigitsBelow((a * t + c.token) * h + c.head, c.dim, d, s.FrameLayers() * 2 * t * h);
  }

  lemma CountIsProduct(s: BlockShape)
    ensures ElementCount(s) == s.FrameLayers() * 2 * s.tokensPerBlock * s.numKvHeads * s.headDim
  {
    var l, t, h, d := s.FrameLayers(), s.tokensPerBlock, s.numKvHeads, s.headDim;
    Associate(l * 2 * t, h, d);
    Associate(l * 2, t, h * d);
    Associate(l, 2, t * (h * d));
  }

  lemma EveryElementHasACoordinate(s: BlockShape, e: nat)
    requires e < ElementCount(s)
    ensures s.headDim > 0 && s.numKvHeads > 0 && s.tokensPerBlock > 0
    ensures InShape(s, CoordinateOf(s, e)) && Address(s, CoordinateOf(s, e)) == e
  {
    CountIsProduct(s);
    PositiveFactors(s);
    var head := e / s.headDim;
    var token := head / s.numKvHeads;
    var stream := token / s.tokensPerBlock;
    DivSplits(e, s.headDim, s.FrameLayers() * 2 * s.tokensPerBlock * s.numKvHeads);
    DivSplits(head, s.numKvHeads, s.FrameLayers() * 2 * s.tokensPerBlock);
    DivSplits(token, s.tokensPerBlock, s.FrameLayers() * 2);
    StridesAreDigits(s, CoordinateOf(s, e));
  }

  lemma PositiveFactors(s: BlockShape)
    requires ElementCount(s) > 0
    ensures s.headDim > 0 && s.numKvHeads > 0 && s.tokensPerBlock > 0 && s.FrameLayers() > 0
  {}

  lemma DivSplits(x: nat, k: nat, n: nat)
    requires k > 0 && x < n * k
    ensures x == x / k * k + x % k && x / k < n
  {
    MulMonotone(n, x / k, k);
  }

  /** Different head vectors never overlap, and each lies inside the frame. */
  lemma HeadVectorsAreDisjoint(s: BlockShape, layer: nat, stream: KVStream, token: nat, head: nat,
                               layer': nat, stream': KVStream, token': nat, head': nat)
    requires s.headDim > 0
    requires ElementOffset(s, layer, stream, token, head).Some? && ElementOffset(s, layer', stream', token', head').Some?
    requires (layer, stream, token, head) != (layer', stream', token', head')
    ensures var o, o' := ElementOffset(s, layer, stream, token, head).value, ElementOffset(s, layer', stream', token', head').value;
            && o + s.headDim <= ElementCount(s) && o' + s.headDim <= ElementCount(s)
            && (o + s.headDim <= o' || o' + s.headDim <= o)
  {
    var o, o' := ElementOffset(s, layer, stream, token, head).value, ElementOffset(s, layer', stream', token', head').value;
    hide ElementOffset, ElementCount, CoordinateOf;
    AddressesTileTheFrame(s, Coordinate(layer, stream, token, head, s.headDim - 1));
    AddressesTileTheFrame(s, Coordinate(layer', stream', token', head', s.headDim - 1));
    if o <= o' < o + s.headDim {
      AddressesTileTheFrame(s, Coordinate(layer, stream, token, head, o' - o));
      AddressesTileTheFrame(s, Coordinate(layer', stream', token', head', 0));
    } else if o' <= o < o' + s.headDim {
      AddressesTileTheFrame(s, Coordinate(layer, stream, token, head, 0));
      AddressesTileTheFrame(s, Coordinate(layer', stream', token', head', o - o'));
    }
  }

  // ---- Frames inside the pool -----------------------------------------------------------------------

  datatype AllocatorConfig = AllocatorConfig(shape: BlockShape, alignment: nat, maxBlocks: nat)

  const DefaultAlignment: nat := 256

  function ByteSize(s: BlockShape): nat {
    s.tokensPerBlock * s.FrameLayers() * s.numKvHeads * s.headDim * s.bytesPerElement * 2
  }

  function RoundUp(value: nat, alignment: nat): nat {
    if alignment == 0 then value else (value + alignment - 1) / alignment * alignment
  }

  function EffectiveAlignment(c: AllocatorConfig): nat {
    if c.alignment == 0 then DefaultAlignment else c.alignment
  }

  function BlockStrideFor(c: AllocatorConfig): nat {
    var stride := RoundUp(ByteSize(c.shape), EffectiveAlignment(c));
    if stride == 0 then EffectiveAlignment(c) else stride
  }

  function PoolBytesFor(c: AllocatorConfig): nat {
    BlockStrideFor(c) * c.maxBlocks
  }

  /** A frame's bytes are its elements. */
  lemma BytesAreElements(s: BlockShape)
    ensures ByteSize(s) == ElementCount(s) * s.bytesPerElement
  {
    CountIsProduct(s);
    var l, t, h, d, b := s.FrameLayers(), s.tokensPerBlock, s.numKvHeads, s.headDim, s.bytesPerElement;
    calc {
      t * l * h * d * b * 2;
      { Swap(t, l); Associate(l * t * h * d, b, 2); }
      l * t * h * d * (2 * b);
      { Associate(l * t * h * d, 2, b); }
      l * t * h * d * 2 * b;
      { MoveTwo(l, t, h, d); }
      l * 2 * t * h * d * b;
    }
  }

  lemma Swap(a: nat, b: nat)
    ensures a * b == b * a
  {}

  lemma MoveTwo(l: nat, t: nat, h: nat, d: nat)
    ensures l * t * h * d * 2 == l * 2 * t * h * d
  {
    Associate(l, t, 2);
    Swap(t, 2);
    Associate(l, 2, t);
    SwapLast(l * t, h, 2);
    SwapLast(l * t * h, d, 2);
  }

  lemma SwapLast(a: nat, b: nat, c: nat)
    ensures a * b * c == a * c * b
  {
    Associate(a, b, c);
    Associate(a, c, b);
    Swap(b, c);
  }

  /** The stride is the least positive multiple of the alignment that holds a whole block. */
  lemma StrideIsLeast(c: AllocatorConfig, n: nat)
    ensures BlockStrideFor(c) % EffectiveAlignment(c) == 0 && BlockStrideFor(c) > 0
    ensures n > 0 && n * EffectiveAlignment(c) >= ByteSize(c.shape) <==> n * EffectiveAlignment(c) >= BlockStrideFor(c)
    ensures BlockStrideFor(c) >= ByteSize(c.shape)
  {
    hide ByteSize;
    var a, size := EffectiveAlignment(c), ByteSize(c.shape);
    var k := CeilDiv(size, a);
    assert RoundUp(size, a) == k * a;
    CeilDivIsLeastCover(size, a, n);
    CeilDivIsLeastCover(size, a, k);
    var q := if k == 0 then 1 else k;
    MulMonotone(1, k, a);
    assert k == 0 ==> k * a == 0;
    assert BlockStrideFor(c) == q * a;
    DivOfMultiple(q, a);
    MulMonotone(q, n, a);
    MulMonotone(n + 1, q, a);
    assert (n + 1) * a == n * a + a;
  }

  /** Frames are disjoint ranges inside the pool. */
  lemma FramesAreDisjoint(c: AllocatorConfig, f: nat, f': nat)
    requires f < c.maxBlocks && f' < c.maxBlocks && f != f'
    ensures var stride := BlockStrideFor(c);
            && f * stride + stride <= PoolBytesFor(c)
            && (f * stride + stride <= f' * stride || f' * stride + stride <= f * stride)
  {
    hide BlockStrideFor;
    var stride := BlockStrideFor(c);
    MulMonotone(f + 1, c.maxBlocks, stride);
    MulMonotone(f + 1, f', stride);
    MulMonotone(f' + 1, f, stride);
    assert (f + 1) * stride == f * stride + stride && (f' + 1) * stride == f' * stride + stride;
    Swap(c.maxBlocks, stride);
  }
}
