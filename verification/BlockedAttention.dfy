/** The kernels that walk whole blocks: one head at a time, fused over a query group, and online. */
module BlockedAttention {
  import opened Wrappers
  import opened Vectors
  import opened Arithmetic
  import opened SwapStore
  import opened FramePool
  import opened CacheLayout
  import opened CacheViews
  import opened Softmax
  import opened AttentionSpec
  import opened PagedAttention

  // ---- Walking blocks ---------------------------------------------------------------------------------

  ghost predicate FramesOf(v: CacheView, p: Params, frames: seq<Frame>) {
    && |frames| == LogicalBlocks(v, p)
    && forall i :: 0 <= i < |frames| ==>
         && BlockFrame(v, i, TableOfLayer(v, p.layer)).Some?
         && frames[i] == v.pool.bytes[BlockFrame(v, i, TableOfLayer(v, p.layer)).value]
  }

  /** The page-table walk, hoisted out of the token loops. */
  method ResolveFrames(v: CacheView, p: Params) returns (frames: Option<seq<Frame>>)
    ensures frames.Some? <==> Resolved(v, p)
    ensures frames.Some? ==> FramesOf(v, p, frames.value)
  {
    hide BlockFrame, LogicalBlocks, TableOfLayer;
    var found: seq<Frame> := [];
    var logical := 0;
    while logical < LogicalBlocks(v, p)
      invariant logical <= LogicalBlocks(v, p) && |found| == logical
      invariant forall i :: 0 <= i < logical ==>
                  && BlockFrame(v, i, TableOfLayer(v, p.layer)).Some?
                  && found[i] == v.pool.bytes[BlockFrame(v, i, TableOfLayer(v, p.layer)).value]
    {
      var frame := BlockFrame(v, logical, TableOfLayer(v, p.layer));
      if frame.None? {
        return None;
      }
      found := found + [v.pool.bytes[frame.value]];
      logical := logical + 1;
    }
    frames := Some(found);
  }

  lemma BlockBounds(v: CacheView, p: Params, logical: nat)
    requires Shape(v).tokensPerBlock > 0
    ensures var tpb := Shape(v).tokensPerBlock;
            && (logical + 1) * tpb == logical * tpb + tpb
            && (logical < LogicalBlocks(v, p) <==> logical * tpb < p.contextLen)
  {
    CeilDivIsLeastCover(p.contextLen, Shape(v).tokensPerBlock, logical);
    assert (logical + 1) * Shape(v).tokensPerBlock == logical * Shape(v).tokensPerBlock + Shape(v).tokensPerBlock;
  }

  /** `base + *offset`, where the layout has such an element. */
  function VectorAt(s: BlockShape, frame: Frame, layer: nat, stream: KVStream, tokenInBlock: nat, head: nat): (r: Option<Row>)
    requires s.headDim > 0 && |frame| >= ElementCount(s)
  {
    match ElementOffset(s, layer, stream, tokenInBlock, head)
    case None => None
    case Some(o) =>
      OffsetFits(s, layer, stream, tokenInBlock, head);
      Some(frame[o..o + s.headDim])
  }

  /** Inside block `logical` the walk reads exactly the token's vector. */
  lemma VectorAtIs(v: CacheView, p: Params, frames: seq<Frame>, stream: KVStream, logical: nat, token: nat, head: nat)
    requires ValidView(v) && WellSized(v) && FramesOf(v, p, frames) && Resolved(v, p)
    requires head < Shape(v).numKvHeads && token < p.contextLen && logical < |frames|
    requires logical * Shape(v).tokensPerBlock <= token < logical * Shape(v).tokensPerBlock + Shape(v).tokensPerBlock
    ensures Shape(v).headDim > 0 && |frames[logical]| >= ElementCount(Shape(v))
    ensures VectorAt(Shape(v), frames[logical], OffsetLayer(v, p.layer), stream, token - logical * Shape(v).tokensPerBlock, head)
         == if Stored(v, p) then Some(KVRow(v, p, stream, token, head)) else None
  {
    hide ElementCount, BlockFrame, LogicalBlocks;
    ShapePositive(v);
    var tpb := Shape(v).tokensPerBlock;
    Digit(logical, token - logical * tpb, tpb);
    TokenInBlocks(v, p, token);
    assert token / tpb == logical && token % tpb == token - logical * tpb;
    if Stored(v, p) {
      KVRowIs(v, p, stream, token, head);
    }
  }

  lemma KVRowIs(v: CacheView, p: Params, stream: KVStream, token: nat, head: nat)
    requires ValidView(v) && WellSized(v) && Stored(v, p) && Resolved(v, p)
    requires token < p.contextLen && head < Shape(v).numKvHeads
    ensures Shape(v).tokensPerBlock > 0 && Shape(v).headDim > 0
    ensures BlockFrame(v, token / Shape(v).tokensPerBlock, TableOfLayer(v, p.layer)).Some?
    ensures KVRow(v, p, stream, token, head)
         == VectorIn(Shape(v), v.pool.bytes[BlockFrame(v, token / Shape(v).tokensPerBlock, TableOfLayer(v, p.layer)).value],
                     OffsetLayer(v, p.layer), stream, token % Shape(v).tokensPerBlock, head)
  {
    ShapePositive(v);
    TokenInBlocks(v, p, token);
  }

  lemma OneMoreScore(q: Row, keys: seq<Row>, scale: real, n: nat)
    requires Rows(keys, |q|) && n < |keys|
    ensures ScoresOf(q, keys[..n + 1], scale) == ScoresOf(q, keys[..n], scale) + [ScoreOf(q, keys[n], scale)]
    ensures keys[..n + 1] == keys[..n] + [keys[n]]
  {
    hide ScoreOf;
  }

  lemma AllScores(q: Row, keys: seq<Row>, scale: real)
    requires Rows(keys, |q|)
    ensures keys[..|keys|] == keys && ScoresOf(q, keys[..0], scale) == [] && keys[..0] == []
  {}

  /** The numbers of one walk: where block `logical` begins and ends. */
  method Bounds(v: CacheView, p: Params, logical: nat) returns (begin: nat, end: nat)
    requires Shape(v).tokensPerBlock > 0 && logical < LogicalBlocks(v, p)
    ensures begin == logical * Shape(v).tokensPerBlock < p.contextLen
    ensures begin < end <= begin + Shape(v).tokensPerBlock
    ensures end == if begin + Shape(v).tokensPerBlock <= p.contextLen then begin + Shape(v).tokensPerBlock else p.contextLen
    ensures (logical + 1) * Shape(v).tokensPerBlock == begin + Shape(v).tokensPerBlock
    ensures logical + 1 == LogicalBlocks(v, p) ==> end == p.contextLen
    ensures logical + 1 < LogicalBlocks(v, p) ==> end == begin + Shape(v).tokensPerBlock
  {
    BlockBounds(v, p, logical);
    BlockBounds(v, p, logical + 1);
    begin := logical * Shape(v).tokensPerBlock;
    end := if begin + Shape(v).tokensPerBlock <= p.contextLen then begin + Shape(v).tokensPerBlock else p.contextLen;
  }

  // ---- One head at a time --------------------------------------------------------------------------------

  method ScoreBlocks(v: CacheView, p: Params, frames: seq<Frame>, head: nat, q: Row)
    returns (ok: bool, scores: seq<real>, max: Score)
    requires ValidView(v) && WellSized(v) && FramesOf(v, p, frames) && Resolved(v, p) && p.contextLen > 0
    requires head < Shape(v).numKvHeads && |q| == Shape(v).headDim
    ensures ok <==> Stored(v, p)
    ensures ok ==> scores == ScoresOf(q, HeadRows(v, p, Key, head), p.scale) && max == MaxOf(scores)
  {
    hide ElementCount, WellSized, FramesOf, Resolved, Stored, BlockFrame, LogicalBlocks, VectorAt, ScoresOf, MaxOf;
    ok, scores, max := true, [], NegInf;
    ShapePositive(v);
    FrameCount(v, p, frames);
    BlockBounds(v, p, 0);
    EmptyScores();
    ghost var keys := if Stored(v, p) then HeadRows(v, p, Key, head) else [];
    if Stored(v, p) {
      AllScores(q, keys, p.scale);
    }
    var token := 0;
    var logical := 0;
    while logical < |frames|
      invariant logical <= |frames| && token <= p.contextLen
      invariant token == (if logical < |frames| then logical * Shape(v).tokensPerBlock else p.contextLen)
      invariant logical > 0 ==> Stored(v, p)
      invariant Stored(v, p) ==> scores == ScoresOf(q, keys[..token], p.scale) && max == MaxOf(scores)
    {
      var begin, end := Bounds(v, p, logical);
      while token < end
        invariant begin <= token <= end && (token > begin ==> Stored(v, p))
        invariant Stored(v, p) ==> scores == ScoresOf(q, keys[..token], p.scale) && max == MaxOf(scores)
      {
        VectorAtIs(v, p, frames, Key, logical, token, head);
        var key := VectorAt(Shape(v), frames[logical], OffsetLayer(v, p.layer), Key, token - begin, head);
        if key.None? {
          ok := false;
          return;
        }
        var dot := DotHead(q, key.value);
        var score := dot * p.scale;
        assert score == ScoreOf(q, key.value, p.scale);
        OneMoreScore(q, keys, p.scale, token);
        AppendMax(scores, score);
        scores := scores + [score];
        max := MaxScore(max, Fin(score));
        token := token + 1;
      }
      logical := logical + 1;
    }
  }

  lemma FrameCount(v: CacheView, p: Params, frames: seq<Frame>)
    requires FramesOf(v, p, frames)
    ensures |frames| == LogicalBlocks(v, p)
    ensures p.contextLen > 0 && Shape(v).tokensPerBlock > 0 ==> |frames| > 0
  {
    if Shape(v).tokensPerBlock > 0 {
      BlockBounds(v, p, 0);
    }
  }

  lemma EmptyScores()
    ensures MaxOf([]) == NegInf
  {}

  method WeighBlocks(v: CacheView, p: Params, frames: seq<Frame>, head: nat, e: Exp, scores: seq<real>, max: Score)
    returns (denominator: real, accumulator: Row)
    requires ValidView(v) && WellSized(v) && FramesOf(v, p, frames) && Resolved(v, p) && Stored(v, p)
    requires head < Shape(v).numKvHeads && |scores| == p.contextLen > 0 && max == MaxOf(scores)
    ensures StandsFor(e, State(max, denominator, accumulator), scores, HeadRows(v, p, Value, head), Shape(v).headDim)
  {
    hide *;
    ghost var values := HeadRows(v, p, Value, head);
    var dim := Shape(v).headDim;
    MaxOfFinite(scores);
    accumulator := Zeros(dim);
    denominator := 0.0;
    NothingWeighed(e, scores, values, dim, max.r);
    ShapePositive(v);
    FrameCount(v, p, frames);
    BlockBounds(v, p, 0);
    var token := 0;
    var logical := 0;
    while logical < |frames|
      invariant logical <= |frames| && token <= p.contextLen
      invariant token == (if logical < |frames| then logical * Shape(v).tokensPerBlock else p.contextLen)
      invariant Weighed(e, scores, values, dim, token, max.r, denominator, accumulator)
    {
      var begin, end := Bounds(v, p, logical);
      while token < end
        invariant begin <= token <= end
        invariant Weighed(e, scores, values, dim, token, max.r, denominator, accumulator)
      {
        VectorAtIs(v, p, frames, Value, logical, token, head);
        var value := VectorAt(Shape(v), frames[logical], OffsetLayer(v, p.layer), Value, token - begin, head);
        var weight := ExpDiff(e, Fin(scores[token]), max);
        WeighedStep(e, scores, values, dim, token, max, denominator, accumulator);
        denominator := denominator + weight;
        accumulator := AxpyHead(accumulator, value.value, weight);
        token := token + 1;
      }
      logical := logical + 1;
    }
    WeighedStands(e, scores, values, dim, max, denominator, accumulator);
  }

  /** `paged_attention_decode_blocked`. */
  method DecodeBlocked(v: CacheView, eb: nat, query: seq<real>, p: Params, e: Exp, out: array<real>) returns (ok: bool)
    requires ExpLaws(e) && WellSized(v)
    requires |query| == out.Length == p.numQueryHeads * Shape(v).headDim
    modifies out
    ensures ok <==> CanAttend(v, eb, p)
    ensures ok ==> out[..] == Output(v, eb, p, e, query, p.numQueryHeads)
    ensures !ok ==> out[..] == old(out[..])
  {
    hide ExpLaws, WellSized, ElementCount, Stored, Resolved, HeadOutput, Attended, Output, FramesOf, Divided, QueryRow, HeadRows, ScoresOf, Rows, MaxOf;
    if !ArgsOk(v, eb, p) {
      return false;
    }
    ShapePositive(v);
    var headDim, groupSize := Shape(v).headDim, GroupSize(v, p);
    var frames := ResolveFrames(v, p);
    if frames.None? {
      return false;
    }
    var qHead := 0;
    while qHead < p.numQueryHeads
      invariant qHead <= p.numQueryHeads && qHead * headDim <= out.Length
      invariant qHead == 0 ==> out[..] == old(out[..])
      invariant qHead > 0 ==> Stored(v, p) && out[..qHead * headDim] == Output(v, eb, p, e, query, qHead)
    {
      HeadInGroup(v, eb, p, qHead);
      RowFits(qHead, p.numQueryHeads, headDim);
      var kvHead := qHead / groupSize;
      var q := QueryRow(query, headDim, qHead);
      var found, scores, max := ScoreBlocks(v, p, frames.value, kvHead, q);
      if !found {
        return false;
      }
      NoRowsYet(v, eb, p, e, query);
      var denominator, accumulator := WeighBlocks(v, p, frames.value, kvHead, e, scores, max);
      DividedIsAttended(e, State(max, denominator, accumulator), q, HeadRows(v, p, Key, kvHead), HeadRows(v, p, Value, kvHead), p.scale);
      HeadOutputIs(v, eb, p, e, query, qHead);
      ghost var before := out[..];
      WriteRow(out, qHead * headDim, accumulator, denominator);
      RowJoins(v, eb, p, e, query, qHead, qHead * headDim, before, out[..], Divided(accumulator, denominator));
      qHead := qHead + 1;
    }
    ok := true;
  }
}
