/** The CPU decode kernels, loop by loop, each proved to compute the attention of the flat cache. */
module PagedAttention {
  import opened Vectors
  import opened Arithmetic
  import opened CacheLayout
  import opened CacheViews
  import opened Softmax
  import opened AttentionSpec

  // ---- Row operations -------------------------------------------------------------------------------

  method DotHead(query: Row, key: Row) returns (dot: real)
    requires |query| == |key|
    ensures dot == Dot(query, key)
  {
    dot := 0.0;
    var dim := 0;
    while dim < |query|
      invariant dim <= |query| && dot == Dot(query[..dim], key[..dim])
    {
      assert query[..dim + 1][..dim] == query[..dim] && key[..dim + 1][..dim] == key[..dim];
      dot := dot + query[dim] * key[dim];
      dim := dim + 1;
    }
    assert query[..dim] == query && key[..dim] == key;
  }

  method AxpyHead(accumulator: Row, value: Row, weight: real) returns (row: Row)
    requires |value| == |accumulator|
    ensures row == Axpy(accumulator, value, weight)
  {
    row := accumulator;
    var dim := 0;
    while dim < |value|
      invariant dim <= |value| && |row| == |accumulator|
      invariant forall d :: 0 <= d < dim ==> row[d] == Axpy(accumulator, value, weight)[d]
      invariant forall d :: dim <= d < |row| ==> row[d] == accumulator[d]
    {
      row := row[dim := row[dim] + weight * value[dim]];
      dim := dim + 1;
    }
  }

  method ScaleHead(accumulator: Row, scale: real) returns (row: Row)
    ensures row == Scaled(accumulator, scale)
  {
    row := accumulator;
    var dim := 0;
    while dim < |row|
      invariant dim <= |row| == |accumulator|
      invariant forall d :: 0 <= d < dim ==> row[d] == Scaled(accumulator, scale)[d]
      invariant forall d :: dim <= d < |row| ==> row[d] == accumulator[d]
    {
      row := row[dim := row[dim] * scale];
      dim := dim + 1;
    }
  }

  /** Writes one normalised output row; everything else in `out` stays. */
  method WriteRow(out: array<real>, base: nat, accumulator: Row, denominator: real)
    requires base + |accumulator| <= out.Length && denominator != 0.0
    modifies out
    ensures out[..] == old(out[..base]) + Divided(accumulator, denominator) + old(out[base + |accumulator|..])
  {
    var dim := 0;
    while dim < |accumulator|
      invariant dim <= |accumulator|
      invariant forall k :: 0 <= k < base ==> out[k] == old(out[k])
      invariant forall k :: base + dim <= k < out.Length ==> out[k] == old(out[k])
      invariant forall d :: 0 <= d < dim ==> out[base + d] == accumulator[d] / denominator
    {
      out[base + dim] := accumulator[dim] / denominator;
      dim := dim + 1;
    }
    assert out[..base] == old(out[..base]);
    assert out[base + dim..] == old(out[base + dim..]);
    assert out[base..base + dim] == Divided(accumulator, denominator);
    assert out[..] == out[..base] + out[base..base + dim] + out[base + dim..];
  }

  function Divided(row: Row, sum: real): Row
    requires sum != 0.0
  {
    seq(|row|, d requires 0 <= d < |row| => row[d] / sum)
  }

  /** A state that stands for a query's tokens divides out to its attention. */
  lemma DividedIsAttended(e: Exp, st: State, q: Row, keys: seq<Row>, values: seq<Row>, scale: real)
    requires ExpLaws(e) && Rows(keys, |q|) && Rows(values, |q|) && |values| == |keys| > 0
    requires StandsFor(e, st, ScoresOf(q, keys, scale), values, |q|)
    ensures st.sum > 0.0 && Divided(st.acc, st.sum) == Attended(e, q, keys, values, scale)
  {
    hide ExpLaws, Weights, Weighted;
    var scores := ScoresOf(q, keys, scale);
    WeightsPositive(e, scores, st.max.r);
    forall d | 0 <= d < |q|
      ensures st.sum > 0.0 && st.acc[d] / st.sum == Attended(e, q, keys, values, scale)[d]
    {
      StateGivesAttention(e, st, scores, values, |q|, d);
    }
  }

  /** Output so far grows by one row at the right place. */
  lemma RowJoins(v: CacheView, eb: nat, p: Params, e: Exp, query: seq<real>, h: nat, at: nat, before: seq<real>, after: seq<real>, row: Row)
    requires ExpLaws(e) && WellSized(v) && CanAttend(v, eb, p) && h < p.numQueryHeads
    requires |query| == p.numQueryHeads * Shape(v).headDim && at == h * Shape(v).headDim
    requires at + |row| <= |before| && after == before[..at] + row + before[at + |row|..]
    requires before[..at] == Output(v, eb, p, e, query, h) && row == HeadOutput(v, eb, p, e, query, h)
    ensures at + |row| == (h + 1) * Shape(v).headDim && after[..at + |row|] == Output(v, eb, p, e, query, h + 1)
  {
    hide HeadOutput, ExpLaws, CanAttend, WellSized;
    MulAdd(h, 1, Shape(v).headDim);
  }

  // ---- The reference kernel ---------------------------------------------------------------------------

  /** The block of a token is mapped and resident. */
  ghost predicate TokenReady(v: CacheView, p: Params, token: nat) {
    Shape(v).tokensPerBlock > 0 && BlockFrame(v, token / Shape(v).tokensPerBlock, TableOfLayer(v, p.layer)).Some?
  }

  /** The vector of one token whose own block is resident. */
  ghost function TokenRow(v: CacheView, p: Params, stream: KVStream, token: nat, head: nat): (r: Row)
    requires ValidView(v) && WellSized(v) && Stored(v, p) && head < Shape(v).numKvHeads && TokenReady(v, p, token)
    ensures |r| == Shape(v).headDim
  {
    ShapePositive(v);
    var f := BlockFrame(v, token / Shape(v).tokensPerBlock, TableOfLayer(v, p.layer)).value;
    VectorIn(Shape(v), v.pool.bytes[f], OffsetLayer(v, p.layer), stream, token % Shape(v).tokensPerBlock, head)
  }

  lemma SlotResolves(v: CacheView, eb: nat, p: Params, stream: KVStream, token: nat, head: nat)
    requires ArgsOk(v, eb, p) && WellSized(v) && head < Shape(v).numKvHeads
    ensures var slot := Slot(v, eb, stream, p.layer, token, head);
            && (slot.Some? <==> Stored(v, p) && TokenReady(v, p, token))
            && (slot.Some? ==>
                  var (f, o) := slot.value;
                  && f < |v.pool.bytes| && o + Shape(v).headDim <= |v.pool.bytes[f]|
                  && v.pool.bytes[f][o..o + Shape(v).headDim] == TokenRow(v, p, stream, token, head))
  {
    hide ElementCount;
    ShapePositive(v);
    if Stored(v, p) {
      OffsetFits(Shape(v), OffsetLayer(v, p.layer), stream, token % Shape(v).tokensPerBlock, head);
    }
  }

  lemma ResolvedReady(v: CacheView, p: Params, token: nat)
    requires Shape(v).tokensPerBlock > 0 && Resolved(v, p) && token < p.contextLen
    ensures TokenReady(v, p, token)
  {
    TokenInBlocks(v, p, token);
  }

  /** Every block below the context length holds some token below it. */
  lemma TokensCoverBlocks(v: CacheView, p: Params)
    requires Shape(v).tokensPerBlock > 0
    requires forall t :: 0 <= t < p.contextLen ==> TokenReady(v, p, t)
    ensures Resolved(v, p)
  {
    var tpb := Shape(v).tokensPerBlock;
    forall i | 0 <= i < LogicalBlocks(v, p)
      ensures BlockFrame(v, i, TableOfLayer(v, p.layer)).Some?
    {
      CeilDivIsLeastCover(p.contextLen, tpb, i);
      DivOfMultiple(i, tpb);
      assert TokenReady(v, p, i * tpb);
    }
  }

  lemma RowsAreResolved(v: CacheView, p: Params, stream: KVStream, head: nat, rows: seq<Row>)
    requires ValidView(v) && WellSized(v) && Stored(v, p) && head < Shape(v).numKvHeads && Resolved(v, p)
    requires |rows| == p.contextLen
    requires forall t :: 0 <= t < |rows| ==> TokenReady(v, p, t) && rows[t] == TokenRow(v, p, stream, t, head)
    ensures rows == HeadRows(v, p, stream, head)
  {
    hide ElementCount, VectorIn, BlockFrame;
    ShapePositive(v);
    forall t | 0 <= t < p.contextLen
      ensures rows[t] == KVRow(v, p, stream, t, head)
    {
      TokenInBlocks(v, p, t);
    }
  }

  /** Resolves the key and value vectors of one kv head for the whole context. */
  method ResolveHead(v: CacheView, eb: nat, p: Params, head: nat) returns (ok: bool, keys: seq<Row>, values: seq<Row>)
    requires ArgsOk(v, eb, p) && WellSized(v) && head < Shape(v).numKvHeads
    ensures ok <==> Stored(v, p) && Resolved(v, p)
    ensures ok ==> keys == HeadRows(v, p, Key, head) && values == HeadRows(v, p, Value, head)
  {
    hide ElementCount, WellSized, Slot, TokenRow, TokenReady, Stored, Resolved, HeadRows;
    ok, keys, values := true, [], [];
    ShapePositive(v);
    var token := 0;
    while token < p.contextLen
      invariant token <= p.contextLen && |keys| == |values| == token
      invariant token > 0 ==> Stored(v, p)
      invariant forall t :: 0 <= t < token ==> TokenReady(v, p, t)
      invariant forall t :: 0 <= t < token ==> keys[t] == TokenRow(v, p, Key, t, head)
      invariant forall t :: 0 <= t < token ==> values[t] == TokenRow(v, p, Value, t, head)
    {
      var key := Slot(v, eb, Key, p.layer, token, head);
      var value := Slot(v, eb, Value, p.layer, token, head);
      SlotResolves(v, eb, p, Key, token, head);
      SlotResolves(v, eb, p, Value, token, head);
      if key.None? || value.None? {
        if Resolved(v, p) {
          ResolvedReady(v, p, token);
        }
        ok := false;
        return;
      }
      var dim := Shape(v).headDim;
      keys := keys + [v.pool.bytes[key.value.0][key.value.1..key.value.1 + dim]];
      values := values + [v.pool.bytes[value.value.0][value.value.1..value.value.1 + dim]];
      token := token + 1;
    }
    TokensCoverBlocks(v, p);
    RowsAreResolved(v, p, Key, head, keys);
    RowsAreResolved(v, p, Value, head, values);
  }

  /** First pass: scores and their maximum. */
  method ScoreTokens(q: Row, keys: seq<Row>, scale: real) returns (scores: seq<real>, max: Score)
    requires Rows(keys, |q|)
    ensures scores == ScoresOf(q, keys, scale) && max == MaxOf(scores)
  {
    scores, max := [], NegInf;
    var token := 0;
    while token < |keys|
      invariant token <= |keys| && |scores| == token && max == MaxOf(scores)
      invariant forall t :: 0 <= t < token ==> scores[t] == ScoresOf(q, keys, scale)[t]
    {
      var dot := DotHead(q, keys[token]);
      AppendMax(scores, dot * scale);
      scores := scores + [dot * scale];
      max := MaxScore(max, Fin(dot * scale));
      token := token + 1;
    }
  }

  /** Second pass: weights relative to the maximum. */
  method WeighTokens(e: Exp, scores: seq<real>, max: Score, values: seq<Row>, dim: nat) returns (denominator: real, accumulator: Row)
    requires |values| == |scores| > 0 && Rows(values, dim) && max == MaxOf(scores)
    ensures StandsFor(e, State(max, denominator, accumulator), scores, values, dim)
  {
    hide MaxOf, Weighed, StandsFor, ExpDiff, Axpy;
    MaxOfFinite(scores);
    accumulator := Zeros(dim);
    denominator := 0.0;
    NothingWeighed(e, scores, values, dim, max.r);
    var token := 0;
    while token < |scores|
      invariant token <= |scores|
      invariant Weighed(e, scores, values, dim, token, max.r, denominator, accumulator)
    {
      var weight := ExpDiff(e, Fin(scores[token]), max);
      WeighedStep(e, scores, values, dim, token, max, denominator, accumulator);
      denominator := denominator + weight;
      accumulator := AxpyHead(accumulator, values[token], weight);
      token := token + 1;
    }
    WeighedStands(e, scores, values, dim, max, denominator, accumulator);
  }

  /** `paged_attention_decode`: everything is resolved before anything is written. */
  method Decode(v: CacheView, eb: nat, query: seq<real>, p: Params, e: Exp, out: array<real>) returns (ok: bool)
    requires ExpLaws(e) && WellSized(v)
    requires |query| == out.Length == p.numQueryHeads * Shape(v).headDim
    modifies out
    ensures ok <==> CanAttend(v, eb, p)
    ensures ok ==> out[..] == Output(v, eb, p, e, query, p.numQueryHeads)
    ensures !ok ==> out[..] == old(out[..])
  {
    hide ExpLaws, WellSized, ElementCount, Stored, Resolved, HeadOutput, Attended, Output;
    if !ArgsOk(v, eb, p) {
      return false;
    }
    ShapePositive(v);
    var headDim, kvHeads := Shape(v).headDim, Shape(v).numKvHeads;
    var groupSize := GroupSize(v, p);
    var keys: seq<seq<Row>>, values: seq<seq<Row>> := [], [];
    var kvHead := 0;
    while kvHead < kvHeads
      invariant kvHead <= kvHeads && |keys| == |values| == kvHead && out[..] == old(out[..])
      invariant kvHead > 0 ==> CanAttend(v, eb, p)
      invariant forall k :: 0 <= k < kvHead ==> keys[k] == HeadRows(v, p, Key, k) && values[k] == HeadRows(v, p, Value, k)
    {
      var found, headKeys, headValues := ResolveHead(v, eb, p, kvHead);
      if !found {
        return false;
      }
      keys, values := keys + [headKeys], values + [headValues];
      kvHead := kvHead + 1;
    }
    NoRowsYet(v, eb, p, e, query);
    var qHead := 0;
    while qHead < p.numQueryHeads
      invariant qHead <= p.numQueryHeads && qHead * headDim <= out.Length
      invariant out[..qHead * headDim] == Output(v, eb, p, e, query, qHead)
    {
      HeadInGroup(v, eb, p, qHead);
      RowFits(qHead, p.numQueryHeads, headDim);
      var k := qHead / groupSize;
      var q := QueryRow(query, headDim, qHead);
      var scores, max := ScoreTokens(q, keys[k], p.scale);
      var denominator, accumulator := WeighTokens(e, scores, max, values[k], headDim);
      DividedIsAttended(e, State(max, denominator, accumulator), q, keys[k], values[k], p.scale);
      HeadOutputIs(v, eb, p, e, query, qHead);
      ghost var before := out[..];
      WriteRow(out, qHead * headDim, accumulator, denominator);
      RowJoins(v, eb, p, e, query, qHead, qHead * headDim, before, out[..], Divided(accumulator, denominator));
      qHead := qHead + 1;
    }
    ok := true;
  }

  lemma NoRowsYet(v: CacheView, eb: nat, p: Params, e: Exp, query: seq<real>)
    requires ExpLaws(e) && WellSized(v) && CanAttend(v, eb, p) && |query| == p.numQueryHeads * Shape(v).headDim
    ensures Output(v, eb, p, e, query, 0) == []
  {}

  /** A row that is one query head's attention over one kv head. */
  ghost predicate AttendsFor(v: CacheView, p: Params, e: Exp, query: seq<real>, h: nat, kvHead: nat, row: Row)
    requires ExpLaws(e) && ValidView(v) && WellSized(v) && Stored(v, p) && Resolved(v, p) && p.contextLen > 0
    requires kvHead < Shape(v).numKvHeads && h * Shape(v).headDim + Shape(v).headDim <= |query|
  {
    row == Attended(e, QueryRow(query, Shape(v).headDim, h), HeadRows(v, p, Key, kvHead), HeadRows(v, p, Value, kvHead), p.scale)
  }

  lemma HeadOutputIs(v: CacheView, eb: nat, p: Params, e: Exp, query: seq<real>, h: nat)
    requires ExpLaws(e) && WellSized(v) && CanAttend(v, eb, p) && h < p.numQueryHeads
    requires |query| == p.numQueryHeads * Shape(v).headDim
    ensures Shape(v).numKvHeads > 0 && GroupSize(v, p) > 0 && h / GroupSize(v, p) < Shape(v).numKvHeads
    ensures h * Shape(v).headDim + Shape(v).headDim <= |query|
    ensures ValidView(v) && Stored(v, p) && Resolved(v, p)
    ensures AttendsFor(v, p, e, query, h, h / GroupSize(v, p), HeadOutput(v, eb, p, e, query, h))
  {
    hide ElementCount, Attended;
    HeadInGroup(v, eb, p, h);
    RowFits(h, p.numQueryHeads, Shape(v).headDim);
  }
}
