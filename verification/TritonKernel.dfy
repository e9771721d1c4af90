/**
  The GPU decode kernels for one (sequence, query head): the whole-context program, the split
  into partitions, and the merge.  Tile operations are functions over a block's tokens; a mask
  switches off the slots past the context.
 */
module TritonKernel {
  import opened Wrappers
  import opened Vectors
  import opened Arithmetic
  import opened SwapStore
  import opened CacheLayout
  import opened CacheViews
  import opened Softmax
  import opened AttentionSpec
  import opened BlockedAttention
  import PagedAttention

  // ---- How the context is split ------------------------------------------------------------------

  const MaxPartitions: nat := 32
  const TargetPrograms: nat := 512

  /** Splits far enough to fill the device, as far as the context and the merge allow, and no further. */
  function ChooseNumPartitions(numSeqs: nat, numQueryHeads: nat, maxBlocks: nat): (n: nat)
    requires numSeqs * numQueryHeads > 0
    ensures 1 <= n <= MaxPartitions
    ensures n == 1 || (n <= maxBlocks && (n - 1) * (numSeqs * numQueryHeads) < TargetPrograms)
    ensures n == MaxPartitions || n >= maxBlocks || n * (numSeqs * numQueryHeads) >= TargetPrograms
  {
    var wanted := CeilDiv(TargetPrograms, numSeqs * numQueryHeads);
    CeilDivIsLeastCover(TargetPrograms, numSeqs * numQueryHeads, wanted - 1);
    CeilDivIsLeastCover(TargetPrograms, numSeqs * numQueryHeads, wanted);
    MulMonotone(if maxBlocks < wanted then maxBlocks else wanted, wanted, numSeqs * numQueryHeads);
    var capped := Min(Min(wanted, MaxPartitions), maxBlocks);
    MulMonotone(if capped > 0 then capped - 1 else 0, wanted - 1, numSeqs * numQueryHeads);
    if capped < 1 then 1 else capped
  }

  function PartitionBlocks(maxBlocks: nat, partitions: nat): nat
    requires partitions > 0
  {
    CeilDiv(maxBlocks, partitions)
  }

  /** Re-derived from the rounded size, so no trailing partition is empty. */
  function PartitionCount(maxBlocks: nat, partitions: nat): nat
    requires partitions > 0 && maxBlocks > 0
  {
    PositiveSize(maxBlocks, partitions);
    CeilDiv(maxBlocks, PartitionBlocks(maxBlocks, partitions))
  }

  lemma PositiveSize(maxBlocks: nat, partitions: nat)
    requires partitions > 0 && maxBlocks > 0
    ensures PartitionBlocks(maxBlocks, partitions) > 0
  {
    CeilDivIsLeastCover(maxBlocks, partitions, 0);
  }

  /**
    Main result on splitting: for every requested count, each block lies in exactly one
    partition, no partition starts past the end, and there are no more of them than asked for.
   */
  lemma PartitionsCoverOnce(maxBlocks: nat, partitions: nat, block: nat)
    requires partitions > 0 && block < maxBlocks
    ensures var size, n := PartitionBlocks(maxBlocks, partitions), PartitionCount(maxBlocks, partitions);
            && 1 <= n <= partitions && size > 0 && maxBlocks <= n * size
            && block / size < n
            && (forall i: nat :: i * size <= block < i * size + size <==> i == block / size)
            && (forall i: nat :: i < n ==> i * size < maxBlocks)
  {
    PositiveSize(maxBlocks, partitions);
    var size, n := PartitionBlocks(maxBlocks, partitions), PartitionCount(maxBlocks, partitions);
    CeilDivIsLeastCover(maxBlocks, partitions, size);
    CeilDivIsLeastCover(maxBlocks, size, n);
    CeilDivIsLeastCover(maxBlocks, size, 0);
    CeilDivIsLeastCover(maxBlocks, size, partitions);
    Swap(size, partitions);
    DivSplits(block, size, n);
    forall i: nat
      ensures i * size <= block < i * size + size <==> i == block / size
      ensures i < n ==> i * size < maxBlocks
    {
      if i * size <= block < i * size + size {
        Digit(i, block - i * size, size);
      }
      CeilDivIsLeastCover(maxBlocks, size, i);
    }
  }

  // ---- One tile ----------------------------------------------------------------------------------------

  function MaxScores(scores: seq<Score>): Score {
    if scores == [] then NegInf else MaxScore(MaxScores(scores[..|scores| - 1]), scores[|scores| - 1])
  }

  function SumReals(xs: seq<real>): real {
    if xs == [] then 0.0 else SumReals(xs[..|xs| - 1]) + xs[|xs| - 1]
  }

  function SumRows(weights: seq<real>, values: seq<Row>, d: nat): real
    requires |values| == |weights| && forall i :: 0 <= i < |values| ==> d < |values[i]|
  {
    if weights == [] then 0.0
    else
      var n := |weights| - 1;
      SumRows(weights[..n], values[..n], d) + weights[n] * values[n][d]
  }

  /** `where(mask, scores, -inf)` over a tile of `width` slots, the first ones live. */
  function MaskedScores(scores: seq<real>, width: nat): (r: seq<Score>)
    requires |scores| <= width
    ensures |r| == width
  {
    seq(width, i => if 0 <= i < |scores| then Fin(scores[i]) else NegInf)
  }

  /** `where(mask, exp(scores - max), 0)`. */
  function MaskedWeights(e: Exp, scores: seq<real>, max: Score, width: nat): (r: seq<real>)
    requires |scores| <= width && (scores != [] ==> max.Fin?)
    ensures |r| == width
  {
    seq(width, i => if 0 <= i < |scores| then ExpDiff(e, Fin(scores[i]), max) else 0.0)
  }

  /** Masked loads give zero rows. */
  function MaskedRows(values: seq<Row>, width: nat, dim: nat): (r: seq<Row>)
    requires |values| <= width && Rows(values, dim)
    ensures |r| == width && Rows(r, dim)
  {
    var rows := seq(width, i => if 0 <= i < |values| then values[i] else Zeros(dim));
    assert forall i :: 0 <= i < |rows| ==> rows[i] == (if i < |values| then values[i] else Zeros(dim));
    rows
  }

  lemma {:induction false} MaskedMax(scores: seq<real>, width: nat)
    requires |scores| <= width
    ensures MaxScores(MaskedScores(scores, width)) == MaxOf(scores)
    decreases width
  {
    var masked := MaskedScores(scores, width);
    if width > 0 {
      if |scores| == width {
        MaskedMax(scores[..width - 1], width - 1);
        assert masked[..width - 1] == MaskedScores(scores[..width - 1], width - 1);
      } else {
        MaskedMax(scores, width - 1);
        assert masked[..width - 1] == MaskedScores(scores, width - 1);
      }
    }
  }

  lemma {:induction false} MaskedSum(e: Exp, scores: seq<real>, max: Score, width: nat)
    requires |scores| <= width && (scores != [] ==> max.Fin?)
    ensures SumReals(MaskedWeights(e, scores, max, width)) == if scores == [] then 0.0 else Weights(e, scores, max.r)
    decreases width
  {
    var masked := MaskedWeights(e, scores, max, width);
    if width > 0 {
      if |scores| == width {
        MaskedSum(e, scores[..width - 1], max, width - 1);
        assert masked[..width - 1] == MaskedWeights(e, scores[..width - 1], max, width - 1);
      } else {
        MaskedSum(e, scores, max, width - 1);
        assert masked[..width - 1] == MaskedWeights(e, scores, max, width - 1);
      }
    }
  }

  /** The last slot of a tile, live or masked. */
  lemma LastSlot(e: Exp, scores: seq<real>, values: seq<Row>, max: Score, width: nat, dim: nat)
    requires |scores| == |values| <= width && width > 0 && (scores != [] ==> max.Fin?) && Rows(values, dim)
    ensures var w, r := MaskedWeights(e, scores, max, width), MaskedRows(values, width, dim);
            var n := width - 1;
            if |scores| == width then
              && w[..n] == MaskedWeights(e, scores[..n], max, n) && r[..n] == MaskedRows(values[..n], n, dim)
              && w[n] == e(scores[n] - max.r) && r[n] == values[n]
            else
              && w[..n] == MaskedWeights(e, scores, max, n) && r[..n] == MaskedRows(values, n, dim)
              && w[n] == 0.0
  {}

  lemma {:induction false} MaskedRowSum(e: Exp, scores: seq<real>, values: seq<Row>, max: Score, width: nat, dim: nat, d: nat)
    requires |scores| == |values| <= width && (scores != [] ==> max.Fin?) && Rows(values, dim) && d < dim
    ensures SumRows(MaskedWeights(e, scores, max, width), MaskedRows(values, width, dim), d)
         == if scores == [] then 0.0 else Weighted(e, scores, values, max.r, d)
    decreases width
  {
    hide MaskedWeights, MaskedRows;
    if width > 0 {
      LastSlot(e, scores, values, max, width, dim);
      if |scores| == width {
        MaskedRowSum(e, scores[..width - 1], values[..width - 1], max, width - 1, dim, d);
      } else {
        MaskedRowSum(e, scores, values, max, width - 1, dim, d);
      }
    }
  }

  /** One iteration of the block loop. */
  function TileStep(e: Exp, st: State, scores: seq<real>, values: seq<Row>, width: nat, dim: nat): State
    requires |scores| == |values| <= width && Rows(values, dim) && |st.acc| == dim
  {
    MaskedMax(scores, width);
    MaxOfKind(scores);
    var blockMax := MaxScores(MaskedScores(scores, width));
    var newMax := MaxScore(st.max, blockMax);
    var alpha := if st.max.NegInf? then 0.0 else ExpDiff(e, st.max, newMax);
    var weights := MaskedWeights(e, scores, newMax, width);
    var rows := MaskedRows(values, width, dim);
    State(newMax, st.sum * alpha + SumReals(weights),
          seq(dim, d requires 0 <= d < dim => st.acc[d] * alpha + SumRows(weights, rows, d)))
  }

  lemma MaxOfKind(scores: seq<real>)
    ensures scores != [] <==> MaxOf(scores).Fin?
  {}

  /** A tile extends what a state stands for by the tile's live tokens, however few. */
  lemma TileStandsFor(e: Exp, st: State, seen: seq<real>, seenValues: seq<Row>, scores: seq<real>, values: seq<Row>, width: nat, dim: nat)
    requires ExpLaws(e) && |seenValues| == |seen| && Rows(seenValues, dim)
    requires |scores| == |values| <= width && Rows(values, dim)
    requires StandsFor(e, st, seen, seenValues, dim)
    ensures StandsFor(e, TileStep(e, st, scores, values, width, dim), seen + scores, seenValues + values, dim)
  {
    hide ExpLaws, Weights, Weighted, MaxOf, MaxScores, SumReals, SumRows, MaskedScores, MaskedWeights, MaskedRows;
    var st' := TileStep(e, st, scores, values, width, dim);
    MaskedMax(scores, width);
    MaxOfKind(scores);
    MaxOfKind(seen);
    ConcatMax(seen, scores);
    assert st'.max == MaxOf(seen + scores);
    if seen + scores != [] {
      var m := st'.max.r;
      MaskedSum(e, scores, st'.max, width);
      ConcatWeights(e, seen, scores, m);
      NoWeights(e, m, [], 0);
      if seen != [] {
        RebaseWeights(e, seen, st.max.r, m);
      }
      forall d | 0 <= d < dim
        ensures st'.acc[d] == Weighted(e, seen + scores, seenValues + values, m, d)
      {
        MaskedRowSum(e, scores, values, st'.max, width, dim, d);
        ConcatWeighted(e, seen, seenValues, scores, values, m, d);
        NoWeights(e, m, [], d);
        if seen != [] {
          RebaseWeighted(e, seen, seenValues, st.max.r, m, d);
        }
      }
    } else {
      MaskedSum(e, scores, st'.max, width);
      forall d | 0 <= d < dim
        ensures st'.acc[d] == 0.0
      {
        MaskedRowSum(e, scores, values, st'.max, width, dim, d);
      }
    }
  }

  // ---- One program -----------------------------------------------------------------------------------------

  /** What one (sequence, query head) program is launched with. */
  datatype Launch = Launch(
    frames: seq<Frame>, table: seq<nat>, contextLen: nat, layer: nat, head: nat,
    layerStride: nat, streamStride: nat, tokenStride: nat, headStride: nat,
    tpb: nat, query: Row, scale: real)

  function TileOffset(l: Launch, stream: KVStream, token: nat): nat {
    l.layer * l.layerStride + l.head * l.headStride + token * l.tokenStride + StreamIndex(stream) * l.streamStride
  }

  /** Every block below the context length is in the table and large enough. */
  ghost predicate LaunchOk(l: Launch) {
    && l.tpb > 0 && l.contextLen > 0
    && forall b, stream, t :: 0 <= b && 0 <= t < l.tpb && b < CeilDiv(l.contextLen, l.tpb) ==> TileFits(l, b, stream, t)
  }

  ghost predicate TileFits(l: Launch, b: nat, stream: KVStream, t: nat) {
    b < |l.table| && l.table[b] < |l.frames| && TileOffset(l, stream, t) + |l.query| <= |l.frames[l.table[b]]|
  }

  lemma TokenFits(l: Launch, stream: KVStream, token: nat)
    requires LaunchOk(l) && token < l.contextLen
    ensures l.tpb > 0 && TileFits(l, token / l.tpb, stream, token % l.tpb)
  {
    CeilDivOfSuccessor(token, l.tpb);
    CeilDivMonotone(token + 1, l.contextLen, l.tpb);
  }

  function LoadRow(l: Launch, block: nat, stream: KVStream, t: nat): (r: Row)
    requires TileFits(l, block, stream, t)
    ensures |r| == |l.query|
  {
    l.frames[l.table[block]][TileOffset(l, stream, t)..TileOffset(l, stream, t) + |l.query|]
  }

  /** A token's vector, through the block table. */
  ghost function FlatRow(l: Launch, stream: KVStream, token: nat): (r: Row)
    requires LaunchOk(l) && token < l.contextLen
    ensures |r| == |l.query|
  {
    hide LaunchOk, TileFits, CeilDiv;
    TokenFits(l, stream, token);
    LoadRow(l, token / l.tpb, stream, token % l.tpb)
  }

  /** The flat keys or values the launch stands for. */
  ghost function FlatRows(l: Launch, stream: KVStream): (r: seq<Row>)
    requires LaunchOk(l)
    ensures |r| == l.contextLen && Rows(r, |l.query|)
    ensures forall t :: 0 <= t < |r| ==> r[t] == FlatRow(l, stream, t)
  {
    seq(l.contextLen, t requires 0 <= t < l.contextLen => FlatRow(l, stream, t))
  }

  function Clip(l: Launch, n: nat): nat {
    if n <= l.contextLen then n else l.contextLen
  }

  /** The live tokens of one block, as the masked load brings them in. */
  method LoadTile(l: Launch, block: nat, stream: KVStream) returns (rows: seq<Row>)
    requires LaunchOk(l)
    ensures rows == FlatRows(l, stream)[Clip(l, block * l.tpb)..Clip(l, block * l.tpb + l.tpb)]
  {
    hide LaunchOk, TileFits, LoadRow, FlatRows, CeilDiv;
    LaunchSizes(l);
    var begin := block * l.tpb;
    var tokensHere := Clip(l, begin + l.tpb) - Clip(l, begin);
    rows := [];
    var i := 0;
    while i < tokensHere
      invariant i <= tokensHere && |rows| == i
      invariant forall k :: 0 <= k < i ==> rows[k] == FlatRows(l, stream)[begin + k]
    {
      Digit(block, i, l.tpb);
      TokenFits(l, stream, begin + i);
      rows := rows + [LoadRow(l, block, stream, i)];
      i := i + 1;
    }
  }

  /** The block loop, from `first` on, `blocks` blocks long; the denominator is not divided out. */
  method PartialKernel(l: Launch, e: Exp, first: nat, blocks: nat) returns (st: State)
    requires ExpLaws(e) && LaunchOk(l)
    ensures var a, b := Clip(l, first * l.tpb), Clip(l, (first + blocks) * l.tpb);
            a <= b && StandsFor(e, st, ScoresOf(l.query, FlatRows(l, Key), l.scale)[a..b], FlatRows(l, Value)[a..b], |l.query|)
  {
    hide ExpLaws, LaunchOk, StandsFor, FlatRows, TileStep, ScoresOf;
    ghost var scores := ScoresOf(l.query, FlatRows(l, Key), l.scale);
    ghost var values := FlatRows(l, Value);
    ghost var a := Clip(l, first * l.tpb);
    LaunchSizes(l);
    st := EmptyState(|l.query|);
    NothingStandsFor(e, |l.query|);
    assert scores[a..a] == [] && values[a..a] == [];
    var offset := 0;
    while offset < blocks
      invariant offset <= blocks && a <= Clip(l, (first + offset) * l.tpb)
      invariant |st.acc| == |l.query|
      invariant StandsFor(e, st, scores[a..Clip(l, (first + offset) * l.tpb)], values[a..Clip(l, (first + offset) * l.tpb)], |l.query|)
    {
      var block := first + offset;
      NextBlock(block, l.tpb);
      ghost var b, c := Clip(l, block * l.tpb), Clip(l, block * l.tpb + l.tpb);
      var keys := LoadTile(l, block, Key);
      var rows := LoadTile(l, block, Value);
      var tile := ScoresOf(l.query, keys, l.scale);
      ScoresOfSlice(l.query, FlatRows(l, Key), l.scale, b, c);
      TileStandsFor(e, st, scores[a..b], values[a..b], tile, rows, l.tpb, |l.query|);
      st := TileStep(e, st, tile, rows, l.tpb, |l.query|);
      StandsForSize(e, st, scores[a..b] + tile, values[a..b] + rows, |l.query|);
      assert scores[a..b] + scores[b..c] == scores[a..c] && values[a..b] + values[b..c] == values[a..c];
      offset := offset + 1;
    }
  }

  lemma NextBlock(block: nat, tpb: nat)
    ensures (block + 1) * tpb == block * tpb + tpb
  {}

  lemma LaunchSizes(l: Launch)
    requires LaunchOk(l)
    ensures l.tpb > 0 && l.contextLen > 0
    ensures |FlatRows(l, Key)| == |FlatRows(l, Value)| == l.contextLen
  {}

  lemma NothingStandsFor(e: Exp, dim: nat)
    ensures StandsFor(e, EmptyState(dim), [], [], dim)
  {}

  lemma StandsForSize(e: Exp, st: State, scores: seq<real>, values: seq<Row>, dim: nat)
    requires |values| == |scores| && Rows(values, dim) && StandsFor(e, st, scores, values, dim)
    ensures |st.acc| == dim
  {}

  lemma ScoresOfSlice(q: Row, keys: seq<Row>, scale: real, b: nat, c: nat)
    requires Rows(keys, |q|) && b <= c <= |keys|
    ensures ScoresOf(q, keys[b..c], scale) == ScoresOf(q, keys, scale)[b..c]
  {
    hide ScoreOf;
  }

  // ---- The merge ---------------------------------------------------------------------------------------------

  /** A partial rescaled to the common maximum; an empty one counts for nothing. */
  function Rescale(e: Exp, st: State, globalMax: Score): real
    requires st.max.Fin? ==> globalMax.Fin?
  {
    if st.max.NegInf? then 0.0 else ExpDiff(e, st.max, globalMax)
  }

  function MaxesOf(partials: seq<State>): (r: seq<Score>)
    ensures |r| == |partials|
  {
    seq(|partials|, i requires 0 <= i < |partials| => partials[i].max)
  }

  function SumScaled(e: Exp, partials: seq<State>, g: Score): real
    requires forall i :: 0 <= i < |partials| ==> partials[i].max.Fin? ==> g.Fin?
  {
    if partials == [] then 0.0
    else
      var n := |partials| - 1;
      SumScaled(e, partials[..n], g) + partials[n].sum * Rescale(e, partials[n], g)
  }

  function RowScaled(e: Exp, partials: seq<State>, g: Score, d: nat): real
    requires forall i :: 0 <= i < |partials| ==> (partials[i].max.Fin? ==> g.Fin?) && d < |partials[i].acc|
  {
    if partials == [] then 0.0
    else
      var n := |partials| - 1;
      RowScaled(e, partials[..n], g, d) + partials[n].acc[d] * Rescale(e, partials[n], g)
  }

  /** Cut points of a split: partial i stands for the tokens from cut i to cut i + 1. */
  ghost predicate SplitAt(e: Exp, partials: seq<State>, cuts: seq<nat>, scores: seq<real>, values: seq<Row>, dim: nat)
    requires |values| == |scores| && Rows(values, dim)
  {
    && |cuts| == |partials| + 1 && cuts[0] == 0
    && forall i :: 0 <= i < |partials| ==> PartStands(e, partials[i], cuts[i], cuts[i + 1], scores, values, dim)
  }

  ghost predicate PartStands(e: Exp, st: State, a: nat, b: nat, scores: seq<real>, values: seq<Row>, dim: nat)
    requires |values| == |scores| && Rows(values, dim)
  {
    a <= b <= |scores| && StandsFor(e, st, scores[a..b], values[a..b], dim)
  }

  lemma PrefixGrows<T>(xs: seq<T>, a: nat, b: nat)
    requires a <= b <= |xs|
    ensures xs[..b] == xs[..a] + xs[a..b]
  {}

  lemma {:induction false} MergedMax(e: Exp, partials: seq<State>, cuts: seq<nat>, scores: seq<real>, values: seq<Row>, dim: nat)
    requires |values| == |scores| && Rows(values, dim) && SplitAt(e, partials, cuts, scores, values, dim)
    ensures cuts[|partials|] <= |scores| && MaxScores(MaxesOf(partials)) == MaxOf(scores[..cuts[|partials|]])
    decreases |partials|
  {
    if partials == [] {
      assert scores[..0] == [];
    } else {
      var n := |partials| - 1;
      assert PartStands(e, partials[n], cuts[n], cuts[n + 1], scores, values, dim);
      MergedMax(e, partials[..n], cuts[..n + 1], scores, values, dim);
      assert MaxesOf(partials)[..n] == MaxesOf(partials[..n]);
      PrefixGrows(scores, cuts[n], cuts[n + 1]);
      ConcatMax(scores[..cuts[n]], scores[cuts[n]..cuts[n + 1]]);
    }
  }

  /** One rescaled partial is its tokens' share of the sums relative to the common maximum. */
  lemma PartShare(e: Exp, st: State, scores: seq<real>, values: seq<Row>, dim: nat, g: Score)
    requires ExpLaws(e) && |values| == |scores| && Rows(values, dim) && StandsFor(e, st, scores, values, dim) && g.Fin?
    ensures st.sum * Rescale(e, st, g) == Weights(e, scores, g.r)
    ensures forall d :: 0 <= d < dim ==> st.acc[d] * Rescale(e, st, g) == Weighted(e, scores, values, g.r, d)
  {
    hide ExpLaws, Weights, Weighted, MaxOf;
    NoWeights(e, g.r, values, 0);
    MaxOfKind(scores);
    if scores != [] {
      RebaseWeights(e, scores, st.max.r, g.r);
    }
    forall d | 0 <= d < dim
      ensures st.acc[d] * Rescale(e, st, g) == Weighted(e, scores, values, g.r, d)
    {
      NoWeights(e, g.r, values, d);
      if scores != [] {
        RebaseWeighted(e, scores, values, st.max.r, g.r, d);
      }
    }
  }

  lemma {:induction false} MergedSums(e: Exp, partials: seq<State>, cuts: seq<nat>, scores: seq<real>, values: seq<Row>, dim: nat, g: Score)
    requires ExpLaws(e) && |values| == |scores| && Rows(values, dim) && SplitAt(e, partials, cuts, scores, values, dim) && g.Fin?
    ensures cuts[|partials|] <= |scores|
    ensures SumScaled(e, partials, g) == Weights(e, scores[..cuts[|partials|]], g.r)
    ensures forall d :: 0 <= d < dim ==>
              && (forall i :: 0 <= i < |partials| ==> |partials[i].acc| == dim)
              && RowScaled(e, partials, g, d) == Weighted(e, scores[..cuts[|partials|]], values[..cuts[|partials|]], g.r, d)
    decreases |partials|
  {
    hide ExpLaws, Weights, Weighted, StandsFor, Rescale;
    NoWeights(e, g.r, [], 0);
    if partials == [] {
      assert scores[..0] == [] && values[..0] == [];
      forall d | 0 <= d < dim
        ensures Weighted(e, scores[..0], values[..0], g.r, d) == 0.0
      {
        NoWeights(e, g.r, [], d);
      }
    } else {
      var n := |partials| - 1;
      var a, b := cuts[n], cuts[n + 1];
      assert PartStands(e, partials[n], a, b, scores, values, dim);
      MergedSums(e, partials[..n], cuts[..n + 1], scores, values, dim, g);
      PrefixGrows(scores, a, b);
      PrefixGrows(values, a, b);
      PartShare(e, partials[n], scores[a..b], values[a..b], dim, g);
      ConcatWeights(e, scores[..a], scores[a..b], g.r);
      forall i | 0 <= i < |partials|
        ensures |partials[i].acc| == dim
      {
        assert PartStands(e, partials[i], cuts[i], cuts[i + 1], scores, values, dim);
        StandsForSize(e, partials[i], scores[cuts[i]..cuts[i + 1]], values[cuts[i]..cuts[i + 1]], dim);
      }
      forall d | 0 <= d < dim
        ensures RowScaled(e, partials, g, d) == Weighted(e, scores[..b], values[..b], g.r, d)
      {
        ConcatWeighted(e, scores[..a], values[..a], scores[a..b], values[a..b], g.r, d);
      }
    }
  }

  /** The reduce kernel's vector: rescaled numerators over rescaled denominators. */
  function Merged(e: Exp, partials: seq<State>, dim: nat): Row
    requires forall i :: 0 <= i < |partials| ==> |partials[i].acc| == dim
    requires forall i :: 0 <= i < |partials| ==> partials[i].max.Fin? ==> MaxScores(MaxesOf(partials)).Fin?
    requires SumScaled(e, partials, MaxScores(MaxesOf(partials))) != 0.0
  {
    var g := MaxScores(MaxesOf(partials));
    var sum := SumScaled(e, partials, g);
    seq(dim, d requires 0 <= d < dim => RowScaled(e, partials, g, d) / sum)
  }

  /** Main result on merging: unnormalised partials of any split merge to whole-context attention. */
  lemma MergeIsExact(e: Exp, partials: seq<State>, cuts: seq<nat>, scores: seq<real>, values: seq<Row>, dim: nat)
    requires ExpLaws(e) && |values| == |scores| > 0 && Rows(values, dim)
    requires SplitAt(e, partials, cuts, scores, values, dim) && cuts[|partials|] == |scores|
    ensures MaxScores(MaxesOf(partials)).Fin?
    ensures forall i :: 0 <= i < |partials| ==> |partials[i].acc| == dim
    ensures SumScaled(e, partials, MaxScores(MaxesOf(partials))) > 0.0 && Weights(e, scores, 0.0) > 0.0
    ensures forall d :: 0 <= d < dim ==> Merged(e, partials, dim)[d] == Attention(e, scores, values, d)
  {
    hide ExpLaws, Weights, Weighted, StandsFor, Rescale, MaxScores, SumScaled, RowScaled, Attention;
    MergedMax(e, partials, cuts, scores, values, dim);
    assert scores[..|scores|] == scores && values[..|scores|] == values;
    MaxOfFinite(scores);
    var g := MaxScores(MaxesOf(partials));
    MergedSums(e, partials, cuts, scores, values, dim, g);
    WeightsPositive(e, scores, g.r);
    WeightsPositive(e, scores, 0.0);
    forall i | 0 <= i < |partials|
      ensures |partials[i].acc| == dim
    {
      assert PartStands(e, partials[i], cuts[i], cuts[i + 1], scores, values, dim);
      StandsForSize(e, partials[i], scores[cuts[i]..cuts[i + 1]], values[cuts[i]..cuts[i + 1]], dim);
    }
    forall d | 0 <= d < dim
      ensures Merged(e, partials, dim)[d] == Attention(e, scores, values, d)
    {
      AnyReferencePoint(e, scores, values, g.r, d);
    }
  }

  // ---- Both paths ------------------------------------------------------------------------------------------

  lemma StateIsAttended(l: Launch, e: Exp, st: State, d: nat)
    requires ExpLaws(e) && LaunchOk(l) && d < |l.query|
    requires StandsFor(e, st, ScoresOf(l.query, FlatRows(l, Key), l.scale), FlatRows(l, Value), |l.query|)
    ensures st.sum > 0.0 && |st.acc| == |l.query|
    ensures st.acc[d] / st.sum == Attended(e, l.query, FlatRows(l, Key), FlatRows(l, Value), l.scale)[d]
  {
    hide ExpLaws, Weights, Weighted, LaunchOk;
    LaunchSizes(l);
    StateGivesAttention(e, st, ScoresOf(l.query, FlatRows(l, Key), l.scale), FlatRows(l, Value), |l.query|, d);
  }

  lemma StateSum(l: Launch, e: Exp, st: State)
    requires ExpLaws(e) && LaunchOk(l)
    requires StandsFor(e, st, ScoresOf(l.query, FlatRows(l, Key), l.scale), FlatRows(l, Value), |l.query|)
    ensures st.sum > 0.0
  {
    hide ExpLaws, Weights, Weighted, LaunchOk;
    LaunchSizes(l);
    WeightsPositive(e, ScoresOf(l.query, FlatRows(l, Key), l.scale), st.max.r);
  }

  lemma WholeContext(l: Launch, maxBlocks: nat)
    requires LaunchOk(l) && CeilDiv(l.contextLen, l.tpb) <= maxBlocks
    ensures Clip(l, 0 * l.tpb) == 0 && Clip(l, maxBlocks * l.tpb) == l.contextLen
  {
    CeilDivIsLeastCover(l.contextLen, l.tpb, maxBlocks);
  }

  lemma WholeSlice<T>(xs: seq<T>)
    ensures xs[0..|xs|] == xs
  {}

  /** The single-program kernel: all blocks, then the division. */
  method WholeKernel(l: Launch, e: Exp, maxBlocks: nat) returns (out: Row)
    requires ExpLaws(e) && LaunchOk(l) && CeilDiv(l.contextLen, l.tpb) <= maxBlocks
    ensures out == Attended(e, l.query, FlatRows(l, Key), FlatRows(l, Value), l.scale)
  {
    hide ExpLaws, LaunchOk, StandsFor, FlatRows, ScoresOf, CeilDiv, Attended;
    LaunchSizes(l);
    WholeContext(l, maxBlocks);
    var st := PartialKernel(l, e, 0, maxBlocks);
    ghost var scores := ScoresOf(l.query, FlatRows(l, Key), l.scale);
    WholeSlice(scores);
    WholeSlice(FlatRows(l, Value));
    StateSum(l, e, st);
    forall d | 0 <= d < |l.query|
      ensures |st.acc| == |l.query|
      ensures st.acc[d] / st.sum == Attended(e, l.query, FlatRows(l, Key), FlatRows(l, Value), l.scale)[d]
    {
      StateIsAttended(l, e, st, d);
    }
    StandsForSize(e, st, scores, FlatRows(l, Value), |l.query|);
    out := seq(|l.query|, d requires 0 <= d < |l.query| => st.acc[d] / st.sum);
  }

  /** One reduce program: the merge of a row of partials, padded with empty ones to the tile width. */
  method ReduceKernel(e: Exp, partials: seq<State>, width: nat, dim: nat,
                      ghost cuts: seq<nat>, ghost scores: seq<real>, ghost values: seq<Row>) returns (out: Row)
    requires ExpLaws(e) && |values| == |scores| > 0 && Rows(values, dim) && |partials| <= width
    requires SplitAt(e, partials, cuts, scores, values, dim) && cuts[|partials|] == |scores|
    ensures |out| == dim && Weights(e, scores, 0.0) > 0.0
    ensures forall d :: 0 <= d < dim ==> out[d] == Attention(e, scores, values, d)
  {
    hide ExpLaws, StandsFor, Weights, Weighted, Attention;
    var padded := partials;
    ghost var cuts': seq<nat> := cuts;
    while |padded| < width
      invariant |padded| <= width
      invariant SplitAt(e, padded, cuts', scores, values, dim) && cuts'[|padded|] == |scores|
    {
      PadStands(e, padded, cuts', scores, values, dim);
      padded := padded + [EmptyState(dim)];
      cuts' := cuts' + [|scores|];
    }
    MergeIsExact(e, padded, cuts', scores, values, dim);
    out := Merged(e, padded, dim);
  }

  lemma PadStands(e: Exp, partials: seq<State>, cuts: seq<nat>, scores: seq<real>, values: seq<Row>, dim: nat)
    requires |values| == |scores| && Rows(values, dim)
    requires SplitAt(e, partials, cuts, scores, values, dim) && cuts[|partials|] == |scores|
    ensures SplitAt(e, partials + [EmptyState(dim)], cuts + [|scores|], scores, values, dim)
  {
    var n := |scores|;
    assert scores[n..n] == [] && values[n..n] == [];
    NothingStandsFor(e, dim);
    AddPart(e, partials, cuts, EmptyState(dim), n, scores, values, dim);
  }

  lemma AddPart(e: Exp, partials: seq<State>, cuts: seq<nat>, st: State, cut: nat, scores: seq<real>, values: seq<Row>, dim: nat)
    requires |values| == |scores| && Rows(values, dim)
    requires SplitAt(e, partials, cuts, scores, values, dim)
    requires PartStands(e, st, cuts[|partials|], cut, scores, values, dim)
    ensures SplitAt(e, partials + [st], cuts + [cut], scores, values, dim)
  {
    hide StandsFor;
    var ps, cs := partials + [st], cuts + [cut];
    forall i | 0 <= i < |ps|
      ensures PartStands(e, ps[i], cs[i], cs[i + 1], scores, values, dim)
    {
      if i < |partials| {
        assert PartStands(e, partials[i], cuts[i], cuts[i + 1], scores, values, dim);
      }
    }
  }

  /** Doubles p until it reaches n. */
  function DoubledTo(p: nat, n: nat): (r: nat)
    requires p > 0
    ensures r >= n && r >= p && (r == p || r < 2 * n)
    decreases n - p
  {
    if p >= n then p else DoubledTo(2 * p, n)
  }

  /** The width of the reduce kernel's tile. */
  function NextPowerOfTwo(n: nat): (r: nat)
    ensures r >= n && (r == 1 || r < 2 * n)
  {
    DoubledTo(1, n)
  }

  /** The split path, for any number of partitions: every partition run, then the merge. */
  method DecodeSplit(l: Launch, e: Exp, maxBlocks: nat, requested: nat) returns (out: Row)
    requires ExpLaws(e) && LaunchOk(l) && 0 < CeilDiv(l.contextLen, l.tpb) <= maxBlocks && requested > 0
    ensures out == Attended(e, l.query, FlatRows(l, Key), FlatRows(l, Value), l.scale)
  {
    hide ExpLaws, LaunchOk, StandsFor, FlatRows, ScoresOf, CeilDiv, Attention, Weights, SplitAt;
    LaunchSizes(l);
    var size, n := PartitionBlocks(maxBlocks, requested), PartitionCount(maxBlocks, requested);
    PartitionsCoverOnce(maxBlocks, requested, 0);
    ghost var scores, values := ScoresOf(l.query, FlatRows(l, Key), l.scale), FlatRows(l, Value);
    var partials: seq<State> := [];
    ghost var cuts: seq<nat> := [0];
    NoPartsYet(e, scores, values, |l.query|);
    ClipZero(l);
    var i := 0;
    while i < n
      invariant i <= n && |partials| == i && |cuts| == i + 1
      invariant SplitAt(e, partials, cuts, scores, values, |l.query|) && cuts[i] == Clip(l, i * size * l.tpb)
    {
      var st := PartialKernel(l, e, i * size, size);
      NextBlock(i, size);
      AddPart(e, partials, cuts, st, Clip(l, (i + 1) * size * l.tpb), scores, values, |l.query|);
      partials := partials + [st];
      cuts := cuts + [Clip(l, (i + 1) * size * l.tpb)];
      i := i + 1;
    }
    AllBlocksCovered(l, maxBlocks, n * size);
    out := ReduceKernel(e, partials, NextPowerOfTwo(n), |l.query|, cuts, scores, values);
  }

  /**
    `paged_attention_decode_partitioned` for one query head: the caller's number of partitions or a
    chosen one; a number out of range is the assertion error, every other computes the same row.
   */
  method DecodePartitioned(l: Launch, e: Exp, maxBlocks: nat, numSeqs: nat, numQueryHeads: nat, requested: Option<nat>)
    returns (out: Option<Row>)
    requires ExpLaws(e) && LaunchOk(l) && 0 < CeilDiv(l.contextLen, l.tpb) <= maxBlocks && numSeqs * numQueryHeads > 0
    ensures out.None? <==> requested.Some? && !(1 <= requested.value <= MaxPartitions)
    ensures out.Some? ==> out.value == Attended(e, l.query, FlatRows(l, Key), FlatRows(l, Value), l.scale)
  {
    hide ExpLaws, LaunchOk, FlatRows, CeilDiv, Attended;
    LaunchSizes(l);
    var partitions := if requested.Some? then requested.value else ChooseNumPartitions(numSeqs, numQueryHeads, maxBlocks);
    if !(1 <= partitions <= MaxPartitions) {
      return None;
    }
    var row: Row;
    if partitions == 1 {
      row := WholeKernel(l, e, maxBlocks);
    } else {
      row := DecodeSplit(l, e, maxBlocks, partitions);
    }
    out := Some(row);
  }

  lemma ClipZero(l: Launch)
    ensures forall size: nat :: Clip(l, 0 * size * l.tpb) == 0
  {}

  lemma NoPartsYet(e: Exp, scores: seq<real>, values: seq<Row>, dim: nat)
    requires |values| == |scores| && Rows(values, dim)
    ensures SplitAt(e, [], [0], scores, values, dim)
  {}

  lemma AllBlocksCovered(l: Launch, maxBlocks: nat, blocks: nat)
    requires LaunchOk(l) && CeilDiv(l.contextLen, l.tpb) <= maxBlocks <= blocks
    ensures Clip(l, blocks * l.tpb) == l.contextLen
  {
    CeilDivIsLeastCover(l.contextLen, l.tpb, blocks);
  }

  // ---- The same function as the CPU kernels -------------------------------------------------------------------

  /** The launch for one query head over a cache view: layout strides and the flattened block table. */
  ghost function LaunchOf(v: CacheView, p: Params, head: nat, query: Row): Launch
    requires Resolved(v, p)
  {
    var s := Shape(v);
    Launch(v.pool.bytes, seq(LogicalBlocks(v, p), b requires 0 <= b < LogicalBlocks(v, p) => BlockFrame(v, b, TableOfLayer(v, p.layer)).value),
           p.contextLen, OffsetLayer(v, p.layer), head,
           LayerStride(s), StreamStride(s), TokenStride(s), HeadStride(s), s.tokensPerBlock, query, p.scale)
  }

  /** The kernel's address arithmetic is the layout's element offset. */
  lemma TileOffsetIsElementOffset(v: CacheView, p: Params, head: nat, query: Row, stream: KVStream, t: nat)
    requires ValidView(v) && Stored(v, p) && Resolved(v, p) && head < Shape(v).numKvHeads && t < Shape(v).tokensPerBlock
    ensures ElementOffset(Shape(v), OffsetLayer(v, p.layer), stream, t, head) == Some(TileOffset(LaunchOf(v, p, head, query), stream, t))
  {
    hide LayerStride, StreamStride, TokenStride, HeadStride, BlockFrame;
  }

  lemma LaunchReadsView(v: CacheView, eb: nat, p: Params, head: nat, query: Row)
    requires CanAttend(v, eb, p) && WellSized(v) && head < Shape(v).numKvHeads && |query| == Shape(v).headDim
    ensures var l := LaunchOf(v, p, head, query);
            && LaunchOk(l) && 0 < CeilDiv(l.contextLen, l.tpb) <= |l.table|
            && FlatRows(l, Key) == HeadRows(v, p, Key, head) && FlatRows(l, Value) == HeadRows(v, p, Value, head)
  {
    hide ElementCount, ElementOffset, TileOffset, HeadRows, FlatRows, FlatRow, KVRow, BlockFrame, OffsetLayer, WellSized, TileFits, Stored;
    ShapePositive(v);
    var l := LaunchOf(v, p, head, query);
    BlockBounds(v, p, 0);
    forall b: nat, stream, t: nat | t < l.tpb && b < CeilDiv(l.contextLen, l.tpb)
      ensures TileFits(l, b, stream, t)
    {
      FitsInView(v, eb, p, head, query, b, stream, t);
    }
    forall stream
      ensures FlatRows(l, stream) == HeadRows(v, p, stream, head)
    {
      SameRows(v, eb, p, head, query, stream);
    }
  }

  lemma FitsInView(v: CacheView, eb: nat, p: Params, head: nat, query: Row, b: nat, stream: KVStream, t: nat)
    requires CanAttend(v, eb, p) && WellSized(v) && head < Shape(v).numKvHeads && |query| == Shape(v).headDim
    requires t < Shape(v).tokensPerBlock && b < LogicalBlocks(v, p)
    ensures TileFits(LaunchOf(v, p, head, query), b, stream, t)
  {
    hide ElementCount, ElementOffset, TileOffset, BlockFrame;
    ShapePositive(v);
    TileOffsetIsElementOffset(v, p, head, query, stream, t);
    OffsetFits(Shape(v), OffsetLayer(v, p.layer), stream, t, head);
    assert BlockFrame(v, b, TableOfLayer(v, p.layer)).Some?;
  }

  lemma SameRows(v: CacheView, eb: nat, p: Params, head: nat, query: Row, stream: KVStream)
    requires CanAttend(v, eb, p) && WellSized(v) && head < Shape(v).numKvHeads && |query| == Shape(v).headDim
    requires LaunchOk(LaunchOf(v, p, head, query))
    ensures FlatRows(LaunchOf(v, p, head, query), stream) == HeadRows(v, p, stream, head)
  {
    hide ElementCount, LaunchOk, FlatRow, KVRow, WellSized, Stored, Resolved, LogicalBlocks;
    var l := LaunchOf(v, p, head, query);
    forall t | 0 <= t < p.contextLen
      ensures FlatRow(l, stream, t) == KVRow(v, p, stream, t, head)
    {
      SameToken(v, eb, p, head, query, stream, t);
    }
  }

  lemma SameToken(v: CacheView, eb: nat, p: Params, head: nat, query: Row, stream: KVStream, t: nat)
    requires CanAttend(v, eb, p) && WellSized(v) && head < Shape(v).numKvHeads && |query| == Shape(v).headDim
    requires LaunchOk(LaunchOf(v, p, head, query)) && t < p.contextLen
    ensures FlatRow(LaunchOf(v, p, head, query), stream, t) == KVRow(v, p, stream, t, head)
  {
    hide ElementCount, LaunchOk, ElementOffset, TileOffset, BlockFrame;
    var l := LaunchOf(v, p, head, query);
    ShapePositive(v);
    TokenInBlocks(v, p, t);
    TokenFits(l, stream, t);
    TileOffsetIsElementOffset(v, p, head, query, stream, t % l.tpb);
    KVRowIs(v, p, stream, t, head);
  }

  /** Whole or split, the GPU computes each query head's row of the CPU kernels' output. */
  lemma GpuComputesTheCpuRow(v: CacheView, eb: nat, p: Params, e: Exp, query: seq<real>, h: nat)
    requires ExpLaws(e) && WellSized(v) && CanAttend(v, eb, p) && h < p.numQueryHeads
    requires |query| == p.numQueryHeads * Shape(v).headDim
    ensures Shape(v).numKvHeads > 0 && GroupSize(v, p) > 0 && h * Shape(v).headDim + Shape(v).headDim <= |query|
    ensures var l := LaunchOf(v, p, h / GroupSize(v, p), QueryRow(query, Shape(v).headDim, h));
            && LaunchOk(l)
            && HeadOutput(v, eb, p, e, query, h) == Attended(e, l.query, FlatRows(l, Key), FlatRows(l, Value), l.scale)
  {
    hide ExpLaws, ElementCount, LaunchOk, WellSized, Attended, HeadOutput, FlatRows, HeadRows;
    HeadInGroup(v, eb, p, h);
    RowFits(h, p.numQueryHeads, Shape(v).headDim);
    LaunchReadsView(v, eb, p, h / GroupSize(v, p), QueryRow(query, Shape(v).headDim, h));
    PagedAttention.HeadOutputIs(v, eb, p, e, query, h);
  }

}
