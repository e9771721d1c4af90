/** The kernels that serve a whole query group per key: two-pass, and single-pass online softmax. */
module FusedAttention {
  import opened Vectors
  import opened SwapStore
  import opened CacheLayout
  import opened CacheViews
  import opened Softmax
  import opened AttentionSpec
  import opened PagedAttention
  import opened BlockedAttention

  ghost function StateOf(maxScore: array<Score>, denom: array<real>, accumulator: array<Row>, g: nat): State
    requires g < maxScore.Length && g < denom.Length && g < accumulator.Length
    reads maxScore, denom, accumulator
  {
    State(maxScore[g], denom[g], accumulator[g])
  }

  ghost function States(maxScore: array<Score>, denom: array<real>, accumulator: array<Row>): (r: seq<State>)
    requires maxScore.Length == denom.Length == accumulator.Length
    reads maxScore, denom, accumulator
    ensures |r| == maxScore.Length
    ensures forall g :: 0 <= g < |r| ==> r[g] == StateOf(maxScore, denom, accumulator, g)
  {
    seq(maxScore.Length, g requires 0 <= g < maxScore.Length reads maxScore, denom, accumulator => StateOf(maxScore, denom, accumulator, g))
  }

  /** Each member's state stands for its own scores of these tokens. */
  ghost predicate GroupStands(e: Exp, states: seq<State>, queries: seq<Row>, dim: nat, keys: seq<Row>, values: seq<Row>, scale: real)
    requires |states| == |queries| && Rows(queries, dim) && Rows(keys, dim) && Rows(values, dim) && |values| == |keys|
  {
    forall g :: 0 <= g < |states| ==> StandsFor(e, states[g], ScoresOf(queries[g], keys, scale), values, dim)
  }

  ghost predicate Sized(states: seq<State>, dim: nat) {
    forall g :: 0 <= g < |states| ==> |states[g].acc| == dim
  }

  // ---- Online: one pass ---------------------------------------------------------------------------------

  function PushAll(e: Exp, states: seq<State>, queries: seq<Row>, dim: nat, key: Row, value: Row, scale: real): (r: seq<State>)
    requires |states| == |queries| && Rows(queries, dim) && |key| == |value| == dim
    requires forall g :: 0 <= g < |states| ==> |states[g].acc| == dim
    ensures |r| == |states|
  {
    seq(|states|, g requires 0 <= g < |states| => Push(e, states[g], ScoreOf(queries[g], key, scale), value))
  }

  /** One score into one running state. */
  method PushScore(e: Exp, maxScore: Score, denom: real, accumulator: Row, score: real, value: Row)
    returns (newMax: Score, newDenom: real, newAccumulator: Row)
    requires |value| == |accumulator|
    ensures State(newMax, newDenom, newAccumulator) == Push(e, State(maxScore, denom, accumulator), score, value)
  {
    newMax := MaxScore(maxScore, Fin(score));
    var rescale := ExpDiff(e, maxScore, newMax);
    var weight := ExpDiff(e, Fin(score), newMax);
    newAccumulator := accumulator;
    if maxScore != newMax && denom != 0.0 {
      newAccumulator := ScaleHead(newAccumulator, rescale);
    }
    newDenom := denom * rescale + weight;
    newAccumulator := AxpyHead(newAccumulator, value, weight);
  }

  /** One token into every member's running state. */
  method PushGroup(e: Exp, queries: seq<Row>, dim: nat, key: Row, value: Row, scale: real,
                   maxScore: array<Score>, denom: array<real>, accumulator: array<Row>)
    requires maxScore.Length == denom.Length == accumulator.Length == |queries|
    requires Rows(queries, dim) && |key| == |value| == dim
    requires Sized(States(maxScore, denom, accumulator), dim)
    modifies maxScore, denom, accumulator
    ensures States(maxScore, denom, accumulator)
         == PushAll(e, old(States(maxScore, denom, accumulator)), queries, dim, key, value, scale)
  {
    hide ScoreOf, Push;
    ghost var before := States(maxScore, denom, accumulator);
    var g := 0;
    while g < |queries|
      invariant g <= |queries|
      invariant forall k :: g <= k < |queries| ==> StateOf(maxScore, denom, accumulator, k) == before[k]
      invariant forall k :: 0 <= k < g ==>
                  StateOf(maxScore, denom, accumulator, k) == PushAll(e, before, queries, dim, key, value, scale)[k]
    {
      assert StateOf(maxScore, denom, accumulator, g) == before[g];
      var dot := DotHead(queries[g], key);
      var score := scale * dot;
      ScoreIs(queries[g], key, scale, score);
      maxScore[g], denom[g], accumulator[g] := PushScore(e, maxScore[g], denom[g], accumulator[g], score, value);
      g := g + 1;
    }
  }

  lemma ScoreIs(q: Row, key: Row, scale: real, score: real)
    requires |key| == |q| && score == scale * Dot(q, key)
    ensures score == ScoreOf(q, key, scale)
  {
    hide Dot;
  }

  lemma PushedGroupStands(e: Exp, states: seq<State>, queries: seq<Row>, dim: nat, keys: seq<Row>, values: seq<Row>, scale: real, n: nat)
    requires ExpLaws(e) && |states| == |queries| && Rows(queries, dim)
    requires Rows(keys, dim) && Rows(values, dim) && |values| == |keys| && n < |keys|
    requires GroupStands(e, states, queries, dim, keys[..n], values[..n], scale) && Sized(states, dim)
    ensures var states' := PushAll(e, states, queries, dim, keys[n], values[n], scale);
            GroupStands(e, states', queries, dim, keys[..n + 1], values[..n + 1], scale) && Sized(states', dim)
  {
    hide ExpLaws, ScoreOf, ScoresOf;
    var states' := PushAll(e, states, queries, dim, keys[n], values[n], scale);
    assert values[..n + 1] == values[..n] + [values[n]];
    forall g | 0 <= g < |states|
      ensures StandsFor(e, states'[g], ScoresOf(queries[g], keys[..n + 1], scale), values[..n + 1], dim)
      ensures |states'[g].acc| == dim
    {
      OneMoreScore(queries[g], keys, scale, n);
      var scores := ScoresOf(queries[g], keys[..n], scale);
      PushStandsFor(e, states[g], scores, values[..n], dim, ScoreOf(queries[g], keys[n], scale), values[n]);
    }
  }

  lemma NothingStands(e: Exp, states: seq<State>, queries: seq<Row>, dim: nat, keys: seq<Row>, values: seq<Row>, scale: real)
    requires |states| == |queries| && Rows(queries, dim) && Rows(keys, dim) && Rows(values, dim) && |values| == |keys|
    requires forall g :: 0 <= g < |states| ==> states[g] == EmptyState(dim)
    ensures GroupStands(e, states, queries, dim, keys[..0], values[..0], scale) && Sized(states, dim)
  {}

  /** `std::fill` over the three buffers. */
  method Reset(dim: nat, maxScore: array<Score>, denom: array<real>, accumulator: array<Row>)
    requires maxScore.Length == denom.Length == accumulator.Length
    modifies maxScore, denom, accumulator
    ensures forall g :: 0 <= g < maxScore.Length ==> StateOf(maxScore, denom, accumulator, g) == EmptyState(dim)
  {
    var g := 0;
    while g < maxScore.Length
      invariant g <= maxScore.Length
      invariant forall k :: 0 <= k < g ==> maxScore[k] == NegInf && denom[k] == 0.0 && accumulator[k] == Zeros(dim)
    {
      maxScore[g], denom[g], accumulator[g] := NegInf, 0.0, Zeros(dim);
      g := g + 1;
    }
  }

  /** The single pass over one kv head's blocks. */
  method OnlinePass(v: CacheView, p: Params, frames: seq<Frame>, head: nat, e: Exp, queries: seq<Row>,
                    maxScore: array<Score>, denom: array<real>, accumulator: array<Row>) returns (ok: bool)
    requires ExpLaws(e) && ValidView(v) && WellSized(v) && FramesOf(v, p, frames) && Resolved(v, p) && p.contextLen > 0
    requires head < Shape(v).numKvHeads && Rows(queries, Shape(v).headDim)
    requires maxScore.Length == denom.Length == accumulator.Length == |queries|
    modifies maxScore, denom, accumulator
    ensures ok <==> Stored(v, p)
    ensures ok ==> GroupStands(e, States(maxScore, denom, accumulator), queries, Shape(v).headDim,
                               HeadRows(v, p, Key, head), HeadRows(v, p, Value, head), p.scale)
  {
    hide ExpLaws, ElementCount, WellSized, FramesOf, Resolved, Stored, BlockFrame, LogicalBlocks, VectorAt, GroupStands, PushAll, Sized;
    ok := true;
    ShapePositive(v);
    FrameCount(v, p, frames);
    BlockBounds(v, p, 0);
    var dim := Shape(v).headDim;
    Reset(dim, maxScore, denom, accumulator);
    ghost var keys := if Stored(v, p) then HeadRows(v, p, Key, head) else [];
    ghost var values := if Stored(v, p) then HeadRows(v, p, Value, head) else [];
    NothingStands(e, States(maxScore, denom, accumulator), queries, dim, keys, values, p.scale);
    var token := 0;
    var logical := 0;
    while logical < |frames|
      invariant logical <= |frames| && token <= p.contextLen
      invariant token == (if logical < |frames| then logical * Shape(v).tokensPerBlock else p.contextLen)
      invariant logical > 0 ==> Stored(v, p)
      invariant Sized(States(maxScore, denom, accumulator), dim)
      invariant Stored(v, p) ==> GroupStands(e, States(maxScore, denom, accumulator), queries, dim, keys[..token], values[..token], p.scale)
    {
      var begin, end := Bounds(v, p, logical);
      while token < end
        invariant begin <= token <= end && (token > begin ==> Stored(v, p))
        invariant Sized(States(maxScore, denom, accumulator), dim)
        invariant Stored(v, p) ==> GroupStands(e, States(maxScore, denom, accumulator), queries, dim, keys[..token], values[..token], p.scale)
      {
        VectorAtIs(v, p, frames, Key, logical, token, head);
        VectorAtIs(v, p, frames, Value, logical, token, head);
        var key := VectorAt(Shape(v), frames[logical], OffsetLayer(v, p.layer), Key, token - begin, head);
        var value := VectorAt(Shape(v), frames[logical], OffsetLayer(v, p.layer), Value, token - begin, head);
        if key.None? || value.None? {
          ok := false;
          return;
        }
        PushedGroupStands(e, States(maxScore, denom, accumulator), queries, dim, keys, values, p.scale, token);
        PushGroup(e, queries, dim, key.value, value.value, p.scale, maxScore, denom, accumulator);
        token := token + 1;
      }
      logical := logical + 1;
    }
    if Stored(v, p) {
      assert keys[..token] == keys && values[..token] == values;
    }
  }

  // ---- Two passes ---------------------------------------------------------------------------------------

  /** Scores one key for every member, keeping each member's running maximum. */
  method ScoreGroup(queries: seq<Row>, dim: nat, key: Row, scale: real, scores: array<seq<real>>, maxScore: array<Score>)
    requires scores.Length == maxScore.Length == |queries| && Rows(queries, dim) && |key| == dim
    modifies scores, maxScore
    ensures forall g :: 0 <= g < |queries| ==> scores[g] == old(scores[g]) + [ScoreOf(queries[g], key, scale)]
    ensures forall g :: 0 <= g < |queries| ==> maxScore[g] == MaxScore(old(maxScore[g]), Fin(ScoreOf(queries[g], key, scale)))
  {
    hide ScoreOf;
    var g := 0;
    while g < |queries|
      invariant g <= |queries|
      invariant forall k :: g <= k < |queries| ==> scores[k] == old(scores[k]) && maxScore[k] == old(maxScore[k])
      invariant forall k :: 0 <= k < g ==> scores[k] == old(scores[k]) + [ScoreOf(queries[k], key, scale)]
      invariant forall k :: 0 <= k < g ==> maxScore[k] == MaxScore(old(maxScore[k]), Fin(ScoreOf(queries[k], key, scale)))
    {
      var dot := DotHead(queries[g], key);
      var score := scale * dot;
      ScoreIs(queries[g], key, scale, score);
      scores[g] := scores[g] + [score];
      maxScore[g] := MaxScore(maxScore[g], Fin(score));
      g := g + 1;
    }
  }

  /** After the first pass over some keys. */
  ghost predicate GroupScored(scores: seq<seq<real>>, maxScore: seq<Score>, queries: seq<Row>, dim: nat, keys: seq<Row>, scale: real)
    requires |scores| == |maxScore| == |queries| && Rows(queries, dim) && Rows(keys, dim)
  {
    forall g :: 0 <= g < |queries| ==> scores[g] == ScoresOf(queries[g], keys, scale) && maxScore[g] == MaxOf(scores[g])
  }

  lemma ScoredOneMore(scores: seq<seq<real>>, maxScore: seq<Score>, scores': seq<seq<real>>, maxScore': seq<Score>,
                      queries: seq<Row>, dim: nat, keys: seq<Row>, scale: real, n: nat)
    requires |scores| == |maxScore| == |scores'| == |maxScore'| == |queries| && Rows(queries, dim) && Rows(keys, dim) && n < |keys|
    requires GroupScored(scores, maxScore, queries, dim, keys[..n], scale)
    requires forall g :: 0 <= g < |queries| ==> scores'[g] == scores[g] + [ScoreOf(queries[g], keys[n], scale)]
    requires forall g :: 0 <= g < |queries| ==> maxScore'[g] == MaxScore(maxScore[g], Fin(ScoreOf(queries[g], keys[n], scale)))
    ensures GroupScored(scores', maxScore', queries, dim, keys[..n + 1], scale)
  {
    hide ScoreOf, ScoresOf;
    forall g | 0 <= g < |queries|
      ensures scores'[g] == ScoresOf(queries[g], keys[..n + 1], scale) && maxScore'[g] == MaxOf(scores'[g])
    {
      OneMoreScore(queries[g], keys, scale, n);
      AppendMax(scores[g], ScoreOf(queries[g], keys[n], scale));
    }
  }

  lemma NothingScored(scores: seq<seq<real>>, maxScore: seq<Score>, queries: seq<Row>, dim: nat, keys: seq<Row>, scale: real)
    requires |scores| == |maxScore| == |queries| && Rows(queries, dim) && Rows(keys, dim)
    requires forall g :: 0 <= g < |queries| ==> scores[g] == [] && maxScore[g] == NegInf
    ensures GroupScored(scores, maxScore, queries, dim, keys[..0], scale)
  {}

  method ScorePass(v: CacheView, p: Params, frames: seq<Frame>, head: nat, queries: seq<Row>,
                   scores: array<seq<real>>, maxScore: array<Score>) returns (ok: bool)
    requires ValidView(v) && WellSized(v) && FramesOf(v, p, frames) && Resolved(v, p) && p.contextLen > 0
    requires head < Shape(v).numKvHeads && Rows(queries, Shape(v).headDim)
    requires scores.Length == maxScore.Length == |queries|
    requires forall g :: 0 <= g < |queries| ==> scores[g] == [] && maxScore[g] == NegInf
    modifies scores, maxScore
    ensures ok <==> Stored(v, p)
    ensures ok ==> GroupScored(scores[..], maxScore[..], queries, Shape(v).headDim, HeadRows(v, p, Key, head), p.scale)
  {
    hide ElementCount, WellSized, FramesOf, Resolved, Stored, BlockFrame, LogicalBlocks, VectorAt, GroupScored, ScoreOf, MaxScore;
    ok := true;
    ShapePositive(v);
    FrameCount(v, p, frames);
    BlockBounds(v, p, 0);
    var dim := Shape(v).headDim;
    ghost var keys := if Stored(v, p) then HeadRows(v, p, Key, head) else [];
    NothingScored(scores[..], maxScore[..], queries, dim, keys, p.scale);
    var token := 0;
    var logical := 0;
    while logical < |frames|
      invariant logical <= |frames| && token <= p.contextLen
      invariant token == (if logical < |frames| then logical * Shape(v).tokensPerBlock else p.contextLen)
      invariant logical > 0 ==> Stored(v, p)
      invariant Stored(v, p) ==> GroupScored(scores[..], maxScore[..], queries, dim, keys[..token], p.scale)
    {
      var begin, end := Bounds(v, p, logical);
      while token < end
        invariant begin <= token <= end && (token > begin ==> Stored(v, p))
        invariant Stored(v, p) ==> GroupScored(scores[..], maxScore[..], queries, dim, keys[..token], p.scale)
      {
        VectorAtIs(v, p, frames, Key, logical, token, head);
        var key := VectorAt(Shape(v), frames[logical], OffsetLayer(v, p.layer), Key, token - begin, head);
        if key.None? {
          ok := false;
          return;
        }
        ghost var s, m := scores[..], maxScore[..];
        ScoreGroup(queries, dim, key.value, p.scale, scores, maxScore);
        ScoredOneMore(s, m, scores[..], maxScore[..], queries, dim, keys, p.scale, token);
        token := token + 1;
      }
      logical := logical + 1;
    }
    if Stored(v, p) {
      assert keys[..token] == keys;
    }
  }

  /** Weighs one value for every member, relative to that member's maximum. */
  method WeighGroup(e: Exp, token: nat, dim: nat, scores: seq<seq<real>>, maxScore: seq<Score>, value: Row,
                    denom: array<real>, accumulator: array<Row>)
    requires denom.Length == accumulator.Length == |scores| == |maxScore| && |value| == dim
    requires forall g :: 0 <= g < |scores| ==> token < |scores[g]| && maxScore[g].Fin? && |accumulator[g]| == dim
    modifies denom, accumulator
    ensures forall g :: 0 <= g < |scores| ==> denom[g] == old(denom[g]) + ExpDiff(e, Fin(scores[g][token]), maxScore[g])
    ensures forall g :: 0 <= g < |scores| ==>
              accumulator[g] == Axpy(old(accumulator[g]), value, ExpDiff(e, Fin(scores[g][token]), maxScore[g]))
  {
    hide ExpDiff, Axpy;
    var g := 0;
    while g < |scores|
      invariant g <= |scores|
      invariant forall k :: g <= k < |scores| ==> denom[k] == old(denom[k]) && accumulator[k] == old(accumulator[k])
      invariant forall k :: 0 <= k < g ==> denom[k] == old(denom[k]) + ExpDiff(e, Fin(scores[k][token]), maxScore[k])
      invariant forall k :: 0 <= k < g ==>
                  accumulator[k] == Axpy(old(accumulator[k]), value, ExpDiff(e, Fin(scores[k][token]), maxScore[k]))
    {
      var weight := ExpDiff(e, Fin(scores[g][token]), maxScore[g]);
      denom[g] := denom[g] + weight;
      accumulator[g] := AxpyHead(accumulator[g], value, weight);
      g := g + 1;
    }
  }

  /** Every member's sums over the first n tokens, relative to its own maximum. */
  ghost predicate GroupWeighed(e: Exp, scores: seq<seq<real>>, maxScore: seq<Score>, values: seq<Row>, dim: nat, n: nat,
                               denom: seq<real>, accumulator: seq<Row>)
    requires |denom| == |accumulator| == |scores| == |maxScore| && Rows(values, dim) && n <= |values|
    requires forall g :: 0 <= g < |scores| ==> |scores[g]| == |values| && maxScore[g].Fin?
  {
    forall g :: 0 <= g < |scores| ==> Weighed(e, scores[g], values, dim, n, maxScore[g].r, denom[g], accumulator[g])
  }

  method WeighPass(v: CacheView, p: Params, frames: seq<Frame>, head: nat, e: Exp, scores: seq<seq<real>>, maxScore: seq<Score>,
                   denom: array<real>, accumulator: array<Row>)
    requires ValidView(v) && WellSized(v) && FramesOf(v, p, frames) && Resolved(v, p) && Stored(v, p) && p.contextLen > 0
    requires head < Shape(v).numKvHeads
    requires denom.Length == accumulator.Length == |scores| == |maxScore|
    requires forall g :: 0 <= g < |scores| ==> |scores[g]| == p.contextLen && maxScore[g].Fin?
    requires forall g :: 0 <= g < |scores| ==> denom[g] == 0.0 && accumulator[g] == Zeros(Shape(v).headDim)
    modifies denom, accumulator
    ensures GroupWeighed(e, scores, maxScore, HeadRows(v, p, Value, head), Shape(v).headDim, p.contextLen, denom[..], accumulator[..])
  {
    hide ElementCount, WellSized, FramesOf, Resolved, Stored, BlockFrame, LogicalBlocks, VectorAt, Weights, Weighted, ExpDiff, Axpy, Weighed;
    ShapePositive(v);
    FrameCount(v, p, frames);
    BlockBounds(v, p, 0);
    var dim := Shape(v).headDim;
    ghost var values := HeadRows(v, p, Value, head);
    forall g | 0 <= g < |scores|
      ensures Weighed(e, scores[g], values, dim, 0, maxScore[g].r, denom[g], accumulator[g])
    {
      NothingWeighed(e, scores[g], values, dim, maxScore[g].r);
    }
    var token := 0;
    var logical := 0;
    while logical < |frames|
      invariant logical <= |frames| && token <= p.contextLen
      invariant token == (if logical < |frames| then logical * Shape(v).tokensPerBlock else p.contextLen)
      invariant GroupWeighed(e, scores, maxScore, values, dim, token, denom[..], accumulator[..])
    {
      var begin, end := Bounds(v, p, logical);
      while token < end
        invariant begin <= token <= end
        invariant GroupWeighed(e, scores, maxScore, values, dim, token, denom[..], accumulator[..])
      {
        VectorAtIs(v, p, frames, Value, logical, token, head);
        var value := VectorAt(Shape(v), frames[logical], OffsetLayer(v, p.layer), Value, token - begin, head);
        forall g | 0 <= g < |scores|
          ensures |accumulator[g]| == dim
        {
          assert Weighed(e, scores[g], values, dim, token, maxScore[g].r, denom[..][g], accumulator[..][g]);
          WeighedSize(e, scores[g], values, dim, token, maxScore[g].r, denom[g], accumulator[g]);
        }
        ghost var ds, accs := denom[..], accumulator[..];
        WeighGroup(e, token, dim, scores, maxScore, value.value, denom, accumulator);
        forall g | 0 <= g < |scores|
          ensures Weighed(e, scores[g], values, dim, token + 1, maxScore[g].r, denom[g], accumulator[g])
        {
          assert Weighed(e, scores[g], values, dim, token, maxScore[g].r, ds[g], accs[g]);
          WeighedStep(e, scores[g], values, dim, token, maxScore[g], ds[g], accs[g]);
        }
        token := token + 1;
      }
      logical := logical + 1;
    }
  }

  // ---- Whole kernels ------------------------------------------------------------------------------------------

  lemma InverseDivides(acc: Row, sum: real)
    requires sum != 0.0
    ensures Scaled(acc, 1.0 / sum) == Divided(acc, sum)
  {
    var inv := 1.0 / sum;
    var a, b := Scaled(acc, inv), Divided(acc, sum);
    forall d | 0 <= d < |acc|
      ensures a[d] == b[d]
    {
      TimesInverse(acc[d], sum);
      assert a[d] == acc[d] * inv;
      assert b[d] == acc[d] / sum;
    }
  }

  lemma TimesInverse(x: real, y: real)
    requires y != 0.0
    ensures x * (1.0 / y) == x / y
  {
    var q := 1.0 / y;
    assert q * y == 1.0;
    Regroup(x, q, y);
    DivideBack(x, y, x * q);
  }

  /** Stores a finished row. */
  method StoreRow(out: array<real>, base: nat, row: Row)
    requires base + |row| <= out.Length
    modifies out
    ensures out[..] == old(out[..base]) + row + old(out[base + |row|..])
  {
    var dim := 0;
    while dim < |row|
      invariant dim <= |row|
      invariant forall k :: 0 <= k < base ==> out[k] == old(out[k])
      invariant forall k :: base + dim <= k < out.Length ==> out[k] == old(out[k])
      invariant forall d :: 0 <= d < dim ==> out[base + d] == row[d]
    {
      out[base + dim] := row[dim];
      dim := dim + 1;
    }
    assert out[..base] == old(out[..base]);
    assert out[base + dim..] == old(out[base + dim..]);
    assert out[base..base + dim] == row;
    assert out[..] == out[..base] + out[base..base + dim] + out[base + dim..];
  }

  lemma HeadOfGroup(v: CacheView, eb: nat, p: Params, kvHead: nat, g: nat)
    requires ArgsOk(v, eb, p) && kvHead < Shape(v).numKvHeads
    ensures g < GroupSize(v, p) ==>
              kvHead * GroupSize(v, p) + g < p.numQueryHeads && (kvHead * GroupSize(v, p) + g) / GroupSize(v, p) == kvHead
    ensures (kvHead + 1) * GroupSize(v, p) == kvHead * GroupSize(v, p) + GroupSize(v, p) <= p.numQueryHeads
  {
    HeadInGroup(v, eb, p, 0);
    var n := GroupSize(v, p);
    Swap(n, Shape(v).numKvHeads);
    RowFits(kvHead, Shape(v).numKvHeads, n);
    if g < n {
      Digit(kvHead, g, n);
    }
  }

  ghost predicate IsQuery(query: seq<real>, dim: nat, h: nat, q: Row) {
    h * dim + dim <= |query| && q == QueryRow(query, dim, h)
  }

  /** `q_of`: one head's query row. */
  method QueryOf(query: seq<real>, dim: nat, h: nat, n: nat) returns (q: Row)
    requires h < n && |query| == n * dim
    ensures |q| == dim && IsQuery(query, dim, h, q)
  {
    RowFits(h, n, dim);
    q := QueryRow(query, dim, h);
  }

  method GroupQueries(query: seq<real>, dim: nat, first: nat, group: nat, n: nat) returns (queries: seq<Row>)
    requires first + group <= n && |query| == n * dim
    ensures |queries| == group && Rows(queries, dim)
    ensures forall g :: 0 <= g < group ==> IsQuery(query, dim, first + g, queries[g])
  {
    hide IsQuery;
    queries := [];
    var g := 0;
    while g < group
      invariant g <= group && |queries| == g && Rows(queries, dim)
      invariant forall k :: 0 <= k < g ==> IsQuery(query, dim, first + k, queries[k])
    {
      var q := QueryOf(query, dim, first + g, n);
      queries := queries + [q];
      g := g + 1;
    }
  }

  /** The first n query heads have been written. */
  ghost predicate Done(v: CacheView, eb: nat, p: Params, e: Exp, query: seq<real>, n: nat, out: seq<real>)
    requires ExpLaws(e) && WellSized(v) && CanAttend(v, eb, p) && |query| == p.numQueryHeads * Shape(v).headDim
  {
    n <= p.numQueryHeads && n * Shape(v).headDim <= |out| && out[..n * Shape(v).headDim] == Output(v, eb, p, e, query, n)
  }

  lemma NoneDone(v: CacheView, eb: nat, p: Params, e: Exp, query: seq<real>, out: seq<real>)
    requires ExpLaws(e) && WellSized(v) && CanAttend(v, eb, p) && |query| == p.numQueryHeads * Shape(v).headDim
    ensures Done(v, eb, p, e, query, 0, out)
  {
    hide Output;
    NoRowsYet(v, eb, p, e, query);
  }

  lemma AllDone(v: CacheView, eb: nat, p: Params, e: Exp, query: seq<real>, n: nat, out: seq<real>)
    requires ExpLaws(e) && WellSized(v) && CanAttend(v, eb, p) && |query| == |out| == p.numQueryHeads * Shape(v).headDim
    requires n == p.numQueryHeads && Done(v, eb, p, e, query, n, out)
    ensures out == Output(v, eb, p, e, query, p.numQueryHeads)
  {
    hide Output;
    assert out[..n * Shape(v).headDim] == out;
  }

  lemma OneMoreDone(v: CacheView, eb: nat, p: Params, e: Exp, query: seq<real>, h: nat, before: seq<real>, after: seq<real>, row: Row)
    requires ExpLaws(e) && WellSized(v) && CanAttend(v, eb, p) && h < p.numQueryHeads
    requires |query| == p.numQueryHeads * Shape(v).headDim == |before| == |after|
    requires Done(v, eb, p, e, query, h, before) && row == HeadOutput(v, eb, p, e, query, h)
    requires h * Shape(v).headDim + |row| <= |before|
    requires after == before[..h * Shape(v).headDim] + row + before[h * Shape(v).headDim + |row|..]
    ensures Done(v, eb, p, e, query, h + 1, after)
  {
    hide Output, HeadOutput, ExpLaws, CanAttend, WellSized;
    RowJoins(v, eb, p, e, query, h, h * Shape(v).headDim, before, after, row);
  }

  /** Writes one group's rows, multiplying by the inverse denominator. */
  method WriteGroup(v: CacheView, eb: nat, query: seq<real>, p: Params, e: Exp, kvHead: nat, first: nat, queries: seq<Row>,
                    ghost maxScore: seq<Score>, denom: array<real>, accumulator: array<Row>, out: array<real>)
    requires ExpLaws(e) && WellSized(v) && CanAttend(v, eb, p) && kvHead < Shape(v).numKvHeads
    requires |query| == out.Length == p.numQueryHeads * Shape(v).headDim
    requires first == kvHead * GroupSize(v, p)
    requires |queries| == |maxScore| == denom.Length == accumulator.Length == GroupSize(v, p)
    requires Rows(queries, Shape(v).headDim) && denom != out
    requires forall g :: 0 <= g < |queries| ==> IsQuery(query, Shape(v).headDim, first + g, queries[g])
    requires forall g :: 0 <= g < |queries| ==>
               StandsFor(e, State(maxScore[g], denom[g], accumulator[g]), ScoresOf(queries[g], HeadRows(v, p, Key, kvHead), p.scale),
                         HeadRows(v, p, Value, kvHead), Shape(v).headDim)
    requires Done(v, eb, p, e, query, first, out[..])
    modifies out
    ensures Done(v, eb, p, e, query, first + GroupSize(v, p), out[..])
  {
    hide ExpLaws, WellSized, ElementCount, Stored, Resolved, HeadOutput, Attended, Output, StandsFor, IsQuery, HeadRows, ScoresOf, Done;
    var dim := Shape(v).headDim;
    var g := 0;
    while g < |queries|
      invariant g <= |queries|
      invariant Done(v, eb, p, e, query, first + g, out[..])
    {
      HeadOfGroup(v, eb, p, kvHead, g);
      RowFits(first + g, p.numQueryHeads, dim);
      FinishedRow(v, eb, p, e, query, kvHead, g, queries[g], State(maxScore[g], denom[g], accumulator[g]));
      var inv := 1.0 / denom[g];
      var row := ScaleHead(accumulator[g], inv);
      ghost var before := out[..];
      StoreRow(out, (first + g) * dim, row);
      OneMoreDone(v, eb, p, e, query, first + g, before, out[..], row);
      g := g + 1;
    }
  }

  lemma FinishedRow(v: CacheView, eb: nat, p: Params, e: Exp, query: seq<real>, kvHead: nat, g: nat, q: Row, st: State)
    requires ExpLaws(e) && WellSized(v) && CanAttend(v, eb, p) && kvHead < Shape(v).numKvHeads && g < GroupSize(v, p)
    requires |query| == p.numQueryHeads * Shape(v).headDim && |q| == Shape(v).headDim
    requires IsQuery(query, Shape(v).headDim, kvHead * GroupSize(v, p) + g, q)
    requires StandsFor(e, st, ScoresOf(q, HeadRows(v, p, Key, kvHead), p.scale), HeadRows(v, p, Value, kvHead), Shape(v).headDim)
    ensures kvHead * GroupSize(v, p) + g < p.numQueryHeads && st.sum != 0.0
    ensures Scaled(st.acc, 1.0 / st.sum) == HeadOutput(v, eb, p, e, query, kvHead * GroupSize(v, p) + g)
    ensures |Scaled(st.acc, 1.0 / st.sum)| == Shape(v).headDim
  {
    hide ExpLaws, WellSized, ElementCount, Stored, Resolved, HeadOutput, Attended, StandsFor, ScoresOf;
    HeadOfGroup(v, eb, p, kvHead, g);
    HeadOutputIs(v, eb, p, e, query, kvHead * GroupSize(v, p) + g);
    DividedIsAttended(e, st, q, HeadRows(v, p, Key, kvHead), HeadRows(v, p, Value, kvHead), p.scale);
    InverseDivides(st.acc, st.sum);
  }

  /** `paged_attention_decode_fast` without its vector instructions: group-fused, online softmax. */
  method DecodeFast(v: CacheView, eb: nat, query: seq<real>, p: Params, e: Exp, out: array<real>) returns (ok: bool)
    requires ExpLaws(e) && WellSized(v)
    requires |query| == out.Length == p.numQueryHeads * Shape(v).headDim
    modifies out
    ensures ok <==> CanAttend(v, eb, p)
    ensures ok ==> out[..] == Output(v, eb, p, e, query, p.numQueryHeads)
    ensures !ok ==> out[..] == old(out[..])
  {
    hide ExpLaws, WellSized, ElementCount, Stored, Resolved, HeadOutput, Attended, Output, FramesOf, StandsFor, IsQuery, HeadRows, ScoresOf, Done;
    if !ArgsOk(v, eb, p) {
      return false;
    }
    ShapePositive(v);
    HeadInGroup(v, eb, p, 0);
    var dim, group, kvHeads := Shape(v).headDim, GroupSize(v, p), Shape(v).numKvHeads;
    var frames := ResolveFrames(v, p);
    if frames.None? {
      return false;
    }
    var maxScore := new Score[group](_ => NegInf);
    var denom := new real[group](_ => 0.0);
    var accumulator := new Row[group](_ => Zeros(dim));
    var kvHead, first := 0, 0;
    if Stored(v, p) {
      NoneDone(v, eb, p, e, query, out[..]);
    }
    while kvHead < kvHeads
      invariant kvHead <= kvHeads && fresh(maxScore) && fresh(denom) && fresh(accumulator)
      invariant kvHead == 0 ==> out[..] == old(out[..])
      invariant kvHead > 0 ==> Stored(v, p)
      invariant first == kvHead * group <= p.numQueryHeads
      invariant Stored(v, p) ==> Done(v, eb, p, e, query, first, out[..])
    {
      HeadOfGroup(v, eb, p, kvHead, 0);
      var queries := GroupQueries(query, dim, first, group, p.numQueryHeads);
      var found := OnlinePass(v, p, frames.value, kvHead, e, queries, maxScore, denom, accumulator);
      if !found {
        return false;
      }
      WriteGroup(v, eb, query, p, e, kvHead, first, queries, maxScore[..], denom, accumulator, out);
      kvHead := kvHead + 1;
      first := first + group;
    }
    Swap(group, kvHeads);
    AllDone(v, eb, p, e, query, first, out[..]);
    ok := true;
  }

  lemma ScoredSizes(scores: seq<seq<real>>, maxScore: seq<Score>, queries: seq<Row>, dim: nat, keys: seq<Row>, scale: real)
    requires |scores| == |maxScore| == |queries| && Rows(queries, dim) && Rows(keys, dim) && keys != []
    requires GroupScored(scores, maxScore, queries, dim, keys, scale)
    ensures forall g :: 0 <= g < |scores| ==> |scores[g]| == |keys| && maxScore[g].Fin?
  {
    forall g | 0 <= g < |scores|
      ensures maxScore[g].Fin?
    {
      MaxOfFinite(scores[g]);
    }
  }

  lemma WeighedGroupStands(e: Exp, scores: seq<seq<real>>, maxScore: seq<Score>, queries: seq<Row>, dim: nat,
                           keys: seq<Row>, values: seq<Row>, scale: real, denom: seq<real>, accumulator: seq<Row>)
    requires |scores| == |maxScore| == |queries| == |denom| == |accumulator|
    requires Rows(queries, dim) && Rows(keys, dim) && Rows(values, dim) && |keys| == |values| > 0
    requires GroupScored(scores, maxScore, queries, dim, keys, scale)
    requires forall g :: 0 <= g < |scores| ==> |scores[g]| == |values| && maxScore[g].Fin?
    requires GroupWeighed(e, scores, maxScore, values, dim, |values|, denom, accumulator)
    ensures forall g :: 0 <= g < |queries| ==>
              StandsFor(e, State(maxScore[g], denom[g], accumulator[g]), ScoresOf(queries[g], keys, scale), values, dim)
  {
    hide Weighed, StandsFor, ScoresOf, MaxOf;
    forall g | 0 <= g < |queries|
      ensures StandsFor(e, State(maxScore[g], denom[g], accumulator[g]), ScoresOf(queries[g], keys, scale), values, dim)
    {
      WeighedStands(e, scores[g], values, dim, maxScore[g], denom[g], accumulator[g]);
    }
  }

  method Clear(dim: nat, scores: array<seq<real>>, maxScore: array<Score>, denom: array<real>, accumulator: array<Row>)
    requires scores.Length == maxScore.Length == denom.Length == accumulator.Length && scores != accumulator
    modifies scores, maxScore, denom, accumulator
    ensures forall g :: 0 <= g < scores.Length ==> scores[g] == [] && maxScore[g] == NegInf
    ensures forall g :: 0 <= g < scores.Length ==> denom[g] == 0.0 && accumulator[g] == Zeros(dim)
  {
    var g := 0;
    while g < scores.Length
      invariant g <= scores.Length
      invariant forall k :: 0 <= k < g ==> scores[k] == [] && maxScore[k] == NegInf
      invariant forall k :: 0 <= k < g ==> denom[k] == 0.0 && accumulator[k] == Zeros(dim)
    {
      scores[g], maxScore[g], denom[g], accumulator[g] := [], NegInf, 0.0, Zeros(dim);
      g := g + 1;
    }
  }

  /** `paged_attention_decode_fused`: group-fused, two passes. */
  method DecodeFused(v: CacheView, eb: nat, query: seq<real>, p: Params, e: Exp, out: array<real>) returns (ok: bool)
    requires ExpLaws(e) && WellSized(v)
    requires |query| == out.Length == p.numQueryHeads * Shape(v).headDim
    modifies out
    ensures ok <==> CanAttend(v, eb, p)
    ensures ok ==> out[..] == Output(v, eb, p, e, query, p.numQueryHeads)
    ensures !ok ==> out[..] == old(out[..])
  {
    hide ExpLaws, WellSized, ElementCount, Stored, Resolved, HeadOutput, Attended, Output, FramesOf, StandsFor, IsQuery, ScoresOf, Done, GroupScored, GroupWeighed, KVRow;
    if !ArgsOk(v, eb, p) {
      return false;
    }
    ShapePositive(v);
    HeadInGroup(v, eb, p, 0);
    var dim, group, kvHeads := Shape(v).headDim, GroupSize(v, p), Shape(v).numKvHeads;
    var frames := ResolveFrames(v, p);
    if frames.None? {
      return false;
    }
    var scores := new seq<real>[group](_ => []);
    var maxScore := new Score[group](_ => NegInf);
    var denom := new real[group](_ => 0.0);
    var accumulator := new Row[group](_ => Zeros(dim));
    var kvHead, first := 0, 0;
    if Stored(v, p) {
      NoneDone(v, eb, p, e, query, out[..]);
    }
    while kvHead < kvHeads
      invariant kvHead <= kvHeads && fresh(scores) && fresh(maxScore) && fresh(denom) && fresh(accumulator)
      invariant kvHead == 0 ==> out[..] == old(out[..])
      invariant kvHead > 0 ==> Stored(v, p)
      invariant first == kvHead * group <= p.numQueryHeads
      invariant Stored(v, p) ==> Done(v, eb, p, e, query, first, out[..])
    {
      HeadOfGroup(v, eb, p, kvHead, 0);
      var queries := GroupQueries(query, dim, first, group, p.numQueryHeads);
      Clear(dim, scores, maxScore, denom, accumulator);
      var found := ScorePass(v, p, frames.value, kvHead, queries, scores, maxScore);
      if !found {
        return false;
      }
      ScoredSizes(scores[..], maxScore[..], queries, dim, HeadRows(v, p, Key, kvHead), p.scale);
      WeighPass(v, p, frames.value, kvHead, e, scores[..], maxScore[..], denom, accumulator);
      WeighedGroupStands(e, scores[..], maxScore[..], queries, dim, HeadRows(v, p, Key, kvHead), HeadRows(v, p, Value, kvHead), p.scale,
                         denom[..], accumulator[..]);
      WriteGroup(v, eb, query, p, e, kvHead, first, queries, maxScore[..], denom, accumulator, out);
      kvHead := kvHead + 1;
      first := first + group;
    }
    Swap(group, kvHeads);
    AllDone(v, eb, p, e, query, first, out[..]);
    ok := true;
  }
}
