/**
  Softmax-weighted sums over the reals.  The exponential is any function with the laws below;
  scores carry an explicit minus infinity.
 */
module Softmax {
  import opened Vectors

  type Exp = real -> real

  ghost predicate ExpLaws(e: Exp) {
    && e(0.0) == 1.0
    && (forall x: real :: e(x) > 0.0)
    && (forall x: real, y: real :: e(x + y) == e(x) * e(y))
  }

  lemma ExpAdds(e: Exp, x: real, y: real)
    requires ExpLaws(e)
    ensures e(x + y) == e(x) * e(y) && e(x) > 0.0 && e(0.0) == 1.0
  {}

  datatype Score = NegInf | Fin(r: real)

  function MaxScore(a: Score, b: Score): Score {
    if a.NegInf? then b else if b.NegInf? then a else if a.r < b.r then b else a
  }

  /** exp(a - b), where a may be minus infinity and b may not. */
  function ExpDiff(e: Exp, a: Score, b: Score): real
    requires b.Fin?
  {
    if a.NegInf? then 0.0 else e(a.r - b.r)
  }

  // ---- The weighted average ---------------------------------------------------------------------

  function Weights(e: Exp, scores: seq<real>, m: real): real {
    if scores == [] then 0.0
    else Weights(e, scores[..|scores| - 1], m) + e(scores[|scores| - 1] - m)
  }

  function Weighted(e: Exp, scores: seq<real>, values: seq<Row>, m: real, d: nat): real
    requires |values| == |scores| && forall i :: 0 <= i < |values| ==> d < |values[i]|
  {
    if scores == [] then 0.0
    else
      var n := |scores| - 1;
      Weighted(e, scores[..n], values[..n], m, d) + e(scores[n] - m) * values[n][d]
  }

  predicate Rows(values: seq<Row>, dim: nat) {
    forall i :: 0 <= i < |values| ==> |values[i]| == dim
  }

  lemma {:induction false} WeightsPositive(e: Exp, scores: seq<real>, m: real)
    requires ExpLaws(e)
    ensures Weights(e, scores, m) >= 0.0
    ensures scores != [] ==> Weights(e, scores, m) > 0.0
  {
    hide ExpLaws;
    if scores != [] {
      ExpAdds(e, scores[|scores| - 1] - m, 0.0);
      WeightsPositive(e, scores[..|scores| - 1], m);
    }
  }

  /** What attention means: the weighted average of the values, with weights exp(score). */
  function Attention(e: Exp, scores: seq<real>, values: seq<Row>, d: nat): real
    requires |values| == |scores| && forall i :: 0 <= i < |values| ==> d < |values[i]|
    requires Weights(e, scores, 0.0) != 0.0
  {
    Weighted(e, scores, values, 0.0, d) / Weights(e, scores, 0.0)
  }

  lemma Rebased(e: Exp, s: real, m: real, m': real)
    requires ExpLaws(e)
    ensures e(s - m') == e(m - m') * e(s - m)
  {
    hide ExpLaws;
    assert s - m' == (m - m') + (s - m);
    ExpAdds(e, m - m', s - m);
  }

  lemma Factor(a: real, b: real, c: real)
    ensures a * b + a * c == a * (b + c)
  {}

  lemma Regroup(a: real, b: real, c: real)
    ensures a * b * c == a * (b * c)
  {}

  /** Moving the reference point scales every weight alike. */
  lemma {:induction false} RebaseWeights(e: Exp, scores: seq<real>, m: real, m': real)
    requires ExpLaws(e)
    ensures Weights(e, scores, m') == e(m - m') * Weights(e, scores, m)
  {
    hide ExpLaws;
    if scores != [] {
      var n := |scores| - 1;
      RebaseWeights(e, scores[..n], m, m');
      Rebased(e, scores[n], m, m');
      Factor(e(m - m'), Weights(e, scores[..n], m), e(scores[n] - m));
    }
  }

  lemma {:induction false} RebaseWeighted(e: Exp, scores: seq<real>, values: seq<Row>, m: real, m': real, d: nat)
    requires ExpLaws(e) && |values| == |scores| && forall i :: 0 <= i < |values| ==> d < |values[i]|
    ensures Weighted(e, scores, values, m', d) == e(m - m') * Weighted(e, scores, values, m, d)
  {
    hide ExpLaws;
    if scores != [] {
      var n := |scores| - 1;
      RebaseWeighted(e, scores[..n], values[..n], m, m', d);
      Rebased(e, scores[n], m, m');
      Regroup(e(m - m'), e(scores[n] - m), values[n][d]);
      Factor(e(m - m'), Weighted(e, scores[..n], values[..n], m, d), e(scores[n] - m) * values[n][d]);
    }
  }

  lemma CancelCommon(a: real, x: real, y: real, p: real, q: real)
    requires a != 0.0 && y != 0.0 && p == a * x && q == a * y
    ensures q != 0.0 && p / q == x / y
  {
    var r := x / y;
    assert r * y == x;
    Regroup(a, r, y);
    Regroup(r, a, y);
    DivideBack(p, q, r);
  }

  lemma DivideBack(x: real, y: real, q: real)
    requires y != 0.0 && x == q * y
    ensures x / y == q
  {}

  /** The reference point cancels: any common shift of the scores gives the same average. */
  lemma AnyReferencePoint(e: Exp, scores: seq<real>, values: seq<Row>, m: real, d: nat)
    requires ExpLaws(e) && scores != [] && |values| == |scores| && forall i :: 0 <= i < |values| ==> d < |values[i]|
    ensures Weights(e, scores, m) > 0.0 && Weights(e, scores, 0.0) > 0.0
    ensures Weighted(e, scores, values, m, d) / Weights(e, scores, m) == Attention(e, scores, values, d)
  {
    hide ExpLaws, Weights, Weighted;
    WeightsPositive(e, scores, m);
    WeightsPositive(e, scores, 0.0);
    RebaseWeights(e, scores, 0.0, m);
    RebaseWeighted(e, scores, values, 0.0, m, d);
    ExpAdds(e, 0.0 - m, 0.0);
    CancelCommon(e(0.0 - m), Weighted(e, scores, values, 0.0, d), Weights(e, scores, 0.0),
                 Weighted(e, scores, values, m, d), Weights(e, scores, m));
  }

  // ---- Running states --------------------------------------------------------------------------------

  /** What a kernel has accumulated: a reference score, a denominator and a numerator row. */
  datatype State = State(max: Score, sum: real, acc: Row)

  function Zeros(dim: nat): Row { seq(dim, _ => 0.0) }

  function EmptyState(dim: nat): State { State(NegInf, 0.0, Zeros(dim)) }

  function MaxOf(scores: seq<real>): Score {
    if scores == [] then NegInf else MaxScore(MaxOf(scores[..|scores| - 1]), Fin(scores[|scores| - 1]))
  }

  /** The state stands for these tokens: nothing seen, or sums relative to the reference score. */
  ghost predicate StandsFor(e: Exp, st: State, scores: seq<real>, values: seq<Row>, dim: nat)
    requires |values| == |scores| && Rows(values, dim)
  {
    && |st.acc| == dim
    && st.max == MaxOf(scores)
    && if scores == [] then st.sum == 0.0 && forall d :: 0 <= d < dim ==> st.acc[d] == 0.0
       else
         && st.max.Fin?
         && st.sum == Weights(e, scores, st.max.r)
         && forall d :: 0 <= d < dim ==> st.acc[d] == Weighted(e, scores, values, st.max.r, d)
  }

  lemma MaxOfFinite(scores: seq<real>)
    requires scores != []
    ensures MaxOf(scores).Fin?
  {}

  /** Dividing out a state that stands for some tokens gives their attention. */
  lemma StateGivesAttention(e: Exp, st: State, scores: seq<real>, values: seq<Row>, dim: nat, d: nat)
    requires ExpLaws(e) && scores != [] && |values| == |scores| && Rows(values, dim) && d < dim
    requires StandsFor(e, st, scores, values, dim)
    ensures st.sum > 0.0 && Weights(e, scores, 0.0) > 0.0
    ensures st.acc[d] / st.sum == Attention(e, scores, values, d)
  {
    AnyReferencePoint(e, scores, values, st.max.r, d);
  }

  function Scaled(row: Row, factor: real): Row {
    seq(|row|, d requires 0 <= d < |row| => row[d] * factor)
  }

  function Axpy(acc: Row, value: Row, weight: real): Row
    requires |value| == |acc|
  {
    seq(|acc|, d requires 0 <= d < |acc| => acc[d] + weight * value[d])
  }

  lemma AppendWeights(e: Exp, scores: seq<real>, s: real, m: real)
    ensures Weights(e, scores + [s], m) == Weights(e, scores, m) + e(s - m)
  {
    assert (scores + [s])[..|scores|] == scores;
  }

  lemma AppendWeighted(e: Exp, scores: seq<real>, values: seq<Row>, s: real, v: Row, m: real, d: nat)
    requires |values| == |scores| && d < |v| && forall i :: 0 <= i < |values| ==> d < |values[i]|
    ensures Weighted(e, scores + [s], values + [v], m, d) == Weighted(e, scores, values, m, d) + e(s - m) * v[d]
  {
    assert (scores + [s])[..|scores|] == scores;
    assert (values + [v])[..|scores|] == values;
  }

  // ---- Sums relative to a fixed score --------------------------------------------------------------

  /** Sums over the first n tokens, relative to a fixed score. */
  ghost predicate Weighed(e: Exp, scores: seq<real>, values: seq<Row>, dim: nat, n: nat, m: real, denom: real, acc: Row)
    requires |scores| == |values| && Rows(values, dim) && n <= |values|
  {
    && |acc| == dim && denom == Weights(e, scores[..n], m)
    && forall d :: 0 <= d < dim ==> acc[d] == Weighted(e, scores[..n], values[..n], m, d)
  }

  lemma NothingWeighed(e: Exp, scores: seq<real>, values: seq<Row>, dim: nat, m: real)
    requires |scores| == |values| && Rows(values, dim)
    ensures Weighed(e, scores, values, dim, 0, m, 0.0, Zeros(dim))
  {}

  lemma WeighedStep(e: Exp, scores: seq<real>, values: seq<Row>, dim: nat, n: nat, max: Score, denom: real, acc: Row)
    requires |scores| == |values| && Rows(values, dim) && n < |values| && max.Fin?
    requires Weighed(e, scores, values, dim, n, max.r, denom, acc)
    ensures var weight := ExpDiff(e, Fin(scores[n]), max);
            && |acc| == dim && |values[n]| == dim
            && Weighed(e, scores, values, dim, n + 1, max.r, denom + weight, Axpy(acc, values[n], weight))
  {
    hide Weights, Weighted;
    var m, weight := max.r, e(scores[n] - max.r);
    assert scores[..n + 1] == scores[..n] + [scores[n]] && values[..n + 1] == values[..n] + [values[n]];
    AppendWeights(e, scores[..n], scores[n], m);
    forall d | 0 <= d < dim
      ensures Axpy(acc, values[n], weight)[d] == Weighted(e, scores[..n + 1], values[..n + 1], m, d)
    {
      AppendWeighted(e, scores[..n], values[..n], scores[n], values[n], m, d);
    }
  }

  lemma WeighedSize(e: Exp, scores: seq<real>, values: seq<Row>, dim: nat, n: nat, m: real, denom: real, acc: Row)
    requires |scores| == |values| && Rows(values, dim) && n <= |values|
    requires Weighed(e, scores, values, dim, n, m, denom, acc)
    ensures |acc| == dim
  {}

  lemma WeighedStands(e: Exp, scores: seq<real>, values: seq<Row>, dim: nat, max: Score, denom: real, acc: Row)
    requires |scores| == |values| > 0 && Rows(values, dim) && max == MaxOf(scores) && max.Fin?
    requires Weighed(e, scores, values, dim, |values|, max.r, denom, acc)
    ensures StandsFor(e, State(max, denom, acc), scores, values, dim)
  {
    assert scores[..|values|] == scores && values[..|values|] == values;
  }

  lemma AppendMax(scores: seq<real>, s: real)
    ensures MaxOf(scores + [s]) == MaxScore(MaxOf(scores), Fin(s)) && MaxOf(scores + [s]).Fin?
  {
    assert (scores + [s])[..|scores|] == scores;
  }

  /** One token into a state: rescale what is there to the new maximum, add the newcomer. */
  function Push(e: Exp, st: State, s: real, v: Row): State
    requires |v| == |st.acc|
  {
    var newMax := MaxScore(st.max, Fin(s));
    var rescale := ExpDiff(e, st.max, newMax);
    var weight := ExpDiff(e, Fin(s), newMax);
    var acc := if st.max != newMax && st.sum != 0.0 then Scaled(st.acc, rescale) else st.acc;
    State(newMax, st.sum * rescale + weight, Axpy(acc, v, weight))
  }

  /** Online softmax is exact, token by token. */
  lemma PushStandsFor(e: Exp, st: State, scores: seq<real>, values: seq<Row>, dim: nat, s: real, v: Row)
    requires ExpLaws(e) && |values| == |scores| && Rows(values, dim) && |v| == dim
    requires StandsFor(e, st, scores, values, dim)
    ensures Rows(values + [v], dim) && StandsFor(e, Push(e, st, s, v), scores + [s], values + [v], dim)
  {
    hide ExpLaws, Weights, Weighted;
    var st' := Push(e, st, s, v);
    AppendMax(scores, s);
    NothingSeen(e, s);
    if scores != [] {
      PushMaximum(st.max, s);
      PushDenominator(e, st, scores, s);
      forall d | 0 <= d < dim
        ensures st'.acc[d] == Weighted(e, scores + [s], values + [v], st'.max.r, d)
      {
        PushNumerator(e, st, scores, values, s, v, d);
      }
    } else {
      forall d | 0 <= d < dim
        ensures st'.acc[d] == Weighted(e, scores + [s], values + [v], s, d)
      {
        AppendWeighted(e, scores, values, s, v, s, d);
        NoWeights(e, s, values, d);
      }
      AppendWeights(e, scores, s, s);
      NoWeights(e, s, values, 0);
    }
  }

  lemma PushMaximum(max: Score, s: real)
    requires max.Fin?
    ensures MaxScore(max, Fin(s)) == Fin(if max.r < s then s else max.r)
  {}

  lemma NothingSeen(e: Exp, s: real)
    requires ExpLaws(e)
    ensures e(s - s) == 1.0 && MaxScore(NegInf, Fin(s)) == Fin(s)
  {
    hide ExpLaws;
    ExpAdds(e, 0.0, 0.0);
    assert s - s == 0.0;
  }

  lemma NoWeights(e: Exp, m: real, values: seq<Row>, d: nat)
    ensures Weights(e, [], m) == 0.0
    ensures values == [] ==> Weighted(e, [], values, m, d) == 0.0
  {}

  lemma PushDenominator(e: Exp, st: State, scores: seq<real>, s: real)
    requires ExpLaws(e) && st.max.Fin? && st.sum == Weights(e, scores, st.max.r)
    ensures var m' := MaxScore(st.max, Fin(s)).r;
            st.sum * ExpDiff(e, st.max, Fin(m')) + ExpDiff(e, Fin(s), Fin(m')) == Weights(e, scores + [s], m')
  {
    hide ExpLaws, Weights;
    var m' := MaxScore(st.max, Fin(s)).r;
    AppendWeights(e, scores, s, m');
    RebaseWeights(e, scores, st.max.r, m');
  }

  lemma PushNumerator(e: Exp, st: State, scores: seq<real>, values: seq<Row>, s: real, v: Row, d: nat)
    requires ExpLaws(e) && |values| == |scores| && scores != [] && |v| == |st.acc| && d < |v|
    requires forall i :: 0 <= i < |values| ==> d < |values[i]|
    requires st.max.Fin? && st.sum == Weights(e, scores, st.max.r) && st.acc[d] == Weighted(e, scores, values, st.max.r, d)
    ensures var st' := Push(e, st, s, v);
            st'.max.Fin? && st'.acc[d] == Weighted(e, scores + [s], values + [v], st'.max.r, d)
  {
    hide ExpLaws, Weights, Weighted;
    var m' := MaxScore(st.max, Fin(s)).r;
    AppendWeighted(e, scores, values, s, v, m', d);
    RebaseWeighted(e, scores, values, st.max.r, m', d);
    WeightsPositive(e, scores, st.max.r);
    NothingSeen(e, m');
    var rescale, weight := ExpDiff(e, st.max, Fin(m')), ExpDiff(e, Fin(s), Fin(m'));
    var acc := if st.max != Fin(m') then Scaled(st.acc, rescale) else st.acc;
    assert st.sum != 0.0;
    assert acc[d] == rescale * st.acc[d];
    assert Push(e, st, s, v).acc == Axpy(acc, v, weight);
    assert Axpy(acc, v, weight)[d] == acc[d] + weight * v[d];
  }

  // ---- Merging states -----------------------------------------------------------------------------------

  lemma {:induction false} ConcatWeights(e: Exp, a: seq<real>, b: seq<real>, m: real)
    ensures Weights(e, a + b, m) == Weights(e, a, m) + Weights(e, b, m)
  {
    if b == [] {
      assert a + b == a;
    } else {
      var n := |b| - 1;
      assert a + b == (a + b[..n]) + [b[n]];
      AppendWeights(e, a + b[..n], b[n], m);
      ConcatWeights(e, a, b[..n], m);
    }
  }

  lemma {:induction false} ConcatWeighted(e: Exp, a: seq<real>, av: seq<Row>, b: seq<real>, bv: seq<Row>, m: real, d: nat)
    requires |av| == |a| && |bv| == |b|
    requires (forall i :: 0 <= i < |av| ==> d < |av[i]|) && (forall i :: 0 <= i < |bv| ==> d < |bv[i]|)
    ensures Weighted(e, a + b, av + bv, m, d) == Weighted(e, a, av, m, d) + Weighted(e, b, bv, m, d)
  {
    if b == [] {
      assert a + b == a && av + bv == av;
    } else {
      var n := |b| - 1;
      assert a + b == (a + b[..n]) + [b[n]];
      assert av + bv == (av + bv[..n]) + [bv[n]];
      AppendWeighted(e, a + b[..n], av + bv[..n], b[n], bv[n], m, d);
      ConcatWeighted(e, a, av, b[..n], bv[..n], m, d);
    }
  }

  lemma MaxAssociates(a: Score, b: Score, c: Score)
    ensures MaxScore(MaxScore(a, b), c) == MaxScore(a, MaxScore(b, c))
  {}

  lemma {:induction false} ConcatMax(a: seq<real>, b: seq<real>)
    ensures MaxOf(a + b) == MaxScore(MaxOf(a), MaxOf(b))
  {
    if b == [] {
      assert a + b == a;
    } else {
      var n := |b| - 1;
      assert a + b == (a + b[..n]) + [b[n]];
      AppendMax(a + b[..n], b[n]);
      ConcatMax(a, b[..n]);
      AppendMax(b[..n], b[n]);
      assert b[..n] + [b[n]] == b;
      MaxAssociates(MaxOf(a), MaxOf(b[..n]), Fin(b[n]));
    }
  }
}
