/** Rounded-up division, as every block count in the repository computes it, and smaller and larger. */
module Arithmetic {

  function Min(a: nat, b: nat): nat { if a <= b then a else b }

  function Max(a: nat, b: nat): nat { if a >= b then a else b }

  /** For proofs that hide the definitions. */
  lemma MinIs(a: nat, b: nat)
    ensures Min(a, b) == if a <= b then a else b
  {}

  lemma MaxIs(a: nat, b: nat)
    ensures Max(a, b) == if a >= b then a else b
  {}

  function CeilDiv(a: nat, b: nat): (r: nat)
    requires b > 0
  {
    (a + b - 1) / b
  }

  /** CeilDiv is the least number of b-sized pieces that cover a. */
  lemma CeilDivIsLeastCover(a: nat, b: nat, n: nat)
    requires b > 0
    ensures CeilDiv(a, b) <= n <==> a <= n * b
  {
    var q, r := (a + b - 1) / b, (a + b - 1) % b;
    assert a + b - 1 == q * b + r;
    if q <= n {
      assert q * b <= n * b;
    } else {
      assert (n + 1) * b <= q * b;
    }
  }

  lemma CeilDivMonotone(a: nat, a': nat, b: nat)
    requires b > 0 && a <= a'
    ensures CeilDiv(a, b) <= CeilDiv(a', b)
  {
    CeilDivIsLeastCover(a', b, CeilDiv(a', b));
    CeilDivIsLeastCover(a, b, CeilDiv(a', b));
  }

  /** Position p lies in the last of the pieces that cover p + 1 positions. */
  lemma CeilDivOfSuccessor(p: nat, b: nat)
    requires b > 0
    ensures CeilDiv(p + 1, b) == p / b + 1
  {
    var q := p / b;
    assert p == q * b + p % b;
    CeilDivIsLeastCover(p + 1, b, q + 1);
    CeilDivIsLeastCover(p + 1, b, q);
    assert (q + 1) * b == q * b + b;
  }

  lemma WholeBlocks(n: nat, b: nat)
    requires b > 0
    ensures CeilDiv(n * b, b) == n
  {
    CeilDivIsLeastCover(n * b, b, n);
    if n > 0 {
      CeilDivIsLeastCover(n * b, b, n - 1);
      assert (n - 1) * b == n * b - b;
    }
  }

  lemma MulAdd(a: nat, b: nat, k: nat)
    ensures (a + b) * k == a * k + b * k
  {}

  lemma MulMonotone(a: nat, b: nat, k: nat)
    ensures a <= b ==> a * k <= b * k
  {}

  /** Dividing a multiple gives the factor back, and only that factor. */
  lemma DivOfMultiple(n: nat, k: nat)
    requires k > 0
    ensures n * k / k == n && n * k % k == 0
  {
    var q, r := n * k / k, n * k % k;
    assert n * k == q * k + r;
    MulMonotone(q + 1, n, k);
    MulMonotone(n + 1, q, k);
    assert (q + 1) * k == q * k + k && (n + 1) * k == n * k + k;
  }

  lemma DivExact(a: nat, k: nat)
    requires k > 0 && a % k == 0
    ensures a == a / k * k
    ensures a > 0 ==> a / k > 0
  {
    assert a == a / k * k + a % k;
    MulMonotone(a / k, 0, k);
  }
}
