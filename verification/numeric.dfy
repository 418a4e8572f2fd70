/** Real-number helpers shared by the optimizers, the trade replay and the parameter decoder. */
module Numeric {

  function Abs(x: real): (r: real)
    ensures 0.0 <= r
    ensures r == x || r == -x
  {
    if x < 0.0 then -x else x
  }

  function Min(x: real, y: real): real {
    if x <= y then x else y
  }

  function Max(x: real, y: real): real {
    if x <= y then y else x
  }

  /** NumPy's `clip`: the lower bound is applied first and the upper bound last,
      so with `hi < lo` every value becomes `hi`. */
  function Clip(x: real, lo: real, hi: real): (r: real)
    ensures lo <= hi ==> lo <= r <= hi
    ensures lo <= x <= hi ==> r == x
    ensures x < lo && lo <= hi ==> r == lo
    ensures hi < x ==> r == hi
  {
    Min(Max(x, lo), hi)
  }

  /** Clipping is idempotent, whatever the bounds. */
  lemma ClipIdempotent(x: real, lo: real, hi: real)
    ensures Clip(Clip(x, lo, hi), lo, hi) == Clip(x, lo, hi)
  {
  }

  /** Component-wise `clip` of a position against per-dimension bounds. */
  function ClipVec(p: seq<real>, lb: seq<real>, ub: seq<real>): (r: seq<real>)
    requires |p| == |lb| == |ub|
    ensures |r| == |p|
    ensures forall j :: 0 <= j < |p| && lb[j] <= ub[j] ==> lb[j] <= r[j] <= ub[j]
    ensures InBox(p, lb, ub) ==> r == p
  {
    seq(|p|, j requires 0 <= j < |p| => Clip(p[j], lb[j], ub[j]))
  }

  /** Every component of `p` lies between its bounds. */
  predicate InBox(p: seq<real>, lb: seq<real>, ub: seq<real>)
    requires |p| == |lb| == |ub|
  {
    forall j :: 0 <= j < |p| ==> lb[j] <= p[j] <= ub[j]
  }

  /** Clipping a clipped position changes nothing; with well-ordered bounds the
      clipped positions are exactly the positions inside the box. */
  lemma ClipVecIdempotent(p: seq<real>, lb: seq<real>, ub: seq<real>)
    requires |p| == |lb| == |ub|
    ensures ClipVec(ClipVec(p, lb, ub), lb, ub) == ClipVec(p, lb, ub)
  {
    var c := ClipVec(p, lb, ub);
    forall j | 0 <= j < |p|
      ensures ClipVec(c, lb, ub)[j] == c[j]
    {
      ClipIdempotent(p[j], lb[j], ub[j]);
    }
  }

  /** Scaling by a non-negative factor keeps the order. */
  lemma MulMonotone(x: real, y: real, c: real)
    requires x <= y && 0.0 <= c
    ensures x * c <= y * c
  {
    MulNonneg(y - x, c);
  }

  /** Python's `int(x)` on a float: truncation toward zero. */
  function Trunc(x: real): (r: int)
    ensures 0.0 <= x ==> r as real <= x < r as real + 1.0
    ensures x < 0.0 ==> r as real - 1.0 < x <= r as real
  {
    if 0.0 <= x then x.Floor else -((-x).Floor)
  }

  /** Truncation toward zero never reverses the order of its arguments. */
  lemma TruncMonotone(x: real, y: real)
    requires x <= y
    ensures Trunc(x) <= Trunc(y)
  {
  }

  lemma MulNonneg(x: real, y: real)
    requires 0.0 <= x && 0.0 <= y
    ensures 0.0 <= x * y
  {
  }

  /** NumPy's `uniform(lo, hi)` from a unit draw: `r*(hi - lo) + lo`. */
  function Uniform(r: real, lo: real, hi: real): (x: real)
    ensures 0.0 <= r <= 1.0 && lo <= hi ==> lo <= x <= hi
  {
    assert 0.0 <= r <= 1.0 && lo <= hi ==> 0.0 <= r * (hi - lo) <= hi - lo by {
      if 0.0 <= r <= 1.0 && lo <= hi {
        MulNonneg(r, hi - lo);
        MulNonneg(1.0 - r, hi - lo);
        assert (1.0 - r) * (hi - lo) == (hi - lo) - r * (hi - lo);
      }
    }
    r * (hi - lo) + lo
  }

  /** Where element `(i, j)` of an `n`-row matrix sits when the matrix is
      stored column by column. */
  function ColumnMajorIndex(i: nat, j: nat, n: nat): nat {
    j * n + i
  }

  /** Where element `(i, j)` of a `dim`-column matrix sits when the matrix
      is stored row by row. */
  function RowMajorIndex(i: nat, j: nat, dim: nat): nat {
    i * dim + j
  }

  lemma IndexBelow(q: nat, r: nat, size: nat, count: nat)
    requires q < count && r < size
    ensures q * size + r < count * size
  {
    assert (q + 1) * size <= count * size;
  }

  lemma ColumnMajorInRange(n: nat, dim: nat)
    ensures forall i, j :: 0 <= i < n && 0 <= j < dim ==> ColumnMajorIndex(i, j, n) < dim * n
  {
    forall i, j | 0 <= i < n && 0 <= j < dim
      ensures ColumnMajorIndex(i, j, n) < dim * n
    {
      IndexBelow(j, i, n, dim);
    }
  }

  lemma RowMajorInRange(n: nat, dim: nat)
    ensures forall i, j :: 0 <= i < n && 0 <= j < dim ==> RowMajorIndex(i, j, dim) < n * dim
  {
    forall i, j | 0 <= i < n && 0 <= j < dim
      ensures RowMajorIndex(i, j, dim) < n * dim
    {
      IndexBelow(i, j, dim, n);
    }
  }

  /** The product of a sequence of reals, multiplied from the first to the last. */
  function Product(fs: seq<real>): real
    decreases |fs|
  {
    if |fs| == 0 then 1.0 else Product(fs[..|fs| - 1]) * fs[|fs| - 1]
  }

  lemma MulAssoc(x: real, y: real, z: real)
    ensures (x * y) * z == x * (y * z)
  {
  }

  lemma MulPositive(x: real, y: real)
    requires 0.0 < x && 0.0 < y
    ensures 0.0 < x * y
  {
  }

  /** The product of a concatenation is the product of the products. */
  lemma {:induction false} ProductAppend(a: seq<real>, b: seq<real>)
    ensures Product(a + b) == Product(a) * Product(b)
    decreases |b|
  {
    if |b| == 0 {
      assert a + b == a;
    } else {
      var b' := b[..|b| - 1];
      assert (a + b)[..|a + b| - 1] == a + b';
      ProductAppend(a, b');
      MulAssoc(Product(a), Product(b'), b[|b| - 1]);
    }
  }

  /** A product of positive factors is positive. */
  lemma {:induction false} ProductPositive(fs: seq<real>)
    requires forall k :: 0 <= k < |fs| ==> 0.0 < fs[k]
    ensures 0.0 < Product(fs)
    decreases |fs|
  {
    if |fs| > 0 {
      ProductPositive(fs[..|fs| - 1]);
      MulPositive(Product(fs[..|fs| - 1]), fs[|fs| - 1]);
    }
  }

  /** A factor of one anywhere in a product changes nothing. */
  lemma ProductSkipsOne(a: seq<real>, b: seq<real>)
    ensures Product(a + [1.0] + b) == Product(a + b)
  {
    assert (a + [1.0])[..|a|] == a;
    ProductAppend(a + [1.0], b);
    ProductAppend(a, b);
  }

  /** A product of ones is one. */
  lemma {:induction false} ProductOfOnes(fs: seq<real>)
    requires forall k :: 0 <= k < |fs| ==> fs[k] == 1.0
    ensures Product(fs) == 1.0
    decreases |fs|
  {
    if |fs| > 0 {
      ProductOfOnes(fs[..|fs| - 1]);
    }
  }

  /** One more factor at the end of a prefix. */
  lemma ProductExtend(fs: seq<real>, k: nat)
    requires k < |fs|
    ensures Product(fs[..k + 1]) == Product(fs[..k]) * fs[k]
  {
    assert fs[..k + 1][..k] == fs[..k];
  }
}
