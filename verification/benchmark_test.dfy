/** The minimising twin of the trade optimizer: the same Grey Wolf loop run
    on a test function over the box `[0, pi]^dim`, with all three leaders
    starting at `+inf`.

    The test function (Michalewicz) is built from `sin` and `pi`, which
    exact reals cannot express; both are parameters here. */
module Benchmark {
  import opened Numeric
  import opened ExtReal
  import WolfPack

  /** `x ** n` for a natural exponent. */
  function Pow(x: real, n: nat): real {
    if n == 0 then 1.0 else x * Pow(x, n - 1)
  }

  /** A product of two reals in `[-1, 1]` stays in `[-1, 1]`. */
  lemma MulUnit(x: real, y: real)
    requires -1.0 <= x <= 1.0 && -1.0 <= y <= 1.0
    ensures -1.0 <= x * y <= 1.0
  {
    MulNonneg(1.0 - x, 1.0 - y);
    MulNonneg(1.0 + x, 1.0 + y);
    MulNonneg(1.0 - x, 1.0 + y);
    MulNonneg(1.0 + x, 1.0 - y);
  }

  lemma {:induction false} PowUnit(x: real, n: nat)
    requires -1.0 <= x <= 1.0
    ensures -1.0 <= Pow(x, n) <= 1.0
  {
    if n > 0 {
      PowUnit(x, n - 1);
      MulUnit(x, Pow(x, n - 1));
    }
  }

  /** An even power is never negative. */
  lemma {:induction false} PowEvenNonneg(x: real, n: nat)
    ensures Pow(x, 2 * n) >= 0.0
  {
    if n > 0 {
      PowEvenNonneg(x, n - 1);
      assert Pow(x, 2 * n) == x * (x * Pow(x, 2 * n - 2));
      MulAssoc(x, x, Pow(x, 2 * n - 2));
      MulNonneg(x * x, Pow(x, 2 * n - 2));
    }
  }

  /** What the objective needs of `sin`: values in `[-1, 1]`, and no
      negative value on `[0, pi]`. */
  ghost predicate SineLike(sin: real -> real, pi: real) {
    && (forall x :: -1.0 <= sin(x) <= 1.0)
    && (forall x :: 0.0 <= x <= pi ==> 0.0 <= sin(x))
  }

  /** Term `i` (0-based) of the Michalewicz sum with steepness `m`:
      `sin(x) * sin((i + 1) * x^2 / pi) ** (2m)`. */
  function Term(sin: real -> real, pi: real, x: real, i: nat, m: nat): real
    requires pi != 0.0
  {
    sin(x) * Pow(sin(((i + 1) as real) * (x * x) / pi), 2 * m)
  }

  /** The sum of the first `k` terms. */
  function SumTerms(sin: real -> real, pi: real, p: seq<real>, m: nat, k: nat): real
    requires pi != 0.0 && k <= |p|
  {
    if k == 0 then 0.0 else SumTerms(sin, pi, p, m, k - 1) + Term(sin, pi, p[k - 1], k - 1, m)
  }

  /** `michalewicz_function(position, m)`: the negated sum of the terms. */
  function Michalewicz(sin: real -> real, pi: real, p: seq<real>, m: nat): real
    requires pi != 0.0
  {
    -SumTerms(sin, pi, p, m, |p|)
  }

  /** The first `k` terms do not look past coordinate `k - 1`. */
  lemma {:induction false} SumTermsPrefix(sin: real -> real, pi: real, p: seq<real>, x: real, m: nat, k: nat)
    requires pi != 0.0 && k <= |p|
    ensures SumTerms(sin, pi, p + [x], m, k) == SumTerms(sin, pi, p, m, k)
  {
    if k > 0 {
      SumTermsPrefix(sin, pi, p, x, m, k - 1);
      assert (p + [x])[k - 1] == p[k - 1];
    }
  }

  /** The test function is a sum over dimensions: one more coordinate `x`
      at index `d` subtracts its own term and leaves the other terms as
      they were. */
  lemma MichalewiczAppend(sin: real -> real, pi: real, p: seq<real>, x: real, m: nat)
    requires pi != 0.0
    ensures Michalewicz(sin, pi, p + [x], m) == Michalewicz(sin, pi, p, m) - Term(sin, pi, x, |p|, m)
    ensures Michalewicz(sin, pi, [], m) == 0.0
  {
    SumTermsPrefix(sin, pi, p, x, m, |p|);
    assert (p + [x])[|p|] == x;
  }

  /** The objective the script passes: Michalewicz with its default `m = 10`. */
  function MichalewiczObjective(sin: real -> real, pi: real): seq<real> -> real
    requires pi != 0.0
  {
    p => Michalewicz(sin, pi, p, 10)
  }

  /** Each term lies in `[-1, 1]`, and is non-negative for `x` in `[0, pi]`. */
  lemma TermBounds(sin: real -> real, pi: real, x: real, i: nat, m: nat)
    requires pi != 0.0 && SineLike(sin, pi)
    ensures -1.0 <= Term(sin, pi, x, i, m) <= 1.0
    ensures 0.0 <= x <= pi ==> 0.0 <= Term(sin, pi, x, i, m)
  {
    var w := Pow(sin(((i + 1) as real) * (x * x) / pi), 2 * m);
    PowUnit(sin(((i + 1) as real) * (x * x) / pi), 2 * m);
    PowEvenNonneg(sin(((i + 1) as real) * (x * x) / pi), m);
    MulUnit(sin(x), w);
    if 0.0 <= x <= pi {
      MulNonneg(sin(x), w);
    }
  }

  lemma {:induction false} SumTermsBounds(sin: real -> real, pi: real, p: seq<real>, m: nat, k: nat)
    requires pi != 0.0 && k <= |p| && SineLike(sin, pi)
    ensures -(k as real) <= SumTerms(sin, pi, p, m, k) <= k as real
    ensures (forall j :: 0 <= j < k ==> 0.0 <= p[j] <= pi) ==> 0.0 <= SumTerms(sin, pi, p, m, k)
  {
    if k > 0 {
      SumTermsBounds(sin, pi, p, m, k - 1);
      TermBounds(sin, pi, p[k - 1], k - 1, m);
    }
  }

  /** The test function on a position of dimension `d` lies in `[-d, d]`,
      and is never positive inside the search box `[0, pi]^d`; this is why
      its minimum (about -9.66 for `d = 10`) is negative. */
  lemma MichalewiczBounds(sin: real -> real, pi: real, p: seq<real>, m: nat)
    requires pi != 0.0 && SineLike(sin, pi)
    ensures -(|p| as real) <= Michalewicz(sin, pi, p, m) <= |p| as real
    ensures (forall j :: 0 <= j < |p| ==> 0.0 <= p[j] <= pi) ==> Michalewicz(sin, pi, p, m) <= 0.0
  {
    SumTermsBounds(sin, pi, p, m, |p|);
  }

  /** The initial pack: `uniform(0, 1, (n, dim)) * (pi - 0) + 0`, whose
      draws fill the population row by row. */
  function InitPositions(u: seq<real>, agents: nat, dim: nat, pi: real): (ps: seq<seq<real>>)
    requires |u| == agents * dim
    ensures |ps| == agents && WolfPack.Rows(ps, dim)
    ensures forall i, j :: 0 <= i < agents && 0 <= j < dim ==>
              RowMajorIndex(i, j, dim) < |u| && ps[i][j] == Uniform(u[RowMajorIndex(i, j, dim)], 0.0, pi)
    ensures (forall k :: 0 <= k < |u| ==> 0.0 <= u[k] < 1.0) && 0.0 <= pi ==>
              forall i, j :: 0 <= i < agents && 0 <= j < dim ==> 0.0 <= ps[i][j] <= pi
  {
    RowMajorInRange(agents, dim);
    seq(agents, i requires 0 <= i < agents =>
      seq(dim, j requires 0 <= j < dim => Uniform(u[RowMajorIndex(i, j, dim)], 0.0, pi)))
  }

  /** What `GWO_Benchmark` returns: alpha's score and the convergence curve. */
  datatype Report = Report(score: Ext, curve: seq<Ext>)

  /** `GWO_Benchmark(search_agents_no, max_iter, dim)` minimising `f` over
      `[0, pi]^dim`, with the initial draws `u` and the per-iteration draws
      made explicit. */
  function GwoBenchmark(f: seq<real> -> real, pi: real, agents: nat, maxIter: nat, dim: nat,
                        u: seq<real>, draws: seq<seq<seq<WolfPack.Draws>>>): (r: Report)
    requires 0.0 <= pi
    requires |u| == agents * dim && WolfPack.DrawShape(draws, maxIter, agents, dim)
    ensures |r.curve| == maxIter
    ensures forall k, m :: 0 <= k <= m < maxIter ==> Le(r.curve[m], r.curve[k])
    ensures maxIter > 0 ==> r.curve[maxIter - 1] == r.score
    ensures r.score == PosInf || exists p: seq<real> :: |p| == dim && InBox(p, WolfPack.Zeros(dim), Ends(dim, pi)) && r.score == Fin(f(p))
    ensures maxIter > 0 && agents > 0 ==> r.score.Fin?
    ensures maxIter == 0 || agents == 0 ==> r.score == PosInf
    ensures maxIter > 0 ==> forall i :: 0 <= i < agents ==>
              Le(r.score, Fin(f(ClipVec(InitPositions(u, agents, dim, pi)[i], WolfPack.Zeros(dim), Ends(dim, pi)))))
  {
    var lo, hi := WolfPack.Zeros(dim), Ends(dim, pi);
    var o := WolfPack.Optimize(WolfPack.Minimise, f, lo, hi, InitPositions(u, agents, dim, pi), maxIter, draws);
    assert o.bestScore != PosInf ==> InBox(o.bestPos, lo, hi);
    Report(o.bestScore, o.curve)
  }

  /** The upper bound `pi` in every dimension. */
  function Ends(dim: nat, pi: real): (e: seq<real>)
    ensures |e| == dim && forall j :: 0 <= j < dim ==> e[j] == pi
  {
    seq(dim, _ => pi)
  }

  /** On the Michalewicz function with `m = 10`, the benchmark's best score
      after at least one iteration is a real number in `[-dim, 0]`. */
  lemma BenchmarkScoreBounds(sin: real -> real, pi: real, agents: nat, maxIter: nat, dim: nat,
                             u: seq<real>, draws: seq<seq<seq<WolfPack.Draws>>>)
    requires 0.0 < pi && SineLike(sin, pi)
    requires |u| == agents * dim && WolfPack.DrawShape(draws, maxIter, agents, dim)
    requires maxIter > 0 && agents > 0
    ensures var r := GwoBenchmark(MichalewiczObjective(sin, pi), pi, agents, maxIter, dim, u, draws);
            r.score.Fin? && -(dim as real) <= r.score.v <= 0.0
  {
    var f := MichalewiczObjective(sin, pi);
    var r := GwoBenchmark(f, pi, agents, maxIter, dim, u, draws);
    var p: seq<real> :| |p| == dim && InBox(p, WolfPack.Zeros(dim), Ends(dim, pi)) && r.score == Fin(f(p));
    assert f(p) == Michalewicz(sin, pi, p, 10);
    MichalewiczBounds(sin, pi, p, 10);
  }
}
