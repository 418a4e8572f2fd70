/** The Grey Wolf Optimizer loop shared by the trade optimizer (which maximises
    replayed profit) and the benchmark (which minimises a test function).

    The scripts keep the population, the three leaders (alpha, beta, delta)
    and the convergence curve in local mutable arrays and draw their random
    numbers from NumPy. Here they are one immutable `Pack` passed from
    iteration to iteration, and every random number is an explicit input. */
module WolfPack {
  import opened Numeric
  import opened ExtReal

  /** Which way the search goes: the trade optimizer keeps the largest
      fitness, the benchmark the smallest. */
  datatype Goal = Maximise | Minimise

  /** The leaders' starting score: `-inf` when maximising, `+inf` when minimising. */
  function Worst(goal: Goal): Ext {
    if goal.Maximise? then NegInf else PosInf
  }

  /** Score `a` is at least as good as score `b`. */
  predicate NoWorse(goal: Goal, a: Ext, b: Ext) {
    if goal.Maximise? then Le(b, a) else Le(a, b)
  }

  /** The strict test of the leader cascade: `fitness > score` when
      maximising, `fitness < score` when minimising. */
  predicate Beats(goal: Goal, fitness: real, score: Ext) {
    !NoWorse(goal, score, Fin(fitness))
  }

  datatype Leader = Leader(pos: seq<real>, score: Ext)

  datatype Leaders = Leaders(alpha: Leader, beta: Leader, delta: Leader)

  function Zeros(dim: nat): seq<real> {
    seq(dim, _ => 0.0)
  }

  /** All three leaders at the origin with the worst score, as the scripts
      initialise them with `np.zeros(dim)` and an infinite score. */
  function Start(goal: Goal, dim: nat): Leaders {
    var l := Leader(Zeros(dim), Worst(goal));
    Leaders(l, l, l)
  }

  /** alpha is no worse than beta, and beta no worse than delta. */
  predicate Ranked(goal: Goal, ls: Leaders) {
    && NoWorse(goal, ls.alpha.score, ls.beta.score)
    && NoWorse(goal, ls.beta.score, ls.delta.score)
  }

  /** One `if / elif / elif` leader cascade for a freshly scored position.
      The position goes to the first leader whose score it strictly beats; a
      new alpha does not demote the old one. */
  function Promote(goal: Goal, ls: Leaders, pos: seq<real>, fitness: real): (r: Leaders)
    ensures Ranked(goal, ls) ==> Ranked(goal, r)
    ensures NoWorse(goal, r.alpha.score, ls.alpha.score)
    ensures NoWorse(goal, r.alpha.score, Fin(fitness))
    ensures Beats(goal, fitness, ls.alpha.score) ==>
              r.alpha == Leader(pos, Fin(fitness)) && r.beta == ls.beta && r.delta == ls.delta
    ensures !Beats(goal, fitness, ls.alpha.score) ==> r.alpha == ls.alpha
    ensures r.beta == ls.beta || r.beta == Leader(pos, Fin(fitness))
    ensures r.delta == ls.delta || r.delta == Leader(pos, Fin(fitness))
    ensures !Beats(goal, fitness, ls.alpha.score) && Beats(goal, fitness, ls.beta.score) ==>
              r == ls.(beta := Leader(pos, Fin(fitness)))
    ensures (!Beats(goal, fitness, ls.alpha.score) && !Beats(goal, fitness, ls.beta.score)
             && Beats(goal, fitness, ls.delta.score)) ==>
              r == ls.(delta := Leader(pos, Fin(fitness)))
    ensures (!Beats(goal, fitness, ls.alpha.score) && !Beats(goal, fitness, ls.beta.score)
             && !Beats(goal, fitness, ls.delta.score)) ==> r == ls
    ensures Ranked(goal, ls) && !Beats(goal, fitness, ls.delta.score) ==> r == ls
  {
    if Beats(goal, fitness, ls.alpha.score) then
      ls.(alpha := Leader(pos, Fin(fitness)))
    else if Beats(goal, fitness, ls.beta.score) then
      ls.(beta := Leader(pos, Fin(fitness)))
    else if Beats(goal, fitness, ls.delta.score) then
      ls.(delta := Leader(pos, Fin(fitness)))
    else
      ls
  }

  predicate Rows<T>(m: seq<seq<T>>, dim: nat) {
    forall i :: 0 <= i < |m| ==> |m[i]| == dim
  }

  /** The objective can score every position of the search's dimension. */
  ghost predicate Defined(f: seq<real> --> real, dim: nat) {
    forall p: seq<real> :: |p| == dim ==> f.requires(p)
  }

  /** A leader is either untouched since the start, or holds a clipped
      position together with that position's own fitness: the scripts copy
      the position by value, so later moves of the wolf cannot alter it. */
  ghost predicate Genuine(goal: Goal, f: seq<real> --> real, lb: seq<real>, ub: seq<real>, l: Leader) {
    || (l.score == Worst(goal) && l.pos == Zeros(|lb|))
    || (&& |l.pos| == |lb| == |ub|
        && l.pos == ClipVec(l.pos, lb, ub)
        && f.requires(l.pos)
        && l.score == Fin(f(l.pos)))
  }

  ghost predicate Kept(goal: Goal, f: seq<real> --> real, lb: seq<real>, ub: seq<real>, ls: Leaders) {
    && Genuine(goal, f, lb, ub, ls.alpha)
    && Genuine(goal, f, lb, ub, ls.beta)
    && Genuine(goal, f, lb, ub, ls.delta)
  }

  datatype Sweep = Sweep(positions: seq<seq<real>>, leaders: Leaders)

  /** The evaluation half of one iteration: agent by agent, clip the position
      into the box, score it, and pass the score through the cascade. */
  function Evaluate(goal: Goal, f: seq<real> --> real, lb: seq<real>, ub: seq<real>,
                    ps: seq<seq<real>>, ls: Leaders): (r: Sweep)
    requires |lb| == |ub| && Rows(ps, |lb|) && Defined(f, |lb|)
    ensures |r.positions| == |ps| && Rows(r.positions, |lb|)
    ensures forall i :: 0 <= i < |ps| ==> r.positions[i] == ClipVec(ps[i], lb, ub)
    ensures NoWorse(goal, r.leaders.alpha.score, ls.alpha.score)
    ensures forall i :: 0 <= i < |ps| ==> NoWorse(goal, r.leaders.alpha.score, Fin(f(r.positions[i])))
    ensures Ranked(goal, ls) ==> Ranked(goal, r.leaders)
    ensures Kept(goal, f, lb, ub, ls) ==> Kept(goal, f, lb, ub, r.leaders)
    decreases |ps|
  {
    if |ps| == 0 then Sweep([], ls)
    else
      var c := ClipVec(ps[0], lb, ub);
      ClipVecIdempotent(ps[0], lb, ub);
      var rest := Evaluate(goal, f, lb, ub, ps[1..], Promote(goal, ls, c, f(c)));
      Sweep([c] + rest.positions, rest.leaders)
  }

  /** The six uniform draws `r1, r2` for alpha, beta and delta that one
      agent consumes in one dimension, in the scripts' drawing order. */
  datatype Draws = Draws(r1a: real, r2a: real, r1b: real, r2b: real, r1d: real, r2d: real)

  /** The exploration coefficient `A = 2*a*r1 - a`. */
  function Explore(a: real, r1: real): (A: real)
    ensures 0.0 <= a && 0.0 <= r1 < 1.0 ==> -a <= A <= a
  {
    assert 0.0 <= a && 0.0 <= r1 < 1.0 ==> 0.0 <= a * r1 <= a by {
      if 0.0 <= a && 0.0 <= r1 < 1.0 {
        MulNonneg(a, 1.0 - r1);
        MulNonneg(a, r1);
        assert a * (1.0 - r1) == a - a * r1;
      }
    }
    2.0 * a * r1 - a
  }

  /** The encircling coefficient `C = 2*r2`. */
  function Encircle(r2: real): (C: real)
    ensures 0.0 <= r2 < 1.0 ==> 0.0 <= C < 2.0
  {
    2.0 * r2
  }

  /** The distance `|C*leader - x|` from a wolf to a leader. */
  function Distance(lead: real, x: real, r2: real): real {
    Abs(Encircle(r2) * lead - x)
  }

  lemma ScaledBound(A: real, a: real, d: real)
    requires -a <= A <= a && 0.0 <= d
    ensures Abs(A * d) <= a * d
  {
    if 0.0 <= A {
      assert A * d <= a * d;
    } else {
      assert -A * d <= a * d;
    }
  }

  /** One leader's pull `leader - A*D`: it lands within `a*D` of the leader. */
  function Pull(lead: real, x: real, a: real, r1: real, r2: real): (X: real)
    ensures 0.0 <= a && 0.0 <= r1 < 1.0 ==> Abs(X - lead) <= a * Distance(lead, x, r2)
  {
    var A := Explore(a, r1);
    var d := Distance(lead, x, r2);
    assert 0.0 <= a && 0.0 <= r1 < 1.0 ==> Abs(A * d) <= a * d by {
      if 0.0 <= a && 0.0 <= r1 < 1.0 {
        ScaledBound(A, a, d);
      }
    }
    lead - A * d
  }

  /** `r` lies between the smallest and the largest of the three leaders'
      pulls on coordinate `j` of a wolf at `x`. */
  predicate WithinPulls(ls: Leaders, x: real, j: nat, a: real, d: Draws, r: real)
    requires j < |ls.alpha.pos| && j < |ls.beta.pos| && j < |ls.delta.pos|
  {
    var x1 := Pull(ls.alpha.pos[j], x, a, d.r1a, d.r2a);
    var x2 := Pull(ls.beta.pos[j], x, a, d.r1b, d.r2b);
    var x3 := Pull(ls.delta.pos[j], x, a, d.r1d, d.r2d);
    Min(x1, Min(x2, x3)) <= r <= Max(x1, Max(x2, x3))
  }

  /** The new coordinate `(X1 + X2 + X3) / 3`: all three leaders pull with
      equal weight, so it lies between the smallest and the largest pull. */
  function MoveCoord(ls: Leaders, x: real, j: nat, a: real, d: Draws): (r: real)
    requires j < |ls.alpha.pos| && j < |ls.beta.pos| && j < |ls.delta.pos|
    ensures 3.0 * r == Pull(ls.alpha.pos[j], x, a, d.r1a, d.r2a)
                       + Pull(ls.beta.pos[j], x, a, d.r1b, d.r2b)
                       + Pull(ls.delta.pos[j], x, a, d.r1d, d.r2d)
    ensures WithinPulls(ls, x, j, a, d, r)
  {
    var x1 := Pull(ls.alpha.pos[j], x, a, d.r1a, d.r2a);
    var x2 := Pull(ls.beta.pos[j], x, a, d.r1b, d.r2b);
    var x3 := Pull(ls.delta.pos[j], x, a, d.r1d, d.r2d);
    (x1 + x2 + x3) / 3.0
  }

  /** The whole population moves, agent by agent and dimension by dimension:
      each coordinate lands within the span of its own three pulls. */
  function MoveAll(ls: Leaders, ps: seq<seq<real>>, a: real, draws: seq<seq<Draws>>, dim: nat): (r: seq<seq<real>>)
    requires Rows(ps, dim) && |draws| == |ps| && Rows(draws, dim)
    requires |ls.alpha.pos| == |ls.beta.pos| == |ls.delta.pos| == dim
    ensures |r| == |ps| && Rows(r, dim)
    ensures forall i, j :: 0 <= i < |ps| && 0 <= j < dim ==>
              r[i][j] == MoveCoord(ls, ps[i][j], j, a, draws[i][j])
    ensures forall i, j :: 0 <= i < |ps| && 0 <= j < dim ==>
              WithinPulls(ls, ps[i][j], j, a, draws[i][j], r[i][j])
  {
    seq(|ps|, i requires 0 <= i < |ps| =>
      seq(dim, j requires 0 <= j < dim => MoveCoord(ls, ps[i][j], j, a, draws[i][j])))
  }

  /** The control scalar `a = 2 - l*(2/max_iter)`. */
  function ControlA(l: nat, maxIter: nat): (a: real)
    requires l < maxIter
    ensures 0.0 < a <= 2.0
    ensures a == 2.0 <==> l == 0
  {
    2.0 - (l as real) * (2.0 / (maxIter as real))
  }

  /** `a` falls strictly from one iteration to the next. */
  lemma ControlADecreases(l: nat, m: nat, maxIter: nat)
    requires l < m < maxIter
    ensures ControlA(m, maxIter) < ControlA(l, maxIter)
  {
    var step := 2.0 / (maxIter as real);
    assert 0.0 < step;
    assert (l as real) * step < (m as real) * step;
  }

  /** Population, leaders and convergence curve between two iterations. */
  datatype Pack = Pack(positions: seq<seq<real>>, leaders: Leaders, curve: seq<Ext>)

  /** Each curve entry is no worse than the one before it. */
  predicate Improving(goal: Goal, c: seq<Ext>) {
    forall k :: 0 <= k < |c| - 1 ==> NoWorse(goal, c[k + 1], c[k])
  }

  /** What holds of the pack between iterations. */
  ghost predicate Healthy(goal: Goal, f: seq<real> --> real, lb: seq<real>, ub: seq<real>, p: Pack) {
    && |lb| == |ub|
    && Rows(p.positions, |lb|)
    && Ranked(goal, p.leaders)
    && Kept(goal, f, lb, ub, p.leaders)
    && Improving(goal, p.curve)
    && (|p.curve| > 0 ==> p.curve[|p.curve| - 1] == p.leaders.alpha.score)
  }

  /** The freshly initialised pack is healthy. */
  lemma StartHealthy(goal: Goal, f: seq<real> --> real, lb: seq<real>, ub: seq<real>, init: seq<seq<real>>)
    requires |lb| == |ub| && Rows(init, |lb|)
    ensures Healthy(goal, f, lb, ub, Pack(init, Start(goal, |lb|), []))
  {
  }

  /** The random draws of a whole run: one `Draws` per iteration, agent and dimension. */
  ghost predicate DrawShape(draws: seq<seq<seq<Draws>>>, maxIter: nat, n: nat, dim: nat) {
    |draws| == maxIter && forall l :: 0 <= l < maxIter ==> |draws[l]| == n && Rows(draws[l], dim)
  }

  /** One iteration `l`: evaluate and rank every agent, record alpha's score
      on the curve, then move every agent with the control scalar of `l`. */
  function Step(goal: Goal, f: seq<real> --> real, lb: seq<real>, ub: seq<real>,
                p: Pack, l: nat, maxIter: nat, draws: seq<seq<Draws>>): (r: Pack)
    requires Defined(f, |lb|) && Healthy(goal, f, lb, ub, p)
    requires l < maxIter && |draws| == |p.positions| && Rows(draws, |lb|)
    ensures Healthy(goal, f, lb, ub, r)
    ensures |r.positions| == |p.positions|
    ensures r.curve == p.curve + [r.leaders.alpha.score]
    ensures NoWorse(goal, r.leaders.alpha.score, p.leaders.alpha.score)
    ensures forall i :: 0 <= i < |p.positions| ==>
              NoWorse(goal, r.leaders.alpha.score, Fin(f(ClipVec(p.positions[i], lb, ub))))
    ensures |p.positions| > 0 ==> r.leaders.alpha.score != Worst(goal)
    ensures |p.positions| == 0 ==> r.leaders == p.leaders
  {
    var sweep := Evaluate(goal, f, lb, ub, p.positions, p.leaders);
    var a := ControlA(l, maxIter);
    var moved := MoveAll(sweep.leaders, sweep.positions, a, draws, |lb|);
    Pack(moved, sweep.leaders, p.curve + [sweep.leaders.alpha.score])
  }

  /** Iterations `l .. maxIter-1`. */
  function RunFrom(goal: Goal, f: seq<real> --> real, lb: seq<real>, ub: seq<real>,
                   p: Pack, l: nat, maxIter: nat, draws: seq<seq<seq<Draws>>>): (r: Pack)
    requires Defined(f, |lb|) && Healthy(goal, f, lb, ub, p)
    requires l <= maxIter && DrawShape(draws, maxIter, |p.positions|, |lb|)
    ensures Healthy(goal, f, lb, ub, r)
    ensures |r.positions| == |p.positions|
    ensures |r.curve| == |p.curve| + (maxIter - l)
    ensures r.curve[..|p.curve|] == p.curve
    ensures NoWorse(goal, r.leaders.alpha.score, p.leaders.alpha.score)
    ensures l < maxIter && |p.positions| > 0 ==> r.leaders.alpha.score != Worst(goal)
    ensures |p.positions| == 0 ==> r.leaders == p.leaders
    ensures l < maxIter ==> forall i :: 0 <= i < |p.positions| ==>
              NoWorse(goal, r.leaders.alpha.score, Fin(f(ClipVec(p.positions[i], lb, ub))))
    decreases maxIter - l
  {
    if l == maxIter then p
    else
      var next := Step(goal, f, lb, ub, p, l, maxIter, draws[l]);
      var r := RunFrom(goal, f, lb, ub, next, l + 1, maxIter, draws);
      assert r.curve[..|p.curve|] == next.curve[..|next.curve|][..|p.curve|];
      forall i | 0 <= i < |p.positions|
        ensures NoWorse(goal, r.leaders.alpha.score, Fin(f(ClipVec(p.positions[i], lb, ub))))
      {
        var s := Fin(f(ClipVec(p.positions[i], lb, ub)));
        LeTotalOrder(r.leaders.alpha.score, next.leaders.alpha.score, s);
        LeTotalOrder(s, next.leaders.alpha.score, r.leaders.alpha.score);
      }
      r
  }

  /** Consecutive curve entries never get worse, so no later entry is worse
      than any earlier one. */
  lemma {:induction false} ImprovingEverywhere(goal: Goal, c: seq<Ext>, k: nat, m: nat)
    requires Improving(goal, c) && k <= m < |c|
    ensures NoWorse(goal, c[m], c[k])
    decreases m - k
  {
    if k < m {
      ImprovingEverywhere(goal, c, k + 1, m);
      LeTotalOrder(c[m], c[k + 1], c[k]);
      LeTotalOrder(c[k], c[k + 1], c[m]);
    }
  }

  /** What a run returns: the alpha position, the alpha score and the curve. */
  datatype Outcome = Outcome(bestPos: seq<real>, bestScore: Ext, curve: seq<Ext>)

  /** A whole run from the initial population `init`. */
  function Optimize(goal: Goal, f: seq<real> --> real, lb: seq<real>, ub: seq<real>,
                    init: seq<seq<real>>, maxIter: nat, draws: seq<seq<seq<Draws>>>): (r: Outcome)
    requires |lb| == |ub| && Defined(f, |lb|) && Rows(init, |lb|)
    requires DrawShape(draws, maxIter, |init|, |lb|)
    ensures |r.curve| == maxIter
    ensures forall k, m :: 0 <= k <= m < maxIter ==> NoWorse(goal, r.curve[m], r.curve[k])
    ensures maxIter > 0 ==> r.curve[maxIter - 1] == r.bestScore
    ensures r.bestScore == Worst(goal) || (|r.bestPos| == |lb| && r.bestPos == ClipVec(r.bestPos, lb, ub)
                                           && f.requires(r.bestPos) && r.bestScore == Fin(f(r.bestPos)))
    ensures maxIter > 0 && |init| > 0 ==> r.bestScore.Fin?
    ensures maxIter == 0 || |init| == 0 ==> r.bestScore == Worst(goal)
    ensures maxIter > 0 ==> forall i :: 0 <= i < |init| ==> NoWorse(goal, r.bestScore, Fin(f(ClipVec(init[i], lb, ub))))
  {
    StartHealthy(goal, f, lb, ub, init);
    var last := RunFrom(goal, f, lb, ub, Pack(init, Start(goal, |lb|), []), 0, maxIter, draws);
    forall k, m | 0 <= k <= m < maxIter
      ensures NoWorse(goal, last.curve[m], last.curve[k])
    {
      ImprovingEverywhere(goal, last.curve, k, m);
    }
    Outcome(last.leaders.alpha.pos, last.leaders.alpha.score, last.curve)
  }
}
