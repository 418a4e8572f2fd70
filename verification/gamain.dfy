/** The placeholder fitness of the genetic-algorithm script and the gene
    ranges it hands to the GA library. The GA run itself belongs to the
    library and is not modelled. */
module GaMain {

  /** Inclusive lower and upper bound of one gene. */
  datatype Range = Range(low: real, high: real)

  /** `gene_space`: buy threshold, sell threshold, stop loss %, take
      profit %, trailing stop %, holding minutes, RSI low, RSI high,
      volume multiplier, risk %. */
  const GeneSpace: seq<Range> := [
    Range(0.5, 0.99), Range(0.1, 0.5), Range(0.5, 5.0), Range(1.0, 15.0), Range(0.1, 3.0),
    Range(1.0, 120.0), Range(20.0, 40.0), Range(60.0, 80.0), Range(1.0, 5.0), Range(1.0, 10.0)]

  /** A solution with one gene per range, each inside its range. */
  predicate InSpace(s: seq<real>) {
    |s| == |GeneSpace| && forall k :: 0 <= k < |s| ==> GeneSpace[k].low <= s[k] <= GeneSpace[k].high
  }

  /** `fitness_func`: a hundred times the buy threshold plus twice the take
      profit minus five times the stop loss. Inside the gene space it lies
      between 27 and 126.5, both reached at the corners. */
  function Score(solution: seq<real>): (r: real)
    requires |solution| > 3
    ensures InSpace(solution) ==> 27.0 <= r <= 126.5
  {
    assert InSpace(solution) ==>
             0.5 <= solution[0] <= 0.99 && 0.5 <= solution[2] <= 5.0 && 1.0 <= solution[3] <= 15.0 by {
      if InSpace(solution) {
        assert GeneSpace[0] == Range(0.5, 0.99) && GeneSpace[2] == Range(0.5, 5.0) && GeneSpace[3] == Range(1.0, 15.0);
      }
    }
    solution[0] * 100.0 + solution[3] * 2.0 - solution[2] * 5.0
  }

  /** The bounds are tight: the best and the worst corner of the space. */
  lemma ScoreExtremes()
    ensures var best := [0.99, 0.1, 0.5, 15.0, 0.1, 1.0, 20.0, 60.0, 1.0, 1.0];
            InSpace(best) && Score(best) == 126.5
    ensures var worst := [0.5, 0.1, 5.0, 1.0, 0.1, 1.0, 20.0, 60.0, 1.0, 1.0];
            InSpace(worst) && Score(worst) == 27.0
  {
  }

  /** Only genes 0, 2 and 3 count; the other seven have no effect. */
  lemma ScoreReadsThreeGenes(s: seq<real>, t: seq<real>)
    requires |s| > 3 && |t| > 3
    requires s[0] == t[0] && s[2] == t[2] && s[3] == t[3]
    ensures Score(s) == Score(t)
  {
  }

  /** A higher buy threshold or take profit, or a lower stop loss, never
      scores lower, and any strict improvement scores strictly higher. */
  lemma ScoreOrder(s: seq<real>, t: seq<real>)
    requires |s| > 3 && |t| > 3
    requires s[0] <= t[0] && s[3] <= t[3] && s[2] >= t[2]
    ensures Score(s) <= Score(t)
    ensures s[0] < t[0] || s[3] < t[3] || s[2] > t[2] ==> Score(s) < Score(t)
  {
  }
}
