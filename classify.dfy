/** The match-quality classifier and the display tiers (app_modern.py:331-367, 425-431). */
module Classify {

  /** Error at or above which a candidate is a 0% match. */
  const MaxError: real := 20.0

  function Max(a: real, b: real): real { if a >= b then a else b }

  /** `calculate_match_score`: a linear decay from 100 at error 0 to 0 at `MaxError`,
      clamped at 0. */
  function MatchScore(error: real): (score: real)
    ensures score >= 0.0
    ensures error >= 0.0 ==> score <= 100.0
    ensures score == 0.0 <==> error >= MaxError
    ensures error >= 0.0 ==> (score == 100.0 <==> error == 0.0)
  {
    if error >= MaxError then 0.0
    else Max(0.0, 100.0 - (error / MaxError * 100.0))
  }

  /** A larger error never gets a larger score. */
  lemma MatchScoreAntitone(e1: real, e2: real)
    requires e1 <= e2
    ensures MatchScore(e2) <= MatchScore(e1)
  {
  }

  /** Below the cut-off a larger error gets a strictly smaller score. */
  lemma MatchScoreStrictBelowMax(e1: real, e2: real)
    requires e1 < e2 < MaxError
    ensures MatchScore(e2) < MatchScore(e1)
  {
  }

  /** The four quality tiers of `get_match_quality`, with their colour hints. */
  datatype Quality = Excellent | Good | Fair | Poor
  {
    /** Tier rank, higher is better. */
    function Level(): nat
    {
      match this case Excellent => 3 case Good => 2 case Fair => 1 case Poor => 0
    }

    /** The colour hint that goes with the tier: each tier has its own. */
    function Colour(): (c: Colour)
      ensures c == Green <==> this == Excellent
      ensures c == Amber <==> this == Good
      ensures c == Orange <==> this == Fair
      ensures c == Red <==> this == Poor
    {
      match this case Excellent => Green case Good => Amber case Fair => Orange case Poor => Red
    }
  }

  datatype Colour = Green | Amber | Orange | Red

  /** `get_match_quality`: the tiers checked from high to low with cut-offs 90, 70, 50. */
  function QualityOf(score: real): (q: Quality)
    ensures q == Excellent <==> score >= 90.0
    ensures q == Good <==> 70.0 <= score < 90.0
    ensures q == Fair <==> 50.0 <= score < 70.0
    ensures q == Poor <==> score < 50.0
  {
    if score >= 90.0 then Excellent
    else if score >= 70.0 then Good
    else if score >= 50.0 then Fair
    else Poor
  }

  /** A higher score never gets a worse tier. */
  lemma QualityMonotone(s1: real, s2: real)
    requires s1 <= s2
    ensures QualityOf(s1).Level() <= QualityOf(s2).Level()
  {
  }

  /** Tiers read back on the error scale: error 2, 6 and 10 are the tier edges. */
  lemma QualityByError(error: real)
    requires error >= 0.0
    ensures QualityOf(MatchScore(error)) == Excellent <==> error <= 2.0
    ensures QualityOf(MatchScore(error)).Level() >= Good.Level() <==> error <= 6.0
    ensures QualityOf(MatchScore(error)).Level() >= Fair.Level() <==> error <= 10.0
  {
  }

  /** The colour shown beside a result's percentage (app_modern.py:451) follows the
      score: green from 90, amber from 70, orange from 50, red below. */
  lemma ColourOfScore(score: real)
    ensures QualityOf(score).Colour() == Green <==> score >= 90.0
    ensures QualityOf(score).Colour() == Amber <==> 70.0 <= score < 90.0
    ensures QualityOf(score).Colour() == Orange <==> 50.0 <= score < 70.0
    ensures QualityOf(score).Colour() == Red <==> score < 50.0
  {
  }

  /** The status line over the results (app_modern.py:425-431). */
  datatype Status = Celebrate | Success | Warning

  function StatusOf(bestScore: real): (s: Status)
    ensures s == Celebrate <==> bestScore >= 90.0
    ensures s == Success <==> 70.0 <= bestScore < 90.0
    ensures s == Warning <==> bestScore < 70.0
  {
    if bestScore >= 90.0 then Celebrate
    else if bestScore >= 70.0 then Success
    else Warning
  }

  /** The status follows the best result's tier: balloons only for an excellent match,
      a success line for a good one, a warning for fair and poor. */
  lemma StatusAgreesWithQuality(bestScore: real)
    ensures StatusOf(bestScore) == Celebrate <==> QualityOf(bestScore) == Excellent
    ensures StatusOf(bestScore) == Success <==> QualityOf(bestScore) == Good
    ensures StatusOf(bestScore) == Warning <==> QualityOf(bestScore) in {Fair, Poor}
  {
  }

  /** The badge of `get_rank_badge`: medals for ranks 1 to 3, a plain number after. */
  datatype Badge = BestMatch | SecondBest | ThirdBest | Numbered(rank: int)

  function RankBadge(rank: int): (b: Badge)
    ensures b == BestMatch <==> rank == 1
    ensures b == SecondBest <==> rank == 2
    ensures b == ThirdBest <==> rank == 3
    ensures b.Numbered? <==> rank !in {1, 2, 3}
    ensures b.Numbered? ==> b.rank == rank
  {
    if rank == 1 then BestMatch
    else if rank == 2 then SecondBest
    else if rank == 3 then ThirdBest
    else Numbered(rank)
  }

  /** The colour class of `format_dimension_diff`. */
  datatype DiffTier = Exact | Close | Far

  function Abs(x: real): (r: real)
    ensures r >= 0.0
    ensures r == x || r == -x
  {
    if x < 0.0 then -x else x
  }

  /** `format_dimension_diff` on a signed difference: 0 is exact, within 2mm is close. */
  function DiffTierOf(diff: real): (t: DiffTier)
    ensures t == Exact <==> diff == 0.0
    ensures t == Close <==> diff != 0.0 && -2.0 <= diff <= 2.0
    ensures t == Far <==> (diff < -2.0 || diff > 2.0)
  {
    if diff == 0.0 then Exact
    else if Abs(diff) <= 2.0 then Close
    else Far
  }

  /** The tier depends only on the size of the difference, not its sign. */
  lemma DiffTierSymmetric(diff: real)
    ensures DiffTierOf(-diff) == DiffTierOf(diff)
  {
  }
}
