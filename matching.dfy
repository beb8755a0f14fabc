/** One "Find Best Match" request: guard, filter, score, rank, status
    (app_modern.py:383-431). */
module Matching {
  import opened Catalog
  import opened Classify
  import opened Scoring
  import opened Ranking

  /** What a request shows: a warning that no Base was entered, an error that no
      product passed the filter, or the ranked results with the best result's tier and
      the status line chosen from it. */
  datatype Outcome =
    | MissingBase
    | NoProducts
    | Ranked(results: seq<Scored>, quality: Quality, status: Status)

  /** `results` is a top-5 ranking of `rows` for `m`: sorted by error, no row twice,
      each entry a row of `rows` with its own score columns, the first entry the least
      error, and every row left out at least as far off as the last entry. */
  predicate IsTopRanking(results: seq<Scored>, rows: seq<Row>, m: Measurement)
  {
    && |results| == Min(|rows|, TopN)
    && SortedByError(results)
    && IdsDistinct(results)
    && (forall k :: 0 <= k < |results| ==> results[k].row in rows && results[k] == Score(results[k].row, m))
    && (forall x :: x in rows && 0 < |results| ==> results[0].error <= ErrorScore(x.profile, m))
    && (forall x :: x in rows && 0 < |results| && (forall k :: 0 <= k < |results| ==> results[k].row != x) ==>
          results[|results| - 1].error <= ErrorScore(x.profile, m))
  }

  /** Adding the score columns and ranking (app_modern.py:402-417). */
  method ScoreAndRank(rows: seq<Row>, m: Measurement) returns (results: seq<Scored>)
    requires IdsIncreasing(rows)
    ensures IsTopRanking(results, rows, m)
  {
    var scored := ScoreAll(rows, m);
    ScoredIdsDistinct(rows, scored, m);
    results := Rank(scored);
    forall k | 0 <= k < |results| ensures results[k].row in rows && results[k] == Score(results[k].row, m) {
      assert results[k] in multiset(scored);
      var j :| 0 <= j < |scored| && scored[j] == results[k];
    }
    forall x | x in rows ensures Score(x, m) in scored {
      var j :| 0 <= j < |rows| && rows[j] == x;
      assert scored[j] == Score(x, m);
    }
    forall x | x in rows && 0 < |results| && (forall k :: 0 <= k < |results| ==> results[k].row != x)
      ensures results[|results| - 1].error <= ErrorScore(x.profile, m)
    {
      var y := Score(x, m);
      assert y !in results;
      assert y in multiset(scored) - multiset(results);
    }
  }

  /** Scoring rows with distinct labels gives records with distinct labels. */
  lemma ScoredIdsDistinct(rows: seq<Row>, scored: seq<Scored>, m: Measurement)
    requires IdsIncreasing(rows)
    requires |scored| == |rows|
    requires forall k :: 0 <= k < |rows| ==> scored[k] == Score(rows[k], m)
    ensures IdsDistinct(scored)
  {
    forall i, j | 0 <= i < j < |scored| ensures scored[i].row.id != scored[j].row.id {
      assert scored[i].row == rows[i] && scored[j].row == rows[j];
    }
  }

  /** The request pipeline. Ranking is reached only with a Base entered and a
      non-empty filter result, so the best result always exists. */
  method FindMatches(catalog: seq<Profile>, state: StateCode, shape: Shape, m: Measurement)
    returns (o: Outcome)
    ensures o.MissingBase? <==> m.base == 0
    ensures o.NoProducts? <==> m.base != 0 && Candidates(catalog, state, shape) == []
    ensures o.Ranked? ==> 0 < |o.results|
    ensures o.Ranked? ==> IsTopRanking(o.results, Candidates(catalog, state, shape), m)
    ensures o.Ranked? ==> o.quality == QualityOf(o.results[0].matchScore)
    ensures o.Ranked? ==> o.status == StatusOf(o.results[0].matchScore)
  {
    if m.base == 0 {
      return MissingBase;
    }
    var rows := Filter(catalog, state, shape);
    CandidatesInOrder(catalog, state, shape);
    if |rows| == 0 {
      return NoProducts;
    }
    var results := ScoreAndRank(rows, m);
    var best := results[0];
    o := Ranked(results, QualityOf(best.matchScore), StatusOf(best.matchScore));
  }

  /** A row strictly closer than some ranked entry is itself ranked. */
  lemma CloserRowIsRanked(results: seq<Scored>, rows: seq<Row>, m: Measurement, x: Row, k: nat)
    requires IsTopRanking(results, rows, m)
    requires x in rows && k < |results|
    requires ErrorScore(x.profile, m) < results[k].error
    ensures exists j :: 0 <= j < |results| && results[j].row == x
  {
  }

  /** Along the results the match percentage never goes up. */
  lemma RankedScoresNonIncreasing(results: seq<Scored>, rows: seq<Row>, m: Measurement)
    requires IsTopRanking(results, rows, m)
    ensures forall i, j :: 0 <= i < j < |results| ==> results[j].matchScore <= results[i].matchScore
  {
  }
}
