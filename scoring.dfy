/** The scoring engine (app_modern.py:402-414) and the per-dimension display tiers
    (app_modern.py:495, 501, 507). */
module Scoring {
  import opened Catalog
  import opened Classify

  /** The user's site measurements. The inputs are whole millimetres, at least 0,
      and 0 means "not entered". */
  datatype Measurement = Measurement(base: nat, face: nat, back: nat)

  /** Weights of the error: Base counts most, then Face, then Back. */
  const BaseWeight: real := 2.5
  const FaceWeight: real := 2.0
  const BackWeight: real := 1.0

  /** A filtered row with the columns the pipeline adds: the absolute differences
      `Diff_Base`, `Diff_Face`, `Diff_Back`, then `Error_Score` and `Match_Score`. */
  datatype Scored = Scored(row: Row, diffBase: real, diffFace: real, diffBack: real,
                           error: real, matchScore: real)

  /** Signed differences, product minus user, in the order Base, Face, Back. */
  function SignedDiffs(p: Profile, m: Measurement): (d: (real, real, real))
    ensures p.base == m.base as real + d.0 && p.face == m.face as real + d.1 && p.back == m.back as real + d.2
    ensures d.0 > 0.0 <==> p.base > m.base as real
    ensures d.1 > 0.0 <==> p.face > m.face as real
    ensures d.2 > 0.0 <==> p.back > m.back as real
  {
    (p.base - m.base as real, p.face - m.face as real, p.back - m.back as real)
  }

  /** The weighted error: never negative, and zero exactly on a perfect match. */
  function ErrorScore(p: Profile, m: Measurement): (e: real)
    ensures e >= 0.0
    ensures e == 0.0 <==> p.base == m.base as real && p.face == m.face as real && p.back == m.back as real
    ensures e >= BaseWeight * Abs(p.base - m.base as real)
    ensures e >= FaceWeight * Abs(p.face - m.face as real)
    ensures e >= BackWeight * Abs(p.back - m.back as real)
  {
    var d := SignedDiffs(p, m);
    Abs(d.0) * BaseWeight + Abs(d.1) * FaceWeight + Abs(d.2) * BackWeight
  }

  /** The added columns for one row; the row itself is carried over untouched. */
  function Score(row: Row, m: Measurement): (s: Scored)
    ensures s.row == row
    ensures s.diffBase == Abs(row.profile.base - m.base as real)
    ensures s.diffFace == Abs(row.profile.face - m.face as real)
    ensures s.diffBack == Abs(row.profile.back - m.back as real)
    ensures s.diffBase >= 0.0 && s.diffFace >= 0.0 && s.diffBack >= 0.0
    ensures s.error == BaseWeight * s.diffBase + FaceWeight * s.diffFace + BackWeight * s.diffBack
    ensures s.error == ErrorScore(row.profile, m)
    ensures 0.0 <= s.matchScore <= 100.0
    ensures s.matchScore == MatchScore(s.error)
  {
    var d := SignedDiffs(row.profile, m);
    var e := ErrorScore(row.profile, m);
    Scored(row, Abs(d.0), Abs(d.1), Abs(d.2), e, MatchScore(e))
  }

  /** The column arithmetic, written as a loop over the filtered rows. */
  method ScoreAll(rows: seq<Row>, m: Measurement) returns (scored: seq<Scored>)
    ensures |scored| == |rows|
    ensures forall k :: 0 <= k < |rows| ==> scored[k] == Score(rows[k], m)
  {
    scored := [];
    var i := 0;
    while i < |rows|
      invariant 0 <= i <= |rows|
      invariant |scored| == i
      invariant forall k :: 0 <= k < i ==> scored[k] == Score(rows[k], m)
    {
      scored := scored + [Score(rows[i], m)];
      i := i + 1;
    }
  }

  /** The tiers shown in the dimension table, Base, Face, Back. */
  function DimensionTiers(p: Profile, m: Measurement): (t: (DiffTier, DiffTier, DiffTier))
    ensures t.0 == Exact <==> p.base == m.base as real
    ensures t.1 == Exact <==> p.face == m.face as real
    ensures t.2 == Exact <==> p.back == m.back as real
  {
    var d := SignedDiffs(p, m);
    (DiffTierOf(d.0), DiffTierOf(d.1), DiffTierOf(d.2))
  }

  /** The table shows three exact marks exactly when the error is zero, and then the
      match is shown as 100%. */
  lemma AllExactIffPerfect(p: Profile, m: Measurement)
    ensures DimensionTiers(p, m) == (Exact, Exact, Exact) <==> ErrorScore(p, m) == 0.0
    ensures DimensionTiers(p, m) == (Exact, Exact, Exact) <==> MatchScore(ErrorScore(p, m)) == 100.0
  {
  }

  /** The display tier of a dimension is read off its absolute difference column. */
  lemma DisplayTierFromDiffColumn(row: Row, m: Measurement)
    ensures DimensionTiers(row.profile, m).0 == Exact <==> Score(row, m).diffBase == 0.0
    ensures DimensionTiers(row.profile, m).0 == Close <==> 0.0 < Score(row, m).diffBase <= 2.0
    ensures DimensionTiers(row.profile, m).1 == Exact <==> Score(row, m).diffFace == 0.0
    ensures DimensionTiers(row.profile, m).1 == Close <==> 0.0 < Score(row, m).diffFace <= 2.0
    ensures DimensionTiers(row.profile, m).2 == Exact <==> Score(row, m).diffBack == 0.0
    ensures DimensionTiers(row.profile, m).2 == Close <==> 0.0 < Score(row, m).diffBack <= 2.0
  {
  }

  /** A row shown within 2mm on all three dimensions has an error of at most 11. */
  lemma CloseRowsBoundError(p: Profile, m: Measurement)
    requires DimensionTiers(p, m).0 != Far && DimensionTiers(p, m).1 != Far && DimensionTiers(p, m).2 != Far
    ensures ErrorScore(p, m) <= 11.0
  {
  }

  /** A perfect match: error 0, score 100, excellent. */
  lemma PerfectMatchExample(p: Profile)
    requires p.base == 100.0 && p.face == 50.0 && p.back == 30.0
    ensures ErrorScore(p, Measurement(100, 50, 30)) == 0.0
    ensures MatchScore(ErrorScore(p, Measurement(100, 50, 30))) == 100.0
    ensures QualityOf(MatchScore(ErrorScore(p, Measurement(100, 50, 30)))) == Excellent
  {
  }

  /** Two millimetres off on every dimension: error 2.5*2 + 2*2 + 1*2 = 11, score 45, poor. */
  lemma TwoOffEverywhereExample(p: Profile)
    requires p.base == 102.0 && p.face == 52.0 && p.back == 32.0
    ensures ErrorScore(p, Measurement(100, 50, 30)) == 11.0
    ensures MatchScore(ErrorScore(p, Measurement(100, 50, 30))) == 45.0
    ensures QualityOf(MatchScore(ErrorScore(p, Measurement(100, 50, 30)))) == Poor
  {
  }

  /** Thirty millimetres too wide: error at least 75, score 0, poor. */
  lemma TooWideExample(p: Profile)
    requires p.base == 130.0 && p.face == 50.0 && p.back == 30.0
    ensures ErrorScore(p, Measurement(100, 50, 30)) >= 75.0
    ensures MatchScore(ErrorScore(p, Measurement(100, 50, 30))) == 0.0
    ensures QualityOf(MatchScore(ErrorScore(p, Measurement(100, 50, 30)))) == Poor
  {
  }
}
