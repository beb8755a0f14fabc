/** The ranker: sort by `Error_Score`, best first, and keep the first five rows
    (app_modern.py:417). */
module Ranking {
  import opened Catalog
  import opened Scoring

  /** How many results `head` keeps. */
  const TopN: nat := 5

  function Min(a: nat, b: nat): nat { if a <= b then a else b }

  predicate SortedByError(s: seq<Scored>)
  {
    forall i, j :: 0 <= i < j < |s| ==> s[i].error <= s[j].error
  }

  /** No two entries carry the same row label. */
  predicate IdsDistinct(s: seq<Scored>)
  {
    forall i, j :: 0 <= i < j < |s| ==> s[i].row.id != s[j].row.id
  }

  /** Insert `x` into a sorted sequence after every entry with an error no larger
      than its own, so that equal errors keep their arrival order. */
  function Insert(x: Scored, s: seq<Scored>): (r: seq<Scored>)
    ensures multiset(r) == multiset(s) + multiset{x}
  {
    if |s| == 0 then [x]
    else if x.error < s[0].error then [x] + s
    else
      assert s == [s[0]] + s[1..];
      [s[0]] + Insert(x, s[1..])
  }

  /** Putting an entry no larger than any other in front keeps a sequence sorted. */
  lemma ConsSorted(a: Scored, r: seq<Scored>)
    requires SortedByError(r)
    requires forall y :: y in r ==> a.error <= y.error
    ensures SortedByError([a] + r)
  {
  }

  /** Insertion keeps a sequence sorted. */
  lemma {:induction false} InsertSorted(x: Scored, s: seq<Scored>)
    requires SortedByError(s)
    ensures SortedByError(Insert(x, s))
  {
    if |s| == 0 {
    } else if x.error < s[0].error {
      forall y | y in s ensures x.error <= y.error {
        var k :| 0 <= k < |s| && s[k] == y;
      }
      ConsSorted(x, s);
    } else {
      var tail := s[1..];
      var rest := Insert(x, tail);
      InsertSorted(x, tail);
      forall y | y in rest ensures s[0].error <= y.error {
        assert y in multiset(tail) + multiset{x};
        if y != x {
          assert y in multiset(tail);
          var k :| 0 <= k < |tail| && tail[k] == y;
          assert s[k + 1] == y;
        }
      }
      ConsSorted(s[0], rest);
      assert Insert(x, s) == [s[0]] + rest;
    }
  }

  /** Inserting a row whose label is new keeps the labels distinct. */
  lemma {:induction false} InsertDistinct(x: Scored, s: seq<Scored>)
    requires IdsDistinct(s)
    requires forall y :: y in s ==> y.row.id != x.row.id
    ensures IdsDistinct(Insert(x, s))
  {
    if |s| > 0 && x.error >= s[0].error {
      var rest := Insert(x, s[1..]);
      InsertDistinct(x, s[1..]);
      assert s == [s[0]] + s[1..];
      forall y | y in rest ensures y.row.id != s[0].row.id {
        assert y in multiset(rest);
      }
    }
  }

  /** With distinct labels, the next row's label is not among the rows already sorted. */
  lemma NextLabelIsNew(scored: seq<Scored>, i: nat, sorted: seq<Scored>)
    requires IdsDistinct(scored) && i < |scored|
    requires multiset(sorted) == multiset(scored[..i])
    ensures forall y :: y in sorted ==> y.row.id != scored[i].row.id
  {
    forall y | y in sorted ensures y.row.id != scored[i].row.id {
      assert y in multiset(scored[..i]);
      var k :| 0 <= k < i && scored[k] == y;
    }
  }

  /** The sort, as repeated insertion of each scored row. */
  method SortByError(scored: seq<Scored>) returns (sorted: seq<Scored>)
    ensures SortedByError(sorted)
    ensures multiset(sorted) == multiset(scored)
    ensures IdsDistinct(scored) ==> IdsDistinct(sorted)
  {
    sorted := [];
    var i := 0;
    while i < |scored|
      invariant 0 <= i <= |scored|
      invariant SortedByError(sorted)
      invariant multiset(sorted) == multiset(scored[..i])
      invariant IdsDistinct(scored) ==> IdsDistinct(sorted)
    {
      assert scored[..i + 1] == scored[..i] + [scored[i]];
      InsertSorted(scored[i], sorted);
      if IdsDistinct(scored) {
        NextLabelIsNew(scored, i, sorted);
        InsertDistinct(scored[i], sorted);
      }
      sorted := Insert(scored[i], sorted);
      i := i + 1;
    }
    assert scored[..i] == scored;
  }

  /** Nothing cut off a sorted sequence after `n` entries is below the last entry kept. */
  lemma SortedCut(s: seq<Scored>, n: nat)
    requires SortedByError(s) && 0 < n <= |s|
    ensures multiset(s[..n]) <= multiset(s)
    ensures forall x :: x in multiset(s) - multiset(s[..n]) ==> s[n - 1].error <= x.error
  {
    assert s == s[..n] + s[n..];
    assert multiset(s) == multiset(s[..n]) + multiset(s[n..]);
    forall x | x in multiset(s) - multiset(s[..n]) ensures s[n - 1].error <= x.error {
      assert x in multiset(s[n..]);
      var k :| 0 <= k < |s[n..]| && s[n..][k] == x;
      assert s[n + k] == x;
    }
  }

  /** The first entry of a sorted sequence is no larger than any entry. */
  lemma SortedFirst(s: seq<Scored>)
    requires SortedByError(s) && 0 < |s|
    ensures forall x :: x in s ==> s[0].error <= x.error
  {
  }

  /** A prefix of a sorted sequence is sorted; a prefix of distinct labels is distinct. */
  lemma PrefixKeeps(s: seq<Scored>, n: nat)
    requires n <= |s|
    ensures SortedByError(s) ==> SortedByError(s[..n])
    ensures IdsDistinct(s) ==> IdsDistinct(s[..n])
  {
  }

  /** `sort_values(by='Error_Score').head(5)`: the result is sorted, as long as the
      input or 5, drawn from the input without repetition, and no row left out has a
      smaller error than the last one kept. */
  method Rank(scored: seq<Scored>) returns (results: seq<Scored>)
    ensures |results| == Min(|scored|, TopN)
    ensures SortedByError(results)
    ensures multiset(results) <= multiset(scored)
    ensures |results| > 0 ==> forall x :: x in multiset(scored) - multiset(results) ==>
      results[|results| - 1].error <= x.error
    ensures |results| > 0 ==> forall x :: x in scored ==> results[0].error <= x.error
    ensures IdsDistinct(scored) ==> IdsDistinct(results)
  {
    var sorted := SortByError(scored);
    assert |sorted| == |multiset(sorted)| == |scored|;
    var n := Min(|sorted|, TopN);
    results := sorted[..n];
    PrefixKeeps(sorted, n);
    if n > 0 {
      SortedCut(sorted, n);
      SortedFirst(sorted);
      forall x | x in scored ensures x in sorted {
        assert x in multiset(scored);
      }
    }
  }
}
