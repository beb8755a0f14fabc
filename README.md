# Gutter profile matching engine

A Dafny model of the matching and ranking engine of Gutter Gauge, a Streamlit app.
A user enters three site measurements of a gutter: Base (width), Face (front height)
and Back (rear height). The app then looks up the closest catalog profiles that are
sold in the chosen state and, optionally, have the chosen shape. The engine works in four steps:

1. **Candidate filter** (`catalog.dfy`, `text.dfy`). It keeps a catalog row when its `State` contains the
   state code, ignoring case. A missing `State` is read as the empty string. Unless the
   shape selector is `All`, the row's `Gutter Description` must also contain the shape
   word, ignoring case. A missing description never matches. The two filters run one after the
   other, as the source does. Each is a loop over the rows (`Select`), proved equal
   to a boolean-mask selection function (`Where`).
2. **Scoring** (`scoring.dfy`). It adds three absolute differences per row, product against user.
   The weighted error is `2.5*dBase + 2*dFace + 1*dBack`. The match percentage comes from the error.
3. **Classification** (`classify.dfy`). The match percentage is a clamped linear decay with
   maximum error 20. There are four quality tiers with cut-offs 90, 70 and 50, and each has a colour hint.
   Ranks 1 to 3 get medal badges and later ranks a plain number. Each signed per-dimension difference is shown
   as exact, close (within 2mm) or far.
4. **Ranker and request** (`ranking.dfy`, `matching.dfy`). The request sorts by error, best first, and
   keeps five rows. A request with Base 0 yields a warning. A request whose filter
   keeps nothing yields an error. Otherwise the request yields the ranked results and a status line chosen
   from the best result's score: balloons at 90 or more, success at 70 or more, else a warning.

Modelling choices:
- Catalog dimensions are `real` values, which are exact rationals. The user's inputs are `nat`, because
  the number inputs take whole millimetres from 0 up.
- Each row carries a surrogate label (`Row.id`): the row's position in the cleaned
  catalog. This keeps two rows with equal contents apart, which is what "no row appears twice"
  is about.
- pandas' default `sort_values` is a quicksort, which is not stable, so the source does not fix the order of
  rows with equal errors. The model sorts by stable insertion, and its contracts
  promise only what the source does: sorted order, a permutation, and the top-5 cut-off.
- Labels, colours, badges, diff classes and status lines are enumerations, not HTML.
- `Diff_Base`, `Diff_Face` and `Diff_Back` hold absolute differences (app_modern.py:402-404),
  and `Scored` holds them. The signed differences, product − user, appear only in the dimension
  table (app_modern.py:495, 501, 507); `SignedDiffs` gives them.
- 102/52/32 against 100/50/30 gives error 5 + 4 + 2 = 11 and score 45, a poor match
  (`TwoOffEverywhereExample`).

## Model

| member | source | states |
|---|---|---|
| `Text.HasSubstring` | app_modern.py:392-396 | the scan is true exactly when the pattern occurs at some position of the text |
| `Text.ContainsIgnoreCase` | app_modern.py:392-396 | `str.contains(..., case=False)` is true exactly when the case-folded pattern occurs in the case-folded text |
| `Text.ContainsIgnoresTextCase` | app_modern.py:392 | folding the searched text beforehand does not change the answer |
| `Text.ContainsIgnoresPatternCase` | app_modern.py:392 | folding the pattern beforehand does not change the answer |
| `Text.EmptyTextContainsNothing` | app_modern.py:392 | the empty string, which stands in for a missing `State`, contains no non-empty selector |
| `Catalog.StateCode.Code` | app_modern.py:243 | each state selector is two or three upper-case letters, so none of its characters is special to a regular expression |
| `Catalog.Shape.Keyword` | app_modern.py:253 | each shape word other than `All` is non-empty letters and spaces, so none of its characters is special to a regular expression |
| `Catalog.InState` | app_modern.py:392 | the state mask, with a missing `State` read as `''`: a missing `State` never matches |
| `Catalog.HasShape` | app_modern.py:396 | the description mask with `na=False`: a missing description never matches |
| `Catalog.Enumerate` | app_modern.py:392 | the catalog as a frame: every row unchanged, labelled by its position, labels strictly increasing |
| `Catalog.Where` | app_modern.py:392-396 | `df[mask]`: never longer than its input (which rows it keeps is `WhereMembers`) |
| `Catalog.Candidates` | app_modern.py:392-396 | the filter result, the catalog selected by state then by shape: never more rows than the catalog (which rows it holds is `CandidatesMembers`) |
| `Catalog.WhereMembers` | app_modern.py:392-396 | a row is selected by a mask exactly when it is in the input and satisfies the criterion |
| `Catalog.AppendKeepsOrder` | app_modern.py:392-396 | appending a row whose label is above every label so far keeps the labels strictly increasing |
| `Catalog.WhereKeepsOrder` | app_modern.py:392-396 | a selection keeps the input's order and never repeats a row |
| `Catalog.WhereAllShapes` | app_modern.py:395-396 | the `All` shape keeps every row, so skipping the shape filter is the same as filtering by `All` |
| `Catalog.Select` | app_modern.py:392-396 | the loop over the rows yields the mask selection |
| `Catalog.Filter` | app_modern.py:392-396 | the two successive filters, with the shape step skipped for `All`, yield the candidates: the catalog selected by state, then by shape |
| `Catalog.CandidatesMembers` | app_modern.py:392-396 | a catalog row is a candidate exactly when it passes the state test and, unless the shape is `All`, the shape test; each candidate keeps its label and contents |
| `Catalog.CandidatesInOrder` | app_modern.py:392-396 | together with `CandidatesMembers`, the candidates form a subsequence of the catalog: they keep catalog order, hold no row twice and are at most as many as the catalog's rows |
| `Catalog.CandidatesForAllShapes` | app_modern.py:395 | with shape `All` the candidates are exactly the state-filtered rows |
| `Catalog.MissingStateNeverRetained` | app_modern.py:392 | a row without `State` is never retained |
| `Catalog.MissingDescriptionNeedsAll` | app_modern.py:396 | a row without a description is retained only when the shape is `All` |
| `Catalog.StateIgnoresCase` | app_modern.py:392 | the state test gives the same answer for a `State` and its lower-case form |
| `Catalog.LowerCaseTagMatches` | app_modern.py:392 | a row tagged "qld" is found by the selector QLD |
| `Classify.MatchScore` | app_modern.py:331-336 | the score lies in [0, 100] for errors ≥ 0; it is 0 exactly when the error is at least 20, and 100 exactly when the error is 0 |
| `Classify.MatchScoreAntitone` | app_modern.py:333-336 | a larger error never gets a larger score |
| `Classify.MatchScoreStrictBelowMax` | app_modern.py:336 | below the cut-off a larger error gets a strictly smaller score |
| `Classify.Quality.Colour` | app_modern.py:338-347 | the colour half of the tier: green, amber, orange and red, one for each of Excellent, Good, Fair and Poor |
| `Classify.ColourOfScore` | app_modern.py:449-452 | the colour beside a result's percentage is green from 90, amber in [70, 90), orange in [50, 70), red below 50 |
| `Classify.QualityOf` | app_modern.py:338-347 | exactly one tier: Excellent from 90, Good in [70, 90), Fair in [50, 70), Poor below 50 |
| `Classify.QualityMonotone` | app_modern.py:338-347 | a higher score never gets a worse tier |
| `Classify.QualityByError` | app_modern.py:331-347 | on the error scale, the tiers end at errors 2, 6 and 10 |
| `Classify.StatusOf` | app_modern.py:425-431 | balloons exactly from 90, a success line in [70, 90), a warning below 70 |
| `Classify.StatusAgreesWithQuality` | app_modern.py:420-431 | the status is the celebration exactly for an Excellent best match, success for Good, and a warning for Fair and Poor |
| `Classify.RankBadge` | app_modern.py:349-358 | medals for ranks 1, 2 and 3 exactly; any other rank gets a numbered badge with that rank |
| `Classify.DiffTierOf` | app_modern.py:360-367 | a signed difference 0 is exact, a non-zero one within ±2 is close, and one beyond ±2 is far |
| `Classify.DiffTierSymmetric` | app_modern.py:360-367 | the tier is the same for a difference and its negation |
| `Scoring.SignedDiffs` | app_modern.py:495-507 | the signed differences, product − user, per dimension: product = user + difference, positive exactly when the product is larger |
| `Scoring.ErrorScore` | app_modern.py:402-411 | the weighted error is ≥ 0, is 0 exactly when Base, Face and Back all equal the measurements, and bounds each weighted absolute difference |
| `Scoring.Score` | app_modern.py:402-414 | the added columns keep the row; each difference column is the absolute difference between the product's and the user's value of that dimension (so non-negative), their weighted sum is the error, and the match score in [0, 100] is derived from that error |
| `Scoring.ScoreAll` | app_modern.py:402-414 | each filtered row, in order, gets its own score columns |
| `Scoring.DimensionTiers` | app_modern.py:495-507 | a dimension's table cell is exact exactly when the product equals the measurement |
| `Scoring.AllExactIffPerfect` | app_modern.py:495-507 | all three cells are exact exactly when the error is 0, and exactly when the match is 100% |
| `Scoring.DisplayTierFromDiffColumn` | app_modern.py:402-404 | for each of base, face and back, the signed cell's tier matches the row's absolute difference column: exact exactly when that difference is 0, close exactly when it is above 0 and at most 2 |
| `Scoring.CloseRowsBoundError` | app_modern.py:406-411 | a row that is no worse than close on every dimension has an error of at most 11 |
| `Scoring.PerfectMatchExample` | app_modern.py:402-414 | measurements 100/50/30 and an equal product: error 0, score 100, Excellent |
| `Scoring.TwoOffEverywhereExample` | app_modern.py:402-414 | a product 2mm off on every dimension: error 11, score 45, Poor |
| `Scoring.TooWideExample` | app_modern.py:402-414 | a product 30mm too wide: error ≥ 75, score 0, Poor |
| `Ranking.Insert` | app_modern.py:417 | insertion adds exactly the one new record |
| `Ranking.ConsSorted` | app_modern.py:417 | putting in front a record no larger than any other keeps the records sorted |
| `Ranking.InsertSorted` | app_modern.py:417 | insertion keeps the records sorted by error |
| `Ranking.InsertDistinct` | app_modern.py:417 | inserting a record with a new row label keeps the labels distinct |
| `Ranking.NextLabelIsNew` | app_modern.py:417 | when the labels are distinct, the next record's label is not among those already sorted |
| `Ranking.SortByError` | app_modern.py:417 | the sort yields a permutation of its input in non-decreasing error order, with labels distinct if they were |
| `Ranking.PrefixKeeps` | app_modern.py:417 | the first rows of a sorted, distinct sequence are sorted and distinct |
| `Ranking.SortedCut` | app_modern.py:417 | no record cut off after the first n has less error than the n-th |
| `Ranking.SortedFirst` | app_modern.py:417 | the first sorted record has the least error |
| `Ranking.Rank` | app_modern.py:417 | `head(5)` of the sort: min(n, 5) records, sorted, drawn from the input without repetition, the first the least error, and none left out below the last kept |
| `Matching.ScoredIdsDistinct` | app_modern.py:402-414 | scoring keeps the rows' labels distinct |
| `Matching.ScoreAndRank` | app_modern.py:402-417 | the score-and-rank stage is a top-5 ranking of the filtered rows |
| `Matching.FindMatches` | app_modern.py:383-431 | Base 0 gives the warning and nothing else; otherwise an empty filter gives the no-products error; otherwise there is at least one result, the results are a top-5 ranking of the filtered rows, and tier and status come from the first result's score |
| `Matching.CloserRowIsRanked` | app_modern.py:417 | a filtered row strictly closer than some ranked record is itself ranked |
| `Matching.RankedScoresNonIncreasing` | app_modern.py:414-417 | the match percentage never increases down the results |

## Left out

- The password gate and admin mode (app_modern.py:19-84, 267-281): session state and secrets look-ups. The buy price is carried in `Profile` unconditionally, and whether it is shown is a presentation matter.
- CSS injection, the hero and footer HTML, and every rendered string: presentation only.
- CSV loading and numeric coercion (app_modern.py:189-208): file I/O. Its output is the input here, so every row has numeric Base, Face and Back by type.
- Widgets, the button press, `time.sleep`, `st.balloons`, image look-up with `os.path.exists`, link buttons and price lines: UI and file-system calls. The status line is an enumeration value.
- Number formatting (`:+.0f`, `:.2f`, `:.0f`): the model returns the tier, not the text.
- Float arithmetic: dimensions, errors and scores are exact reals, so float rounding is not modelled.
- Regular-expression semantics of `str.contains` are not modelled. The fixed selectors contain no metacharacters, so a plain substring test gives the same answers.
- Non-string `State` or description cells (pandas gives NaN, and `na=False` turns that into no match) are modelled only as missing values.
- A text column with no string cell at all, such as a `Gutter Description` column that is empty on every row and so is read as float, makes `.str.contains` (app_modern.py:396) raise instead of matching nothing. The model assumes text columns hold strings and does not model that exception.
- Text.ContainsIgnoreCase: folds ASCII letters only. Python's case-insensitive matching also folds non-ASCII letters, such as the Kelvin sign against "k". The selectors are ASCII, so this only matters for exotic characters in the catalog text.
- SortByError: does not state the order of rows with equal errors. pandas' default quicksort is not stable, so the source fixes no such order. The model's insertion keeps arrival order, but no contract promises it.
- Rank: does not state the order of rows with equal errors, for the same reason.
- The dataframe's own index labels after `dropna` (app_modern.py:200) have gaps; the model replaces them by positions in the cleaned catalog. Both are distinct and increasing, which is all the model uses.
