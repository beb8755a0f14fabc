/** Catalog records, the search selectors and the candidate filter
    (app_modern.py:241-255, 392-396). */
module Catalog {
  import opened Text

  datatype Option<T> = None | Some(value: T)

  /** One cleaned catalog row. The loader has already dropped every row whose Base,
      Face or Back is not numeric, so the three dimensions are always present. Text
      and price columns may be missing (pandas NaN), hence `Option`. */
  datatype Profile = Profile(
    description: Option<string>,   // `Gutter Description`
    supplier: Option<string>,      // `Supplier`
    supplierCode: Option<string>,  // `Supplier Code`
    state: Option<string>,         // `State`: where the profile is sold
    base: real,                    // `Base` (mm)
    face: real,                    // `Face` (mm)
    back: real,                    // `Back` (mm)
    sellPrice: Option<real>,       // `Sell Price (inc gst)`
    buyPrice: Option<real>,        // `Buy Price (inc gst)`, shown to admins only
    productUrl: Option<string>,    // `Product URL 1`
    imagePath: Option<string>      // `Image Path`
  )

  /** A row together with a surrogate label: the row's position in the cleaned
      catalog. The label is what keeps two rows with equal contents apart. */
  datatype Row = Row(id: nat, profile: Profile)

  /** The state selector; its entries are fixed. */
  datatype StateCode = QLD | NSW | VIC | TAS | SA | WA | NT | ACT
  {
    /** The selector text: two or three upper-case letters, so no character of it is
        special to a regular expression. */
    function Code(): (s: string)
      ensures 2 <= |s| <= 3
      ensures forall i :: 0 <= i < |s| ==> 'A' <= s[i] <= 'Z'
    {
      match this
      case QLD => "QLD" case NSW => "NSW" case VIC => "VIC" case TAS => "TAS"
      case SA => "SA" case WA => "WA" case NT => "NT" case ACT => "ACT"
    }
  }

  /** The shape selector; `All` applies no shape filter. */
  datatype Shape = All | Quad | Square | HalfRound
  {
    /** The selector text: letters and spaces only, so no character of it is special
        to a regular expression. */
    function Keyword(): (s: string)
      requires !All?
      ensures |s| > 0
      ensures forall i :: 0 <= i < |s| ==> ('A' <= s[i] <= 'Z') || ('a' <= s[i] <= 'z') || s[i] == ' '
    {
      match this
      case Quad => "Quad" case Square => "Square" case HalfRound => "Half Round"
    }
  }

  /** The state test: a missing `State` is read as the empty string. */
  predicate InState(p: Profile, state: StateCode)
    ensures p.state.None? ==> !InState(p, state)
  {
    var field := match p.state case Some(s) => s case None => "";
    ContainsIgnoreCase(field, state.Code())
  }

  /** The shape test on the description: a missing description never matches. */
  predicate HasShape(p: Profile, shape: Shape)
    requires !shape.All?
    ensures p.description.None? ==> !HasShape(p, shape)
  {
    match p.description
    case Some(d) => ContainsIgnoreCase(d, shape.Keyword())
    case None => false
  }

  /** One of the two successive filters. */
  datatype Criterion = StateIs(state: StateCode) | ShapeIs(shape: Shape)

  predicate Holds(c: Criterion, p: Profile)
  {
    match c
    case StateIs(s) => InState(p, s)
    case ShapeIs(s) => s.All? || HasShape(p, s)
  }

  /** What the whole filter keeps: the state test, and the shape test unless the
      shape selector is `All`. */
  predicate Retained(p: Profile, state: StateCode, shape: Shape)
  {
    Holds(StateIs(state), p) && Holds(ShapeIs(shape), p)
  }

  /** Rows in strictly increasing label order: the catalog's own order, no row twice. */
  predicate IdsIncreasing(rows: seq<Row>)
  {
    forall i, j :: 0 <= i < j < |rows| ==> rows[i].id < rows[j].id
  }

  /** The catalog as a dataframe: every row, unchanged, labelled with its position. */
  function Enumerate(catalog: seq<Profile>): (rows: seq<Row>)
    ensures |rows| == |catalog|
    ensures forall i :: 0 <= i < |catalog| ==> rows[i] == Row(i, catalog[i])
    ensures IdsIncreasing(rows)
  {
    seq(|catalog|, i requires 0 <= i < |catalog| => Row(i, catalog[i]))
  }

  /** Boolean-mask selection `df[mask]`: the rows satisfying `c`, in their order. */
  function Where(rows: seq<Row>, c: Criterion): (r: seq<Row>)
    ensures |r| <= |rows|
  {
    if |rows| == 0 then []
    else Where(rows[..|rows| - 1], c) + (if Holds(c, rows[|rows| - 1].profile) then [rows[|rows| - 1]] else [])
  }

  /** A row is selected exactly when it is in the input and satisfies the criterion. */
  lemma {:induction false} WhereMembers(rows: seq<Row>, c: Criterion)
    ensures forall x :: x in Where(rows, c) <==> x in rows && Holds(c, x.profile)
  {
    if |rows| > 0 {
      var init := rows[..|rows| - 1];
      WhereMembers(init, c);
      assert rows == init + [rows[|rows| - 1]];
    }
  }

  /** Appending a row labelled above every label so far keeps labels increasing. */
  lemma AppendKeepsOrder(w: seq<Row>, x: Row)
    requires IdsIncreasing(w)
    requires forall y :: y in w ==> y.id < x.id
    ensures IdsIncreasing(w + [x])
  {
  }

  /** Selection keeps the input order: it is a subsequence of its input. */
  lemma {:induction false} WhereKeepsOrder(rows: seq<Row>, c: Criterion)
    requires IdsIncreasing(rows)
    ensures IdsIncreasing(Where(rows, c))
  {
    if |rows| > 0 {
      var init := rows[..|rows| - 1];
      var last := rows[|rows| - 1];
      WhereKeepsOrder(init, c);
      var w := Where(init, c);
      if Holds(c, last.profile) {
        WhereMembers(init, c);
        forall y | y in w ensures y.id < last.id {
          var k :| 0 <= k < |init| && init[k] == y;
        }
        AppendKeepsOrder(w, last);
        assert Where(rows, c) == w + [last];
      } else {
        assert Where(rows, c) == w;
      }
    }
  }

  /** Selecting by `ShapeIs(All)` keeps everything. */
  lemma {:induction false} WhereAllShapes(rows: seq<Row>)
    ensures Where(rows, ShapeIs(All)) == rows
  {
    if |rows| > 0 {
      WhereAllShapes(rows[..|rows| - 1]);
      assert rows == rows[..|rows| - 1] + [rows[|rows| - 1]];
    }
  }

  /** The rows the filter yields: the catalog selected by state, then by shape. */
  function Candidates(catalog: seq<Profile>, state: StateCode, shape: Shape): (r: seq<Row>)
    ensures |r| <= |catalog|
  {
    Where(Where(Enumerate(catalog), StateIs(state)), ShapeIs(shape))
  }

  /** The loop behind `df[mask]`: walk the rows, keeping those that satisfy `c`. */
  method Select(rows: seq<Row>, c: Criterion) returns (kept: seq<Row>)
    ensures kept == Where(rows, c)
  {
    kept := [];
    var i := 0;
    while i < |rows|
      invariant 0 <= i <= |rows|
      invariant kept == Where(rows[..i], c)
    {
      assert rows[..i + 1][..i] == rows[..i];
      if Holds(c, rows[i].profile) {
        kept := kept + [rows[i]];
      }
      i := i + 1;
    }
    assert rows[..i] == rows;
  }

  /** The candidate filter: first by state, then, unless the shape is `All`, by shape. */
  method Filter(catalog: seq<Profile>, state: StateCode, shape: Shape) returns (rows: seq<Row>)
    ensures rows == Candidates(catalog, state, shape)
  {
    rows := Select(Enumerate(catalog), StateIs(state));
    if shape.All? {
      WhereAllShapes(rows);
    } else {
      rows := Select(rows, ShapeIs(shape));
    }
  }

  /** The candidates are exactly the catalog rows that pass both tests, each with
      its own label and unchanged contents. */
  lemma CandidatesMembers(catalog: seq<Profile>, state: StateCode, shape: Shape)
    ensures forall x :: x in Candidates(catalog, state, shape) <==>
      x in Enumerate(catalog) && Retained(x.profile, state, shape)
    ensures forall x :: x in Candidates(catalog, state, shape) ==>
      x.id < |catalog| && x.profile == catalog[x.id]
  {
    var all := Enumerate(catalog);
    WhereMembers(all, StateIs(state));
    WhereMembers(Where(all, StateIs(state)), ShapeIs(shape));
    forall x | x in all ensures x.id < |catalog| && x.profile == catalog[x.id] {
      var k :| 0 <= k < |all| && all[k] == x;
    }
  }

  /** The candidates come in catalog order, with no row twice and no more rows than
      the catalog has. */
  lemma CandidatesInOrder(catalog: seq<Profile>, state: StateCode, shape: Shape)
    ensures IdsIncreasing(Candidates(catalog, state, shape))
    ensures |Candidates(catalog, state, shape)| <= |catalog|
  {
    var all := Enumerate(catalog);
    WhereKeepsOrder(all, StateIs(state));
    WhereKeepsOrder(Where(all, StateIs(state)), ShapeIs(shape));
  }

  /** With shape `All` the candidates are exactly the rows sold in the state. */
  lemma CandidatesForAllShapes(catalog: seq<Profile>, state: StateCode)
    ensures Candidates(catalog, state, All) == Where(Enumerate(catalog), StateIs(state))
  {
    WhereAllShapes(Where(Enumerate(catalog), StateIs(state)));
  }

  /** A row with no `State` is never retained. */
  lemma MissingStateNeverRetained(p: Profile, state: StateCode, shape: Shape)
    requires p.state.None?
    ensures !Retained(p, state, shape)
  {
    EmptyTextContainsNothing(state.Code());
  }

  /** A row with no description is retained only when the shape is `All`. */
  lemma MissingDescriptionNeedsAll(p: Profile, state: StateCode, shape: Shape)
    requires p.description.None?
    ensures Retained(p, state, shape) ==> shape.All?
  {
  }

  /** The state test ignores case: "qld", "Qld" and "QLD" are the same state. */
  lemma StateIgnoresCase(p: Profile, s: string, state: StateCode)
    requires p.state == Some(s)
    ensures InState(p, state) == InState(p.(state := Some(LowerStr(s))), state)
  {
    ContainsIgnoresTextCase(s, state.Code());
  }

  /** A concrete case: a row tagged "qld" is found by the selector QLD. */
  lemma LowerCaseTagMatches(p: Profile)
    requires p.state == Some("qld")
    ensures InState(p, QLD)
  {
    assert OccursAt(LowerStr("qld"), LowerStr("QLD"), 0);
  }
}
