/** The `for col in numeric_cols: df[col] = pd.to_numeric(df[col],
    errors='coerce')` pass shared by two of the scripts, and the fact that a
    second pass changes nothing. */
module Coercion {
  import opened Cells
  import opened Frame
  import CellFacts

  const NumericCols: seq<Col> :=
    ["price", "reviews_per_month", "review_scores_rating", "calculated_host_listings_count"]

  /** One in-place coercion step per column, in order. */
  function NumericStages(cols: seq<Col>): (ps: seq<Stage>)
    ensures |ps| == |cols|
    ensures forall i :: 0 <= i < |cols| ==> ps[i] == Assign(cols[i], cols[i], Numeric)
  {
    seq(|cols|, i requires 0 <= i < |cols| => Assign(cols[i], cols[i], Numeric))
  }

  lemma NumericStagesSnoc(cols: seq<Col>, c: Col)
    ensures NumericStages(cols + [c]) == NumericStages(cols) + [Assign(c, c, Numeric)]
  {
  }

  /** `row` with every column of `cols` coerced, one after another. */
  function CoerceAll(r: Row, cols: seq<Col>): Row {
    if |cols| == 0 then r
    else
      var r' := CoerceAll(r, cols[..|cols| - 1]);
      var c := cols[|cols| - 1];
      r'[c := ToNumericCell(Get(r', c))]
  }

  /** The coercion pass on one row adds the coerced columns and keeps the
      others. */
  lemma {:induction false} CoerceAllCells(r: Row, cols: seq<Col>, c: Col)
    ensures CoerceAll(r, cols).Keys == r.Keys + set i | 0 <= i < |cols| :: cols[i]
    ensures Get(CoerceAll(r, cols), c) ==
      if c in cols then ToNumericCell(Get(r, c)) else Get(r, c)
  {
    if |cols| > 0 {
      var init := cols[..|cols| - 1];
      var last := cols[|cols| - 1];
      CoerceAllCells(r, init, c);
      CoerceAllCells(r, init, last);
      assert cols == init + [last];
      assert (set i | 0 <= i < |cols| :: cols[i]) == (set i | 0 <= i < |init| :: init[i]) + {last};
      if c == last && c in init {
        CellFacts.ToNumericIdempotent(Get(r, c));
      }
    }
  }

  /** Running the coercion stages on a row yields CoerceAll. */
  lemma {:induction false} RunNumericStages(r: Row, cols: seq<Col>)
    ensures RunRow(r, NumericStages(cols)) == Some(CoerceAll(r, cols))
  {
    if |cols| > 0 {
      var init := cols[..|cols| - 1];
      var last := cols[|cols| - 1];
      assert cols == init + [last];
      NumericStagesSnoc(init, last);
      RunNumericStages(r, init);
      RunRowSnoc(r, NumericStages(init), Assign(last, last, Numeric));
    }
  }

  /** Coercing the same columns a second time changes nothing. */
  lemma SecondCoercionIsNoOp(r: Row, cols: seq<Col>)
    ensures CoerceAll(CoerceAll(r, cols), cols) == CoerceAll(r, cols)
  {
    var once := CoerceAll(r, cols);
    var twice := CoerceAll(once, cols);
    CoerceAllCells(r, cols, "");
    CoerceAllCells(once, cols, "");
    forall c | c in twice.Keys ensures twice[c] == once[c] {
      CoerceAllCells(r, cols, c);
      CoerceAllCells(once, cols, c);
      if c in cols {
        CellFacts.ToNumericIdempotent(Get(r, c));
      }
    }
  }

  /** The same for the stages: on every row, two passes give what one does. */
  lemma TwoPassesAsOne(r: Row, cols: seq<Col>)
    ensures RunRow(r, NumericStages(cols) + NumericStages(cols)) == RunRow(r, NumericStages(cols))
  {
    RunRowAppend(r, NumericStages(cols), NumericStages(cols));
    RunNumericStages(r, cols);
    RunNumericStages(CoerceAll(r, cols), cols);
    SecondCoercionIsNoOp(r, cols);
  }

  /** The loop `for col in numeric_cols: df[col] = pd.to_numeric(df[col],
      errors='coerce')`: every row gets its numeric columns coerced, nothing
      else changes. */
  method CoerceNumericColumns(df: DataFrame)
    requires df.Valid() && forall i :: 0 <= i < |NumericCols| ==> NumericCols[i] in df.columns
    modifies df
    ensures df.Valid() && df.columns == old(df.columns)
    ensures df.rows == Run(old(df.rows), NumericStages(NumericCols))
    ensures |df.rows| == |old(df.rows)|
    ensures forall k :: 0 <= k < |df.rows| ==> df.rows[k] == CoerceAll(old(df.rows)[k], NumericCols)
  {
    ghost var rows0 := df.rows;
    for i := 0 to |NumericCols|
      invariant df.Valid() && df.columns == old(df.columns)
      invariant df.rows == Run(rows0, NumericStages(NumericCols[..i]))
      invariant |df.rows| == |rows0|
      invariant forall k :: 0 <= k < |df.rows| ==> df.rows[k] == CoerceAll(rows0[k], NumericCols[..i])
    {
      var c := NumericCols[i];
      df.SetColumn(c, c, Numeric);
      NumericStagesSnoc(NumericCols[..i], c);
      RunSnoc(rows0, NumericStages(NumericCols[..i]), Assign(c, c, Numeric));
      assert NumericCols[..i + 1] == NumericCols[..i] + [c];
      assert NumericCols[..i + 1][..i] == NumericCols[..i];
    }
    assert NumericCols[..|NumericCols|] == NumericCols;
  }
}
