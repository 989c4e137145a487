/** The preprocessing of the Streamlit host-evolution page: `host_since`
    parsed and its year added, the numeric columns coerced in two identical
    passes, incomplete listings dropped and an infinite review rate
    removed. Unlike the other loaders it keeps negative and minus-infinite
    review rates and bounds neither the year nor the price. */
module StreamlitApp {
  import opened Cells
  import opened Frame
  import opened Coercion
  import DataVisualization

  /** Every column the preprocessing reads, in the order it first reads
      them; the first one absent raises KeyError. */
  const ReadColumns: seq<Col> := [
    "host_since", "price", "reviews_per_month", "review_scores_rating",
    "calculated_host_listings_count"]

  /** `numeric_cols + ['host_since', 'host_start_year']`, the columns of the
      `dropna`. */
  const Required: set<Col> := {
    "price", "reviews_per_month", "review_scores_rating",
    "calculated_host_listings_count", "host_since", "host_start_year"}

  /** The `dropna` and the `!= float('inf')` mask. */
  const Screens: seq<Mask> := [AllPresent(Required), NotPosInf("reviews_per_month")]

  /** The whole preprocessing after the file is read, with both coercion
      passes. */
  function Pipeline(parser: DateParser): seq<Stage> {
    DataVisualization.DateStages(parser) + NumericStages(NumericCols) + NumericStages(NumericCols) + Filters(Screens)
  }

  /** The same with a single coercion pass. */
  function OnePass(parser: DateParser): seq<Stage> {
    DataVisualization.DateStages(parser) + NumericStages(NumericCols) + Filters(Screens)
  }

  // ---------------------------------------------------------------------
  // What happens to one listing

  /** A listing with its date parsed, its year added and its numeric
      columns coerced. */
  function Prepare(x: Row, parser: DateParser): Row {
    CoerceAll(DataVisualization.Dated(x, parser), NumericCols)
  }

  /** The listings the page keeps: the six columns present and a review
      rate that is not plus infinity. */
  predicate Admitted(y: Row) {
    && (forall c :: c in Required ==> Get(y, c) != Missing)
    && Get(y, "reviews_per_month") != Number(PosInf)
  }

  /** The prepared listing cell by cell: the date is parsed, the year is the
      year of that date and missing exactly when the date is, the numeric
      columns are coerced, and every other column is as read. */
  lemma PreparedCells(x: Row, parser: DateParser, c: Col)
    ensures var d := ToDateCell(Get(x, "host_since"), parser);
      && Get(Prepare(x, parser), "host_since") == d
      && (Get(Prepare(x, parser), "host_start_year").Missing? <==> !d.When?)
      && (d.When? ==> Get(Prepare(x, parser), "host_start_year") == Whole(d.d.year))
    ensures c in NumericCols ==> Get(Prepare(x, parser), c) == ToNumericCell(Get(x, c))
    ensures c !in NumericCols && c !in {"host_since", "host_start_year"} ==>
      Get(Prepare(x, parser), c) == Get(x, c)
  {
    var y := DataVisualization.Dated(x, parser);
    CoerceAllCells(y, NumericCols, c);
    CoerceAllCells(y, NumericCols, "host_since");
    CoerceAllCells(y, NumericCols, "host_start_year");
  }

  /** Date steps followed by one coercion pass give the prepared listing. */
  lemma PrepareRow(x: Row, parser: DateParser)
    ensures RunRow(x, DataVisualization.DateStages(parser) + NumericStages(NumericCols)) == Some(Prepare(x, parser))
  {
    var ds, ns := DataVisualization.DateStages(parser), NumericStages(NumericCols);
    RunRowAppend(x, ds, ns);
    DataVisualization.RunDateStages(x, parser);
    RunNumericStages(DataVisualization.Dated(x, parser), NumericCols);
  }

  /** One listing through the whole preprocessing: it comes out, in its
      prepared form, exactly when that form is admitted. */
  lemma RowOutcome(x: Row, parser: DateParser)
    ensures RunRow(x, Pipeline(parser)) == if Admitted(Prepare(x, parser)) then Some(Prepare(x, parser)) else None
  {
    var ds, ns := DataVisualization.DateStages(parser), NumericStages(NumericCols);
    var y := Prepare(x, parser);
    RunRowAppend(x, ds + ns + ns, Filters(Screens));
    RunRowAppend(x, ds + ns, ns);
    PrepareRow(x, parser);
    RunNumericStages(y, NumericCols);
    SecondCoercionIsNoOp(DataVisualization.Dated(x, parser), NumericCols);
    RunFilters(y, Screens);
    assert Holds(Screens[0], y) && Holds(Screens[1], y) <==> Admitted(y);
  }

  /** One listing with a single coercion pass: the same outcome. */
  lemma OnePassOutcome(x: Row, parser: DateParser)
    ensures RunRow(x, OnePass(parser)) == if Admitted(Prepare(x, parser)) then Some(Prepare(x, parser)) else None
  {
    var ds, ns := DataVisualization.DateStages(parser), NumericStages(NumericCols);
    var y := Prepare(x, parser);
    RunRowAppend(x, ds + ns, Filters(Screens));
    PrepareRow(x, parser);
    RunFilters(y, Screens);
    assert Holds(Screens[0], y) && Holds(Screens[1], y) <==> Admitted(y);
  }

  /** The second coercion loop changes nothing: the page cleans every table
      exactly as it would with one loop. */
  lemma SecondLoopIsNoOp(rows: seq<Row>, parser: DateParser)
    ensures RowWise(rows, Pipeline(parser)) == RowWise(rows, OnePass(parser))
  {
    forall i | 0 <= i < |rows| ensures RunRow(rows[i], Pipeline(parser)) == RunRow(rows[i], OnePass(parser)) {
      RowOutcome(rows[i], parser);
      OnePassOutcome(rows[i], parser);
    }
    RowWiseCongruent(rows, Pipeline(parser), OnePass(parser));
  }

  /** The cleaned table, listing by listing: each output row is the prepared
      form of an admitted input row, in input order, and no admitted input
      row is lost. */
  lemma CleanedRows(rows: seq<Row>, parser: DateParser)
    ensures var out, o := RowWise(rows, Pipeline(parser)), Origins(rows, Pipeline(parser));
      && |o| == |out|
      && (forall k :: 0 <= k < |o| ==>
            (o[k] < |rows| && out[k] == Prepare(rows[o[k]], parser) && Admitted(out[k])))
      && (forall k, l :: 0 <= k < l < |o| ==> o[k] < o[l])
      && (forall i :: 0 <= i < |rows| && Admitted(Prepare(rows[i], parser)) ==> i in o)
  {
    OriginsSpec(rows, Pipeline(parser));
    forall i | 0 <= i < |rows| {
      RowOutcome(rows[i], parser);
    }
  }

  /** A complete listing whose review rate is negative or minus infinity is
      kept: the page screens out plus infinity only. */
  lemma NegativeRatesKept(x: Row, parser: DateParser)
    requires forall c :: c in Required ==> Get(Prepare(x, parser), c) != Missing
    requires Get(Prepare(x, parser), "reviews_per_month") == Number(NegInf)
          || (Get(Prepare(x, parser), "reviews_per_month").Number?
              && Get(Prepare(x, parser), "reviews_per_month").n.Finite?
              && Get(Prepare(x, parser), "reviews_per_month").n.v < 0.0)
    ensures RunRow(x, Pipeline(parser)) == Some(Prepare(x, parser))
  {
    RowOutcome(x, parser);
  }

  /** A listing whose coerced review rate is plus infinity is dropped. */
  lemma InfiniteRateDropped(x: Row, parser: DateParser)
    requires Get(Prepare(x, parser), "reviews_per_month") == Number(PosInf)
    ensures RunRow(x, Pipeline(parser)) == None
  {
    RowOutcome(x, parser);
  }

  /** The screens read only columns present once the year is added. */
  lemma ReadColumnsCover(present: set<Col>)
    requires forall i :: 0 <= i < |ReadColumns| ==> ReadColumns[i] in present
    ensures forall i :: 0 <= i < |NumericCols| ==> NumericCols[i] in present
    ensures Required <= present + {"host_start_year"}
  {
    assert ReadColumns[0] in present && ReadColumns[1] in present && ReadColumns[2] in present;
    assert ReadColumns[3] in present && ReadColumns[4] in present;
  }

  /** The module-level preprocessing on the table read from the file:
      KeyError on the first column it needs that the file lacks, otherwise
      the cleaned table with `host_start_year` added. */
  method Preprocess(raw: Table, parser: DateParser) returns (res: Loaded)
    requires raw.Valid()
    ensures res.KeyError? <==> exists i :: 0 <= i < |ReadColumns| && ReadColumns[i] !in raw.columns
    ensures res.KeyError? ==> res.column in ReadColumns && res.column !in raw.columns
    ensures res.Loaded? ==> res.table.Valid() && res.table.columns == raw.columns + {"host_start_year"}
    ensures res.Loaded? ==> res.table.rows == RowWise(raw.rows, Pipeline(parser))
    ensures res.Loaded? ==> forall k :: 0 <= k < |res.table.rows| ==> Admitted(res.table.rows[k])
  {
    var absent := FirstAbsent(ReadColumns, raw.columns);
    if absent.Some? {
      return KeyError(absent.value);
    }
    ReadColumnsCover(raw.columns);
    var df := new DataFrame(raw);
    DataVisualization.ParseHostSince(df, parser);
    CoerceNumericColumns(df);
    ghost var once := df.rows;
    CoerceNumericColumns(df);
    ghost var twice := df.rows;
    DropIncomplete(df);
    Compose(raw.rows, once, twice, df.rows, parser);
    return Loaded(df.Snapshot());
  }

  /** The `dropna` over the six columns and the plus-infinity mask. */
  method DropIncomplete(df: DataFrame)
    requires df.Valid() && Required <= df.columns
    modifies df
    ensures df.Valid() && df.columns == old(df.columns)
    ensures df.rows == Run(old(df.rows), Filters(Screens))
  {
    ghost var rows0 := df.rows;
    var drop, finite := Filter(AllPresent(Required)), Filter(NotPosInf("reviews_per_month"));
    df.DropNa(Required);
    df.Where(NotPosInf("reviews_per_month"));
    RunSnoc(rows0, [], drop);
    RunSnoc(rows0, [drop], finite);
    assert [] + [drop] == [drop] && [drop] + [finite] == Filters(Screens);
  }

  /** The passes the preprocessing makes, one after another, are the
      pipeline, and every row they leave is admitted. */
  lemma Compose(raw: seq<Row>, once: seq<Row>, twice: seq<Row>, out: seq<Row>, parser: DateParser)
    requires once == Run(Run(raw, DataVisualization.DateStages(parser)), NumericStages(NumericCols))
    requires twice == Run(once, NumericStages(NumericCols))
    requires out == Run(twice, Filters(Screens))
    ensures out == RowWise(raw, Pipeline(parser))
    ensures forall k :: 0 <= k < |out| ==> Admitted(out[k])
  {
    var ds, ns := DataVisualization.DateStages(parser), NumericStages(NumericCols);
    RunAppend(raw, ds, ns);
    RunAppend(raw, ds + ns, ns);
    RunAppend(raw, ds + ns + ns, Filters(Screens));
    RunIsRowWise(raw, Pipeline(parser));
    CleanedRows(raw, parser);
  }
}
