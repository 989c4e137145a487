/** The host-evolution dashboard: `load_airbnb_data`, which parses the host
    start date, coerces the numeric columns, drops incomplete and implausible
    listings and maps the superhost text to a flag; and the choice of the
    main chart's aggregation from the metric the sidebar offers. */
module DataVisualization {
  import opened Cells
  import opened Frame
  import opened Coercion
  import CellFacts

  /** Every column `load_airbnb_data` reads from the file, in the order it
      first reads them; the first one absent raises KeyError. */
  const ReadColumns: seq<Col> := [
    "host_since", "price", "reviews_per_month", "review_scores_rating",
    "calculated_host_listings_count", "host_id", "neighbourhood_cleansed",
    "host_is_superhost", "room_type"]

  /** The columns of the first `dropna`. */
  const Required: set<Col> := {
    "price", "reviews_per_month", "review_scores_rating",
    "calculated_host_listings_count", "host_since", "host_start_year",
    "host_id", "neighbourhood_cleansed", "host_is_superhost", "room_type"}

  /** `host_since` parsed as a date, and its year as `host_start_year`. */
  function DateStages(parser: DateParser): seq<Stage> {
    [Assign("host_since", "host_since", ParseDate(parser)),
     Assign("host_start_year", "host_since", YearOf)]
  }

  /** The masks applied to the coerced listings: the first `dropna`, the
      infinite and negative review rates, the implausible start years. */
  function Screens(currentYear: int): seq<Mask> {
    [AllPresent(Required),
     NotPosInf("reviews_per_month"),
     AtLeast("reviews_per_month", 0.0),
     InRange("host_start_year", FirstYear as real, currentYear as real)]
  }

  /** The superhost text mapped to a flag. */
  const FlagStage := Assign("host_is_superhost", "host_is_superhost", SuperhostFlag)

  /** The masks after the mapping: a flag, and a positive price. */
  const FinalScreens: seq<Mask> := [AllPresent({"host_is_superhost"}), Above("price", 0.0)]

  function FilterStages(currentYear: int): seq<Stage> {
    Filters(Screens(currentYear)) + [FlagStage] + Filters(FinalScreens)
  }

  /** The whole of `load_airbnb_data` after the file is read. */
  function Pipeline(parser: DateParser, currentYear: int): seq<Stage> {
    DateStages(parser) + NumericStages(NumericCols) + FilterStages(currentYear)
  }

  // ---------------------------------------------------------------------
  // What happens to one listing

  /** A listing with its date parsed (and the year derived from it). */
  function Dated(x: Row, parser: DateParser): Row {
    var d := ToDateCell(Get(x, "host_since"), parser);
    x["host_since" := d]["host_start_year" := YearCell(d)]
  }

  /** A listing with every conversion of the loader applied, before any
      listing is dropped. */
  function Prepare(x: Row, parser: DateParser): Row {
    var y := CoerceAll(Dated(x, parser), NumericCols);
    y["host_is_superhost" := SuperhostCell(Get(y, "host_is_superhost"))]
  }

  /** A number that is neither missing nor infinite and not negative. */
  predicate FiniteNonNegative(c: Cell) {
    match c
    case Number(Finite(v)) => v >= 0.0
    case Whole(i) => i >= 0
    case _ => false
  }

  /** The listings the loader keeps, stated on the prepared listing: every
      required column present, a finite non-negative review rate, a start
      year from 2008 to the current year, a superhost flag, and a positive
      price. */
  predicate Admitted(y: Row, currentYear: int) {
    && (forall c :: c in Required ==> Get(y, c) != Missing)
    && FiniteNonNegative(Get(y, "reviews_per_month"))
    && Get(y, "host_start_year").Whole?
    && FirstYear <= Get(y, "host_start_year").i <= currentYear
    && Get(y, "host_is_superhost").Flag?
    && CellGt(Get(y, "price"), 0.0)
  }

  /** The prepared listing cell by cell: the date is parsed, the year is the
      year of that date (missing exactly when the date is), the four numeric
      columns are coerced, the superhost text is mapped, and every other
      column is as read. */
  lemma PreparedCells(x: Row, parser: DateParser, c: Col)
    ensures Prepare(x, parser).Keys == x.Keys + {"host_since", "host_start_year", "host_is_superhost"} + set i | 0 <= i < |NumericCols| :: NumericCols[i]
    ensures var d := ToDateCell(Get(x, "host_since"), parser);
      && Get(Prepare(x, parser), "host_since") == d
      && Get(Prepare(x, parser), "host_start_year") == YearCell(d)
      && (Get(Prepare(x, parser), "host_start_year").Missing? <==> !d.When?)
      && (d.When? ==> Get(Prepare(x, parser), "host_start_year") == Whole(d.d.year))
    ensures Get(Prepare(x, parser), "host_is_superhost") == SuperhostCell(Get(x, "host_is_superhost"))
    ensures c in NumericCols ==> Get(Prepare(x, parser), c) == ToNumericCell(Get(x, c))
    ensures c !in NumericCols && c !in {"host_since", "host_start_year", "host_is_superhost"} ==>
      Get(Prepare(x, parser), c) == Get(x, c)
  {
    var y := Dated(x, parser);
    CoerceAllCells(y, NumericCols, c);
    CoerceAllCells(y, NumericCols, "host_since");
    CoerceAllCells(y, NumericCols, "host_start_year");
    CoerceAllCells(y, NumericCols, "host_is_superhost");
  }

  /** The date steps turn a listing into its dated form. */
  lemma RunDateStages(x: Row, parser: DateParser)
    ensures RunRow(x, DateStages(parser)) == Some(Dated(x, parser))
  {
    var ds := DateStages(parser);
    assert ds == [ds[0]] + [ds[1]];
    RunRowCons(x, ds[0], [ds[1]]);
    var x1 := x["host_since" := ToDateCell(Get(x, "host_since"), parser)];
    RunRowCons(x1, ds[1], []);
  }

  /** The first masks, one by one. */
  lemma ScreensHold(y: Row, currentYear: int)
    ensures (forall i :: 0 <= i < |Screens(currentYear)| ==> Holds(Screens(currentYear)[i], y)) <==>
      && Holds(AllPresent(Required), y)
      && Holds(NotPosInf("reviews_per_month"), y)
      && Holds(AtLeast("reviews_per_month", 0.0), y)
      && Holds(InRange("host_start_year", FirstYear as real, currentYear as real), y)
  {
    var ms := Screens(currentYear);
    if Holds(ms[0], y) && Holds(ms[1], y) && Holds(ms[2], y) && Holds(ms[3], y) {
      forall i | 0 <= i < |ms| ensures Holds(ms[i], y) {
        assert i == 0 || i == 1 || i == 2 || i == 3;
      }
    }
  }

  /** The last masks, one by one. */
  lemma FinalScreensHold(z: Row)
    ensures (forall i :: 0 <= i < |FinalScreens| ==> Holds(FinalScreens[i], z)) <==>
      Holds(AllPresent({"host_is_superhost"}), z) && Holds(Above("price", 0.0), z)
  {
    if Holds(FinalScreens[0], z) && Holds(FinalScreens[1], z) {
      forall i | 0 <= i < |FinalScreens| ensures Holds(FinalScreens[i], z) {
        assert i == 0 || i == 1;
      }
    }
  }

  /** The masks keep a coerced listing exactly when its final form is
      admitted. */
  lemma ScreensAdmit(y: Row, currentYear: int)
    requires Get(y, "host_start_year").Whole? || Get(y, "host_start_year").Missing?
    ensures var z := y["host_is_superhost" := SuperhostCell(Get(y, "host_is_superhost"))];
      && (forall i :: 0 <= i < |Screens(currentYear)| ==> Holds(Screens(currentYear)[i], y))
      && (forall i :: 0 <= i < |FinalScreens| ==> Holds(FinalScreens[i], z))
      <==> Admitted(z, currentYear)
  {
    var z := y["host_is_superhost" := SuperhostCell(Get(y, "host_is_superhost"))];
    ScreensHold(y, currentYear);
    FinalScreensHold(z);
    forall c | c != "host_is_superhost" ensures Get(z, c) == Get(y, c) { }
    assert Get(z, "host_is_superhost") == SuperhostCell(Get(y, "host_is_superhost"));
    assert Holds(AllPresent(Required), y) && Get(z, "host_is_superhost").Flag? <==>
      (forall c :: c in Required ==> Get(z, c) != Missing) && Get(z, "host_is_superhost").Flag?;
  }

  /** The steps after the numeric pass keep a coerced listing, with its
      superhost flag mapped, exactly when that form is admitted. */
  lemma FilterOutcome(y: Row, currentYear: int)
    requires Get(y, "host_start_year").Whole? || Get(y, "host_start_year").Missing?
    ensures var z := y["host_is_superhost" := SuperhostCell(Get(y, "host_is_superhost"))];
      RunRow(y, FilterStages(currentYear)) == if Admitted(z, currentYear) then Some(z) else None
  {
    var z := y["host_is_superhost" := SuperhostCell(Get(y, "host_is_superhost"))];
    var ss := Filters(Screens(currentYear));
    RunRowAppend(y, ss + [FlagStage], Filters(FinalScreens));
    RunRowAppend(y, ss, [FlagStage]);
    RunFilters(y, Screens(currentYear));
    RunRowCons(y, FlagStage, []);
    assert [FlagStage] + [] == [FlagStage];
    RunFilters(z, FinalScreens);
    ScreensAdmit(y, currentYear);
  }

  /** One listing through the whole loader: it comes out, in its prepared
      form, exactly when that form is admitted. */
  lemma RowOutcome(x: Row, parser: DateParser, currentYear: int)
    ensures RunRow(x, Pipeline(parser, currentYear)) ==
      if Admitted(Prepare(x, parser), currentYear) then Some(Prepare(x, parser)) else None
  {
    var ds := DateStages(parser);
    var ns := NumericStages(NumericCols);
    RunRowAppend(x, ds + ns, FilterStages(currentYear));
    RunRowAppend(x, ds, ns);
    RunDateStages(x, parser);
    var y := Dated(x, parser);
    RunNumericStages(y, NumericCols);
    CoerceAllCells(y, NumericCols, "host_start_year");
    FilterOutcome(CoerceAll(y, NumericCols), currentYear);
  }

  /** The cleaned table, listing by listing: each output row is the prepared
      form of an admitted input row, the rows keep their input order, and no
      admitted input row is lost. */
  lemma CleanedRows(rows: seq<Row>, parser: DateParser, currentYear: int)
    ensures var out := RowWise(rows, Pipeline(parser, currentYear));
      var o := Origins(rows, Pipeline(parser, currentYear));
      && |o| == |out|
      && (forall k :: 0 <= k < |o| ==>
            (o[k] < |rows| && out[k] == Prepare(rows[o[k]], parser) && Admitted(out[k], currentYear)))
      && (forall k, l :: 0 <= k < l < |o| ==> o[k] < o[l])
      && (forall i :: 0 <= i < |rows| && Admitted(Prepare(rows[i], parser), currentYear) ==> i in o)
  {
    var ps := Pipeline(parser, currentYear);
    OriginsSpec(rows, ps);
    forall i | 0 <= i < |rows| {
      RowOutcome(rows[i], parser, currentYear);
    }
  }

  /** When every column the loader reads is present, so are the numeric
      columns and, once the year is added, every required column. */
  lemma ReadColumnsCover(present: set<Col>)
    requires forall i :: 0 <= i < |ReadColumns| ==> ReadColumns[i] in present
    ensures forall i :: 0 <= i < |NumericCols| ==> NumericCols[i] in present
    ensures Required <= present + {"host_start_year"}
  {
    assert ReadColumns[0] in present && ReadColumns[1] in present;
    assert ReadColumns[2] in present && ReadColumns[3] in present;
    assert ReadColumns[4] in present && ReadColumns[5] in present;
    assert ReadColumns[6] in present && ReadColumns[7] in present;
    assert ReadColumns[8] in present;
  }

  lemma ScreenStages(currentYear: int)
    ensures Filters(Screens(currentYear)) == [
      Filter(AllPresent(Required)),
      Filter(NotPosInf("reviews_per_month")),
      Filter(AtLeast("reviews_per_month", 0.0)),
      Filter(InRange("host_start_year", FirstYear as real, currentYear as real))]
  {
  }

  /** `load_airbnb_data` on a table read from the file: KeyError on the
      first column it needs that the file lacks, otherwise the cleaned
      table with `host_start_year` added. */
  method LoadAirbnbData(raw: Table, parser: DateParser, currentYear: int) returns (res: Loaded)
    requires raw.Valid()
    ensures res.KeyError? <==> exists i :: 0 <= i < |ReadColumns| && ReadColumns[i] !in raw.columns
    ensures res.KeyError? ==> res.column in ReadColumns && res.column !in raw.columns
    ensures res.Loaded? ==> res.table.Valid() && res.table.columns == raw.columns + {"host_start_year"}
    ensures res.Loaded? ==> res.table.rows == RowWise(raw.rows, Pipeline(parser, currentYear))
    ensures res.Loaded? ==> forall k :: 0 <= k < |res.table.rows| ==> Admitted(res.table.rows[k], currentYear)
  {
    var absent := FirstAbsent(ReadColumns, raw.columns);
    if absent.Some? {
      return KeyError(absent.value);
    }
    ReadColumnsCover(raw.columns);
    var df := new DataFrame(raw);
    ParseHostSince(df, parser);
    ghost var dated := df.rows;
    CoerceNumericColumns(df);
    ghost var coerced := df.rows;
    DropImplausible(df, currentYear);
    ghost var screened := df.rows;
    MapSuperhost(df);
    Admission(raw.rows, coerced, screened, df.rows, parser, currentYear);
    return Loaded(df.Snapshot());
  }

  /** Step 1 of the loader: parse `host_since` and add `host_start_year`. */
  method ParseHostSince(df: DataFrame, parser: DateParser)
    requires df.Valid() && "host_since" in df.columns
    modifies df
    ensures df.Valid() && df.columns == old(df.columns) + {"host_start_year"}
    ensures df.rows == Run(old(df.rows), DateStages(parser))
  {
    ghost var rows0 := df.rows;
    var parse, year := Assign("host_since", "host_since", ParseDate(parser)), Assign("host_start_year", "host_since", YearOf);
    df.SetColumn("host_since", "host_since", ParseDate(parser));
    df.SetColumn("host_start_year", "host_since", YearOf);
    RunSnoc(rows0, [], parse);
    RunSnoc(rows0, [parse], year);
    assert [] + [parse] == [parse] && [parse] + [year] == DateStages(parser);
  }

  /** Steps 2 to 4: drop incomplete listings, infinite and negative review
      rates, and start years outside 2008 to the current year. */
  method DropImplausible(df: DataFrame, currentYear: int)
    requires df.Valid() && Required <= df.columns
    modifies df
    ensures df.Valid() && df.columns == old(df.columns)
    ensures df.rows == Run(old(df.rows), Filters(Screens(currentYear)))
  {
    ghost var rows0 := df.rows;
    df.DropNa(Required);
    ghost var rows1 := df.rows;
    df.Where(NotPosInf("reviews_per_month"));
    ghost var rows2 := df.rows;
    df.Where(AtLeast("reviews_per_month", 0.0));
    ghost var rows3 := df.rows;
    df.Where(InRange("host_start_year", FirstYear as real, currentYear as real));
    ScreenStages(currentYear);
    var fs := Filters(Screens(currentYear));
    RunFour(rows0, rows1, rows2, rows3, df.rows, fs);
  }

  /** The superhost mapping, its `dropna`, and the positive-price mask. */
  method MapSuperhost(df: DataFrame)
    requires df.Valid() && {"host_is_superhost", "price"} <= df.columns
    modifies df
    ensures df.Valid() && df.columns == old(df.columns)
    ensures df.rows == Run(old(df.rows), [FlagStage] + Filters(FinalScreens))
  {
    ghost var rows0 := df.rows;
    var drop, positive := Filter(AllPresent({"host_is_superhost"})), Filter(Above("price", 0.0));
    df.SetColumn("host_is_superhost", "host_is_superhost", SuperhostFlag);
    df.DropNa({"host_is_superhost"});
    df.Where(Above("price", 0.0));
    RunSnoc(rows0, [], FlagStage);
    RunSnoc(rows0, [FlagStage], drop);
    RunSnoc(rows0, [FlagStage, drop], positive);
    assert [] + [FlagStage] == [FlagStage] && [FlagStage] + [drop] == [FlagStage, drop];
    assert [FlagStage, drop] + [positive] == [FlagStage] + Filters(FinalScreens);
  }

  /** The loader's passes, one after another, are the pipeline, and every
      row they leave is admitted. */
  lemma Admission(raw: seq<Row>, coerced: seq<Row>, screened: seq<Row>, out: seq<Row>, parser: DateParser, currentYear: int)
    requires coerced == Run(Run(raw, DateStages(parser)), NumericStages(NumericCols))
    requires screened == Run(coerced, Filters(Screens(currentYear)))
    requires out == Run(screened, [FlagStage] + Filters(FinalScreens))
    ensures out == RowWise(raw, Pipeline(parser, currentYear))
    ensures forall k :: 0 <= k < |out| ==> Admitted(out[k], currentYear)
  {
    RunAppend(raw, DateStages(parser), NumericStages(NumericCols));
    RunAppend(coerced, Filters(Screens(currentYear)), [FlagStage] + Filters(FinalScreens));
    RunAppend(raw, DateStages(parser) + NumericStages(NumericCols), FilterStages(currentYear));
    assert Filters(Screens(currentYear)) + ([FlagStage] + Filters(FinalScreens)) == FilterStages(currentYear);
    RunIsRowWise(raw, Pipeline(parser, currentYear));
    CleanedRows(raw, parser, currentYear);
  }

  // ---------------------------------------------------------------------
  // The main chart's metric

  /** The metrics of the sidebar selectbox, in the order it lists them
      (the first is the default). */
  const MetricLabels: seq<string> := [
    "Number of New Hosts", "Average Reviews per Month", "Average Listing Price",
    "Average Overall Rating", "Average Host Listings Count"]

  /** `y_axis_options`: a metric label to the column it plots. */
  const MetricColumns: map<string, string> := map[
    "Number of New Hosts" := "num_hosts",
    "Average Reviews per Month" := "reviews_per_month",
    "Average Listing Price" := "price",
    "Average Overall Rating" := "review_scores_rating",
    "Average Host Listings Count" := "calculated_host_listings_count"]

  /** The y encoding of the main chart. */
  datatype Aggregate = CountOf(col: Col) | MeanOf(col: Col)

  /** The main chart: one point per `host_start_year`, the y value an
      aggregate over that year's listings. */
  datatype MainChart = MainChart(x: Col, y: Aggregate, title: string)

  /** The main chart for a metric; None for a metric the options do not
      hold (the dictionary lookup raises KeyError). */
  function MainChartFor(metric: string): (r: Option<MainChart>)
    ensures r.Some? <==> metric in MetricColumns
    ensures r.Some? ==> r.value.x == "host_start_year" && r.value.title == metric + " by Host Start Year"
    ensures r.Some? && r.value.y.MeanOf? ==> r.value.y.col == MetricColumns[metric]
  {
    if metric !in MetricColumns then None
    else if MetricColumns[metric] == "num_hosts" then
      Some(MainChart("host_start_year", CountOf("host_id"), metric + " by Host Start Year"))
    else
      Some(MainChart("host_start_year", MeanOf(MetricColumns[metric]), metric + " by Host Start Year"))
  }

  /** Every listed metric has a chart and nothing else does; the new-host
      count is a count of host ids and every other metric is the mean of
      its column, always per host start year. */
  lemma MetricChoice(metric: string)
    ensures MainChartFor(metric).Some? <==> metric in MetricLabels
    ensures MainChartFor(metric).Some? ==> MainChartFor(metric).value.x == "host_start_year"
    ensures MainChartFor(metric).Some? && MainChartFor(metric).value.y.CountOf? <==> metric == MetricLabels[0]
    ensures metric == MetricLabels[0] ==> MainChartFor(metric).value.y == CountOf("host_id")
    ensures metric == "Average Reviews per Month" ==> MainChartFor(metric).value.y == MeanOf("reviews_per_month")
    ensures metric == "Average Listing Price" ==> MainChartFor(metric).value.y == MeanOf("price")
    ensures metric == "Average Overall Rating" ==> MainChartFor(metric).value.y == MeanOf("review_scores_rating")
    ensures metric == "Average Host Listings Count" ==>
      MainChartFor(metric).value.y == MeanOf("calculated_host_listings_count")
  {
    assert metric in MetricLabels <==> metric in MetricColumns;
  }

  /** Every column a metric averages is one the loader coerced and kept. */
  lemma MeansAreOverCleanedColumns(metric: string)
    requires MainChartFor(metric).Some? && MainChartFor(metric).value.y.MeanOf?
    ensures MainChartFor(metric).value.y.col in NumericCols
    ensures MainChartFor(metric).value.y.col in Required
  {
  }
}
