/** The price-tier dashboard: `load_and_clean_data`, which cleans the price
    text, parses the host start date when the file has one, drops listings
    missing one of the columns it checks, keeps plausible start years, trims
    the price to the band between two quantiles and labels every listing
    with a price tier; and the tier dropdown that filters the seasonal
    chart. */
module WeekSix {
  import opened Cells
  import opened Frame
  import CellFacts

  /** The quantiles of the price the loader uses, computed by pandas and
      taken here as given: the 5th and 95th percentiles of the cleaned
      prices bound the trim, the 33rd and 66th of the trimmed prices split
      the tiers. */
  datatype Cuts = Cuts(trimLow: real, trimHigh: real, tierLow: real, tierHigh: real)

  /** One line of the tier legend: the prices from `from` to `to`. */
  datatype PriceRange = PriceRange(from: real, to: real)

  // ---------------------------------------------------------------------
  // The steps, each present only when the column it needs is

  function PriceStages(columns: set<Col>): seq<Stage> {
    if "price" in columns then [Assign("price", "price", PriceText)] else []
  }

  function HostDateStages(columns: set<Col>, parser: DateParser): seq<Stage> {
    if "host_since" in columns then
      [Assign("host_since", "host_since", ParseDate(parser)),
       Assign("host_start_year", "host_since", YearOf),
       Assign("host_start_month", "host_since", MonthOf)]
    else []
  }

  /** The columns after the date parsing. */
  function Parsed(columns: set<Col>): set<Col> {
    if "host_since" in columns then columns + {"host_start_year", "host_start_month"} else columns
  }

  /** The columns the `dropna` checks: those of price, host_since, host_id
      and property_type that the table has. */
  function Checked(columns: set<Col>): set<Col> {
    {"price", "host_since", "host_id", "property_type"} * columns
  }

  function YearStages(columns: set<Col>, currentYear: int): seq<Stage> {
    if "host_start_year" in columns then
      [Filter(InRange("host_start_year", FirstYear as real, currentYear as real)),
       Assign("host_start_year", "host_start_year", AsInt)]
    else []
  }

  /** The steps up to the price trim, for a table with the given columns. */
  function Prelude(columns: set<Col>, parser: DateParser, currentYear: int): seq<Stage> {
    PriceStages(columns) + HostDateStages(columns, parser)
      + [Filter(AllPresent(Checked(columns)))] + YearStages(Parsed(columns), currentYear)
  }

  function TrimStage(cuts: Cuts): Stage {
    Filter(InRange("price", cuts.trimLow, cuts.trimHigh))
  }

  function TierStage(cuts: Cuts): Stage {
    Assign("price_tier", "price", TierOf(cuts.tierLow, cuts.tierHigh))
  }

  /** The tier column and its `dropna`. */
  function TierStages(cuts: Cuts): seq<Stage> {
    [TierStage(cuts), Filter(AllPresent({"price_tier"}))]
  }

  // ---------------------------------------------------------------------
  // The cleaned table

  /** The listings after the steps up to the price trim. */
  function Prepared(raw: Table, parser: DateParser, currentYear: int): seq<Row> {
    Run(raw.rows, Prelude(raw.columns, parser, currentYear))
  }

  /** The listings within the trim band. */
  function Trimmed(raw: Table, parser: DateParser, currentYear: int, cuts: Cuts): seq<Row> {
    Step(Prepared(raw, parser, currentYear), TrimStage(cuts))
  }

  /** Whether the loader trims: the table has a price column and rows. */
  predicate Trims(raw: Table, parser: DateParser, currentYear: int) {
    "price" in raw.columns && |Prepared(raw, parser, currentYear)| > 0
  }

  /** Whether the loader adds tiers: it trims and the trimmed table is not
      empty. */
  predicate GetsTiers(raw: Table, parser: DateParser, currentYear: int, cuts: Cuts) {
    Trims(raw, parser, currentYear) && |Trimmed(raw, parser, currentYear, cuts)| > 0
  }

  /** Every step the loader takes on a given table. */
  function Stages(raw: Table, parser: DateParser, currentYear: int, cuts: Cuts): seq<Stage> {
    var pre := Prelude(raw.columns, parser, currentYear);
    if !Trims(raw, parser, currentYear) then pre
    else if !GetsTiers(raw, parser, currentYear, cuts) then pre + [TrimStage(cuts)]
    else pre + [TrimStage(cuts)] + TierStages(cuts)
  }

  /** `df['price'].min()`. */
  function MinPrice(rows: seq<Row>): (m: real)
    requires |rows| > 0
    ensures forall k :: 0 <= k < |rows| ==> m <= Amount(Get(rows[k], "price"))
    ensures exists k :: 0 <= k < |rows| && m == Amount(Get(rows[k], "price"))
  {
    var p := Amount(Get(rows[0], "price"));
    if |rows| == 1 then p
    else
      var m := MinPrice(rows[1..]);
      assert forall k :: 1 <= k < |rows| ==> rows[k] == rows[1..][k - 1];
      if p <= m then p else m
  }

  /** `df['price'].max()`. */
  function MaxPrice(rows: seq<Row>): (m: real)
    requires |rows| > 0
    ensures forall k :: 0 <= k < |rows| ==> Amount(Get(rows[k], "price")) <= m
    ensures exists k :: 0 <= k < |rows| && m == Amount(Get(rows[k], "price"))
  {
    var p := Amount(Get(rows[0], "price"));
    if |rows| == 1 then p
    else
      var m := MaxPrice(rows[1..]);
      assert forall k :: 1 <= k < |rows| ==> rows[k] == rows[1..][k - 1];
      if p >= m then p else m
  }

  /** `price_ranges` for the trimmed listings: each tier from its lower to
      its upper bound, the outer bounds the cheapest and dearest price. */
  function PriceRanges(rows: seq<Row>, cuts: Cuts): (r: map<string, PriceRange>)
    requires |rows| > 0
    ensures r.Keys == {"Budget", "Mid-Range", "Premium"}
    ensures r["Budget"].from == MinPrice(rows) && r["Premium"].to == MaxPrice(rows)
    ensures r["Budget"].to == r["Mid-Range"].from == cuts.tierLow
    ensures r["Mid-Range"].to == r["Premium"].from == cuts.tierHigh
    ensures forall k :: 0 <= k < |rows| ==> r["Budget"].from <= Amount(Get(rows[k], "price")) <= r["Premium"].to
  {
    map["Budget" := PriceRange(MinPrice(rows), cuts.tierLow),
        "Mid-Range" := PriceRange(cuts.tierLow, cuts.tierHigh),
        "Premium" := PriceRange(cuts.tierHigh, MaxPrice(rows))]
  }

  /** What `load_and_clean_data` returns: for a missing file an empty table
      and no ranges; otherwise the cleaned table, and the tier ranges when
      tiers were added. */
  function CleanData(file: Option<Table>, parser: DateParser, currentYear: int, cuts: Cuts)
    : (r: (Table, map<string, PriceRange>))
    ensures file.None? ==> r.0.Empty() && r.1 == map[]
    ensures r.1 == map[] || r.1.Keys == {"Budget", "Mid-Range", "Premium"}
    ensures file.Some? ==> file.value.columns <= r.0.columns
    ensures file.Some? && r.1 != map[] ==> "price_tier" in r.0.columns
  {
    match file
    case None => (Table({}, []), map[])
    case Some(raw) =>
      var rows := Run(raw.rows, Stages(raw, parser, currentYear, cuts));
      if GetsTiers(raw, parser, currentYear, cuts) then
        (Table(Parsed(raw.columns) + {"price_tier"}, rows),
         PriceRanges(Trimmed(raw, parser, currentYear, cuts), cuts))
      else
        (Table(Parsed(raw.columns), rows), map[])
  }

  // ---------------------------------------------------------------------
  // What the cleaned table satisfies

  /** A whole start year from 2008 to the current year. */
  predicate YearInRange(r: Row, currentYear: int) {
    Get(r, "host_start_year").Whole? && FirstYear <= Get(r, "host_start_year").i <= currentYear
  }

  /** The cast to integer after the year filter yields a whole year in the
      same range. */
  lemma AsIntInRange(c: Cell, currentYear: int)
    requires CellGe(c, FirstYear as real) && CellLe(c, currentYear as real)
    ensures AsIntCell(c).Whole? && FirstYear <= AsIntCell(c).i <= currentYear
  {
    match c
    case Number(Finite(v)) =>
      assert v >= 0.0;
      assert Trunc(v) == v.Floor;
      assert (FirstYear as real).Floor == FirstYear;
      assert v.Floor as real <= v;
    case _ =>
  }

  /** A price within the trim band is a finite amount within the band. */
  lemma TrimmedPriceFinite(c: Cell, cuts: Cuts)
    requires CellGe(c, cuts.trimLow) && CellLe(c, cuts.trimHigh)
    ensures c.Whole? || (c.Number? && c.n.Finite?)
    ensures cuts.trimLow <= Amount(c) <= cuts.trimHigh
  {
  }

  /** The year steps keep the presence of columns other than the year, and
      leave a whole year in range. */
  lemma YearStagesRow(rows: seq<Row>, columns: set<Col>, currentYear: int, present: set<Col>, r: Row)
    requires forall x :: x in rows ==> Holds(AllPresent(present), x)
    requires "host_start_year" !in present
    requires r in Run(rows, YearStages(columns, currentYear))
    ensures Holds(AllPresent(present), r)
    ensures "host_start_year" in columns ==> YearInRange(r, currentYear)
  {
    var ys := YearStages(columns, currentYear);
    if "host_start_year" in columns {
      var kept := Step(rows, ys[0]);
      RunOne(rows, ys[0]);
      RunSnoc(rows, [ys[0]], ys[1]);
      assert [ys[0]] + [ys[1]] == ys;
      var out := Step(kept, ys[1]);
      var k :| 0 <= k < |out| && out[k] == r;
      assert kept[k] in rows;
      AsIntInRange(Get(kept[k], "host_start_year"), currentYear);
      assert forall c :: c in present ==> Get(r, c) == Get(kept[k], c);
    } else {
      assert ys == [];
    }
  }

  /** The listings after the steps up to the trim: every checked column is
      present and, when there is a start year, it is a whole year from 2008
      to the current year. */
  lemma PreparedRow(raw: Table, parser: DateParser, currentYear: int, r: Row)
    requires r in Prepared(raw, parser, currentYear)
    ensures Holds(AllPresent(Checked(raw.columns)), r)
    ensures "host_start_year" in Parsed(raw.columns) ==> YearInRange(r, currentYear)
  {
    var cols := raw.columns;
    var front := PriceStages(cols) + HostDateStages(cols, parser);
    var drop := Filter(AllPresent(Checked(cols)));
    var ys := YearStages(Parsed(cols), currentYear);
    RunAppend(raw.rows, front + [drop], ys);
    RunSnoc(raw.rows, front, drop);
    YearStagesRow(Run(raw.rows, front + [drop]), Parsed(cols), currentYear, Checked(cols), r);
  }

  /** The `dropna` on the tier column removes nothing: every price, missing
      or not, gets a tier. */
  lemma TierDropRemovesNothing(rows: seq<Row>, cuts: Cuts)
    ensures Run(rows, TierStages(cuts)) == Step(rows, TierStage(cuts))
  {
    var tiered := Step(rows, TierStage(cuts));
    RunOne(rows, TierStage(cuts));
    RunSnoc(rows, [TierStage(cuts)], Filter(AllPresent({"price_tier"})));
    assert [TierStage(cuts)] + [Filter(AllPresent({"price_tier"}))] == TierStages(cuts);
    forall i | 0 <= i < |tiered| ensures Holds(AllPresent({"price_tier"}), tiered[i]) {
      assert Get(tiered[i], "price_tier").Text?;
    }
    KeepAll(tiered, AllPresent({"price_tier"}));
  }

  /** The cleaned rows are the prepared rows, or the trimmed ones, or the
      trimmed ones with their tier. */
  lemma CleanedRows(raw: Table, parser: DateParser, currentYear: int, cuts: Cuts)
    ensures CleanData(Some(raw), parser, currentYear, cuts).0.rows ==
      if !Trims(raw, parser, currentYear) then Prepared(raw, parser, currentYear)
      else if !GetsTiers(raw, parser, currentYear, cuts) then Trimmed(raw, parser, currentYear, cuts)
      else Step(Trimmed(raw, parser, currentYear, cuts), TierStage(cuts))
  {
    var pre := Prelude(raw.columns, parser, currentYear);
    var trim := TrimStage(cuts);
    if Trims(raw, parser, currentYear) {
      RunAppend(raw.rows, pre, [trim]);
      RunOne(Prepared(raw, parser, currentYear), trim);
      if GetsTiers(raw, parser, currentYear, cuts) {
        RunAppend(raw.rows, pre + [trim], TierStages(cuts));
        TierDropRemovesNothing(Trimmed(raw, parser, currentYear, cuts), cuts);
      }
    }
  }

  /** The row of a trimmed table that a tiered row comes from. */
  lemma TieredSource(rows: seq<Row>, cuts: Cuts, r: Row) returns (k: nat)
    requires r in Step(rows, TierStage(cuts))
    ensures k < |rows|
    ensures r == rows[k]["price_tier" := Text(TierLabel(AssignTier(Get(rows[k], "price"), cuts.tierLow, cuts.tierHigh)))]
  {
    var out := Step(rows, TierStage(cuts));
    var i :| 0 <= i < |out| && out[i] == r;
    k := i;
  }

  /** The cleaned listings, row by row:
      - every checked column is present;
      - the start year, when there is one, is whole and in range;
      - after a trim, the price is finite and within the trim band;
      - with tiers, the tier is the one `assign_tier` gives the price. */
  lemma CleanedRow(raw: Table, parser: DateParser, currentYear: int, cuts: Cuts, r: Row)
    requires r in CleanData(Some(raw), parser, currentYear, cuts).0.rows
    ensures Holds(AllPresent(Checked(raw.columns)), r)
    ensures "host_start_year" in Parsed(raw.columns) ==> YearInRange(r, currentYear)
    ensures Trims(raw, parser, currentYear) ==>
      CellGe(Get(r, "price"), cuts.trimLow) && CellLe(Get(r, "price"), cuts.trimHigh)
    ensures GetsTiers(raw, parser, currentYear, cuts) ==>
      Get(r, "price_tier") == Text(TierLabel(AssignTier(Get(r, "price"), cuts.tierLow, cuts.tierHigh)))
  {
    CleanedRows(raw, parser, currentYear, cuts);
    var trimmed := Trimmed(raw, parser, currentYear, cuts);
    if !Trims(raw, parser, currentYear) {
      PreparedRow(raw, parser, currentYear, r);
    } else if !GetsTiers(raw, parser, currentYear, cuts) {
      assert false;
    } else {
      TieredRow(raw, parser, currentYear, cuts, r);
    }
  }

  /** A row of the tiered table: as CleanedRow states, with tiers. */
  lemma TieredRow(raw: Table, parser: DateParser, currentYear: int, cuts: Cuts, r: Row)
    requires r in Step(Trimmed(raw, parser, currentYear, cuts), TierStage(cuts))
    ensures Holds(AllPresent(Checked(raw.columns)), r)
    ensures "host_start_year" in Parsed(raw.columns) ==> YearInRange(r, currentYear)
    ensures CellGe(Get(r, "price"), cuts.trimLow) && CellLe(Get(r, "price"), cuts.trimHigh)
    ensures Get(r, "price_tier") == Text(TierLabel(AssignTier(Get(r, "price"), cuts.tierLow, cuts.tierHigh)))
  {
    var trimmed := Trimmed(raw, parser, currentYear, cuts);
    var k := TieredSource(trimmed, cuts, r);
    var p := trimmed[k];
    assert p in trimmed;
    PreparedRow(raw, parser, currentYear, p);
    assert Holds(TrimStage(cuts).mask, p);
    assert forall c :: c != "price_tier" ==> Get(r, c) == Get(p, c);
  }

  /** Tiering a table whose prices lie in the trim band: every price lies
      within the range its tier is shown with. */
  lemma TieredWithinRange(trimmed: seq<Row>, cuts: Cuts, r: Row)
    requires |trimmed| > 0
    requires forall i :: 0 <= i < |trimmed| ==> Holds(TrimStage(cuts).mask, trimmed[i])
    requires r in Step(trimmed, TierStage(cuts))
    ensures var ranges := PriceRanges(trimmed, cuts);
      && Get(r, "price_tier").Text? && Get(r, "price_tier").s in ranges
      && ranges[Get(r, "price_tier").s].from <= Amount(Get(r, "price")) <= ranges[Get(r, "price_tier").s].to
  {
    var k := TieredSource(trimmed, cuts, r);
    var price := Get(trimmed[k], "price");
    assert Get(r, "price") == price;
    assert Holds(TrimStage(cuts).mask, trimmed[k]);
    TrimmedPriceFinite(price, cuts);
    assert MinPrice(trimmed) <= Amount(price) <= MaxPrice(trimmed);
  }

  /** With tiers, every listing's price lies within the range the legend
      shows for its tier. */
  lemma TierWithinRange(raw: Table, parser: DateParser, currentYear: int, cuts: Cuts, r: Row)
    requires GetsTiers(raw, parser, currentYear, cuts)
    requires r in CleanData(Some(raw), parser, currentYear, cuts).0.rows
    ensures var ranges := CleanData(Some(raw), parser, currentYear, cuts).1;
      && Get(r, "price_tier").Text? && Get(r, "price_tier").s in ranges
      && ranges[Get(r, "price_tier").s].from <= Amount(Get(r, "price")) <= ranges[Get(r, "price_tier").s].to
  {
    CleanedRows(raw, parser, currentYear, cuts);
    TieredWithinRange(Trimmed(raw, parser, currentYear, cuts), cuts, r);
  }

  /** The error outcomes of the loader:
      - a missing file gives an empty table and no ranges, and nothing is
        drawn;
      - ranges are filled, and the tier column added, exactly when tiers
        are added;
      - a trim that leaves nothing leaves an empty table, and nothing is
        drawn. */
  lemma ErrorOutcomes(file: Option<Table>, parser: DateParser, currentYear: int, cuts: Cuts)
    ensures file.None? ==> CleanData(file, parser, currentYear, cuts) == (Table({}, []), map[])
    ensures file.None? ==> !Renders(CleanData(file, parser, currentYear, cuts).0)
    ensures file.Some? ==>
      (CleanData(file, parser, currentYear, cuts).1 != map[] <==> GetsTiers(file.value, parser, currentYear, cuts))
    ensures file.Some? ==>
      CleanData(file, parser, currentYear, cuts).0.columns ==
        Parsed(file.value.columns) + (if GetsTiers(file.value, parser, currentYear, cuts) then {"price_tier"} else {})
    ensures file.Some? && Trims(file.value, parser, currentYear) && !GetsTiers(file.value, parser, currentYear, cuts) ==>
      CleanData(file, parser, currentYear, cuts).0.rows == [] && !Renders(CleanData(file, parser, currentYear, cuts).0)
    ensures file.Some? && GetsTiers(file.value, parser, currentYear, cuts) ==>
      |CleanData(file, parser, currentYear, cuts).0.rows| == |Trimmed(file.value, parser, currentYear, cuts)| > 0
  {
    if file.Some? {
      var raw := file.value;
      var pre := Prelude(raw.columns, parser, currentYear);
      var trim := TrimStage(cuts);
      if GetsTiers(raw, parser, currentYear, cuts) {
        assert "Budget" in CleanData(file, parser, currentYear, cuts).1;
        RunAppend(raw.rows, pre, [trim]);
        RunOne(Prepared(raw, parser, currentYear), trim);
        RunAppend(raw.rows, pre + [trim], TierStages(cuts));
        TierDropRemovesNothing(Trimmed(raw, parser, currentYear, cuts), cuts);
      } else if Trims(raw, parser, currentYear) {
        RunAppend(raw.rows, pre, [trim]);
        RunOne(Prepared(raw, parser, currentYear), trim);
      }
    }
  }

  /** The cleaned rows come from the file's rows at strictly increasing
      positions; each agrees with its source row on every column other than
      price, host_since, host_start_year, host_start_month and price_tier;
      and every row that survives the steps is among them. */
  lemma CleanedProvenance(raw: Table, parser: DateParser, currentYear: int, cuts: Cuts)
    ensures var ps := Stages(raw, parser, currentYear, cuts);
      var out, o := CleanData(Some(raw), parser, currentYear, cuts).0.rows, Origins(raw.rows, ps);
      && |o| == |out|
      && (forall k :: 0 <= k < |o| ==> o[k] < |raw.rows| && RunRow(raw.rows[o[k]], ps) == Some(out[k]))
      && (forall k, c :: 0 <= k < |o| && c !in Rewritten ==> Get(out[k], c) == Get(raw.rows[o[k]], c))
      && (forall k, l :: 0 <= k < l < |o| ==> o[k] < o[l])
      && (forall i :: 0 <= i < |raw.rows| && RunRow(raw.rows[i], ps).Some? ==> i in o)
  {
    var ps := Stages(raw, parser, currentYear, cuts);
    assert CleanData(Some(raw), parser, currentYear, cuts).0.rows == Run(raw.rows, ps);
    StagesTargets(raw, parser, currentYear, cuts);
    Provenance(raw.rows, ps);
  }

  /** The steps rewrite no column outside Rewritten. */
  lemma StagesTargets(raw: Table, parser: DateParser, currentYear: int, cuts: Cuts)
    ensures Targets(Stages(raw, parser, currentYear, cuts)) <= Rewritten
  {
    var pre := Prelude(raw.columns, parser, currentYear);
    var trim := [TrimStage(cuts)];
    PreludeTargets(raw.columns, parser, currentYear);
    TargetsAppend(pre, trim);
    TargetsAppend(pre + trim, TierStages(cuts));
    assert Targets(trim) == {};
    forall t | t in Targets(TierStages(cuts)) ensures t == "price_tier" {
      var ts := TierStages(cuts);
      var i :| 0 <= i < |ts| && ts[i].Assign? && ts[i].target == t;
      assert i == 0;
    }
  }

  /** The steps up to the trim rewrite the price and the host dates only. */
  lemma PreludeTargets(cols: set<Col>, parser: DateParser, currentYear: int)
    ensures Targets(Prelude(cols, parser, currentYear)) <= {"price", "host_since", "host_start_year", "host_start_month"}
  {
    var front := PriceStages(cols) + HostDateStages(cols, parser);
    var drop := [Filter(AllPresent(Checked(cols)))];
    var ys := YearStages(Parsed(cols), currentYear);
    TargetsAppend(PriceStages(cols), HostDateStages(cols, parser));
    TargetsAppend(front, drop);
    TargetsAppend(front + drop, ys);
    assert Targets(drop) == {};
  }

  // ---------------------------------------------------------------------
  // What happens to one listing

  /** A listing with its price text cleaned when the table has a price, and
      its `host_since` parsed, with the year and month added, when the table
      has that column. */
  function Converted(cols: set<Col>, parser: DateParser, x: Row): Row {
    var p := if "price" in cols then x["price" := CoercePriceCell(Get(x, "price"))] else x;
    if "host_since" in cols then
      var d := ToDateCell(Get(p, "host_since"), parser);
      p["host_since" := d]["host_start_year" := YearCell(d)]["host_start_month" := MonthCell(d)]
    else p
  }

  /** The `dropna` and the year screen on a converted listing: every checked
      column present, and a start year, when the table has one, from 2008
      to the current year. */
  predicate Passes(cols: set<Col>, currentYear: int, y: Row) {
    && (forall c :: c in Checked(cols) ==> Get(y, c) != Missing)
    && ("host_start_year" in Parsed(cols) ==>
          CellGe(Get(y, "host_start_year"), FirstYear as real)
          && CellLe(Get(y, "host_start_year"), currentYear as real))
  }

  /** The start year cast to an integer, when the table has one. */
  function YearCast(cols: set<Col>, y: Row): Row {
    if "host_start_year" in Parsed(cols) then y["host_start_year" := AsIntCell(Get(y, "host_start_year"))] else y
  }

  /** The listings `load_and_clean_data` keeps from a given file: those that
      pass the `dropna` and the year screen and, when the loader trims, whose
      price lies in the trim band. */
  predicate Admitted(raw: Table, parser: DateParser, currentYear: int, cuts: Cuts, x: Row) {
    var y := YearCast(raw.columns, Converted(raw.columns, parser, x));
    && Passes(raw.columns, currentYear, Converted(raw.columns, parser, x))
    && (Trims(raw, parser, currentYear) ==> Holds(TrimStage(cuts).mask, y))
  }

  /** The form in which a kept listing comes out: converted, its year cast,
      and its tier added when the loader adds tiers. */
  function Cleaned(raw: Table, parser: DateParser, currentYear: int, cuts: Cuts, x: Row): Row {
    var y := YearCast(raw.columns, Converted(raw.columns, parser, x));
    if GetsTiers(raw, parser, currentYear, cuts) then
      y["price_tier" := Text(TierLabel(AssignTier(Get(y, "price"), cuts.tierLow, cuts.tierHigh)))]
    else y
  }

  /** The price step on one listing. */
  lemma PriceStagesRow(cols: set<Col>, x: Row)
    ensures RunRow(x, PriceStages(cols)) ==
      Some(if "price" in cols then x["price" := CoercePriceCell(Get(x, "price"))] else x)
  {
    if "price" in cols {
      RunRowCons(x, PriceStages(cols)[0], []);
      assert [PriceStages(cols)[0]] + [] == PriceStages(cols);
    }
  }

  /** The date steps on one listing. */
  lemma HostDateStagesRow(cols: set<Col>, parser: DateParser, p: Row)
    ensures var d := ToDateCell(Get(p, "host_since"), parser);
      RunRow(p, HostDateStages(cols, parser)) ==
        Some(if "host_since" in cols
             then p["host_since" := d]["host_start_year" := YearCell(d)]["host_start_month" := MonthCell(d)]
             else p)
  {
    if "host_since" in cols {
      var hs := HostDateStages(cols, parser);
      var d := ToDateCell(Get(p, "host_since"), parser);
      var p1 := p["host_since" := d];
      var p2 := p1["host_start_year" := YearCell(d)];
      assert hs == [hs[0]] + ([hs[1]] + [hs[2]]);
      RunRowCons(p, hs[0], [hs[1]] + [hs[2]]);
      RunRowCons(p1, hs[1], [hs[2]]);
      RunRowCons(p2, hs[2], []);
      assert [hs[2]] + [] == [hs[2]];
    }
  }

  /** The year steps on one listing. */
  lemma YearStagesOutcome(cols: set<Col>, currentYear: int, y: Row)
    ensures RunRow(y, YearStages(Parsed(cols), currentYear)) ==
      if "host_start_year" in Parsed(cols) ==>
           CellGe(Get(y, "host_start_year"), FirstYear as real)
           && CellLe(Get(y, "host_start_year"), currentYear as real)
      then Some(YearCast(cols, y)) else None
  {
    var ys := YearStages(Parsed(cols), currentYear);
    if "host_start_year" in Parsed(cols) {
      var screen, cast := ys[0], ys[1];
      RunRowSnoc(y, [], screen);
      RunRowSnoc(y, [screen], cast);
      assert [] + [screen] == [screen] && [screen] + [cast] == ys;
      assert StepRow(y, cast) == Some(YearCast(cols, y));
    } else {
      assert ys == [];
    }
  }

  /** One listing through the steps up to the trim: it comes out, converted
      and with its year cast, exactly when its converted form passes the
      `dropna` and the year screen. Columns the table lacks are not
      checked. */
  lemma PreludeOutcome(cols: set<Col>, parser: DateParser, currentYear: int, x: Row)
    ensures RunRow(x, Prelude(cols, parser, currentYear)) ==
      if Passes(cols, currentYear, Converted(cols, parser, x))
      then Some(YearCast(cols, Converted(cols, parser, x))) else None
  {
    var ps, hs := PriceStages(cols), HostDateStages(cols, parser);
    var d, ys := [Filter(AllPresent(Checked(cols)))], YearStages(Parsed(cols), currentYear);
    var p := if "price" in cols then x["price" := CoercePriceCell(Get(x, "price"))] else x;
    var y := Converted(cols, parser, x);
    RunRowAppend(x, ps + hs + d, ys);
    RunRowAppend(x, ps + hs, d);
    RunRowAppend(x, ps, hs);
    PriceStagesRow(cols, x);
    assert Get(p, "host_since") == Get(x, "host_since");
    HostDateStagesRow(cols, parser, p);
    assert RunRow(x, ps + hs) == Some(y);
    RunRowCons(y, d[0], []);
    assert [d[0]] + [] == d;
    YearStagesOutcome(cols, currentYear, y);
  }

  /** The trim and the tier steps on one listing that reached them. */
  lemma TrimTierOutcome(y: Row, cuts: Cuts)
    ensures RunRow(y, [TrimStage(cuts)]) == if Holds(TrimStage(cuts).mask, y) then Some(y) else None
    ensures RunRow(y, [TrimStage(cuts)] + TierStages(cuts)) ==
      if Holds(TrimStage(cuts).mask, y)
      then Some(y["price_tier" := Text(TierLabel(AssignTier(Get(y, "price"), cuts.tierLow, cuts.tierHigh)))])
      else None
  {
    var ts := TierStages(cuts);
    var z := y["price_tier" := Text(TierLabel(AssignTier(Get(y, "price"), cuts.tierLow, cuts.tierHigh)))];
    RunRowCons(y, TrimStage(cuts), []);
    assert [TrimStage(cuts)] + [] == [TrimStage(cuts)];
    RunRowCons(y, TrimStage(cuts), ts);
    assert ts == [ts[0]] + [ts[1]];
    RunRowCons(y, ts[0], [ts[1]]);
    RunRowCons(z, ts[1], []);
    assert [ts[1]] + [] == [ts[1]];
    assert Holds(ts[1].mask, z);
  }

  /** One listing through every step of the loader: it comes out, in its
      cleaned form, exactly when it is admitted. */
  lemma RowOutcome(raw: Table, parser: DateParser, currentYear: int, cuts: Cuts, x: Row)
    ensures RunRow(x, Stages(raw, parser, currentYear, cuts)) ==
      if Admitted(raw, parser, currentYear, cuts, x) then Some(Cleaned(raw, parser, currentYear, cuts, x)) else None
  {
    var pre := Prelude(raw.columns, parser, currentYear);
    var y := YearCast(raw.columns, Converted(raw.columns, parser, x));
    PreludeOutcome(raw.columns, parser, currentYear, x);
    TrimTierOutcome(y, cuts);
    if Trims(raw, parser, currentYear) {
      if GetsTiers(raw, parser, currentYear, cuts) {
        assert pre + [TrimStage(cuts)] + TierStages(cuts) == pre + ([TrimStage(cuts)] + TierStages(cuts));
        RunRowAppend(x, pre, [TrimStage(cuts)] + TierStages(cuts));
      } else {
        RunRowAppend(x, pre, [TrimStage(cuts)]);
      }
    }
  }

  /** The cleaned table, listing by listing: each output row is the cleaned
      form of an admitted row of the file, in file order, and no admitted
      row is lost. */
  lemma CleanedListings(raw: Table, parser: DateParser, currentYear: int, cuts: Cuts)
    ensures var out, o := CleanData(Some(raw), parser, currentYear, cuts).0.rows, Origins(raw.rows, Stages(raw, parser, currentYear, cuts));
      && |o| == |out|
      && (forall k :: 0 <= k < |o| ==>
            && o[k] < |raw.rows|
            && Admitted(raw, parser, currentYear, cuts, raw.rows[o[k]])
            && out[k] == Cleaned(raw, parser, currentYear, cuts, raw.rows[o[k]]))
      && (forall k, l :: 0 <= k < l < |o| ==> o[k] < o[l])
      && (forall i :: 0 <= i < |raw.rows| && Admitted(raw, parser, currentYear, cuts, raw.rows[i]) ==> i in o)
  {
    CleanedProvenance(raw, parser, currentYear, cuts);
    forall i | 0 <= i < |raw.rows| {
      RowOutcome(raw, parser, currentYear, cuts, raw.rows[i]);
    }
  }

  /** The columns some step may rewrite. */
  const Rewritten: set<Col> := {"price", "host_since", "host_start_year", "host_start_month", "price_tier"}

  /** `if df.empty: st.stop()`: the page is drawn only for a table with rows
      and columns. */
  predicate Renders(t: Table) {
    !t.Empty()
  }

  // ---------------------------------------------------------------------
  // The loader

  /** `load_and_clean_data` on the table read from the file, or on None
      when the file was not found. */
  method LoadAndCleanData(file: Option<Table>, parser: DateParser, currentYear: int, cuts: Cuts)
    returns (table: Table, ranges: map<string, PriceRange>)
    requires file.Some? ==> file.value.Valid()
    ensures (table, ranges) == CleanData(file, parser, currentYear, cuts)
    ensures table.Valid()
  {
    if file.None? {
      return Table({}, []), map[];
    }
    var raw := file.value;
    var df := new DataFrame(raw);
    CleanUpToTrim(df, parser, currentYear);
    ghost var prepared := df.rows;
    ranges := TrimAndTier(df, cuts);
    Assembled(raw, parser, currentYear, cuts, prepared, df.rows, df.columns, ranges);
    table := df.Snapshot();
  }

  /** The trim and the tiers, applied to the table after the steps up to
      the trim, give what `load_and_clean_data` returns. */
  lemma Assembled(raw: Table, parser: DateParser, currentYear: int, cuts: Cuts, prepared: seq<Row>,
                  rows: seq<Row>, columns: set<Col>, ranges: map<string, PriceRange>)
    requires prepared == Run(raw.rows, Prelude(raw.columns, parser, currentYear))
    requires var trimmed := Step(prepared, TrimStage(cuts));
      if "price" !in raw.columns || |prepared| == 0 then
        rows == prepared && columns == Parsed(raw.columns) && ranges == map[]
      else if |trimmed| == 0 then
        rows == trimmed && columns == Parsed(raw.columns) && ranges == map[]
      else
        rows == Run(trimmed, TierStages(cuts)) && columns == Parsed(raw.columns) + {"price_tier"}
        && ranges == PriceRanges(trimmed, cuts)
    ensures (Table(columns, rows), ranges) == CleanData(Some(raw), parser, currentYear, cuts)
  {
    var pre := Prelude(raw.columns, parser, currentYear);
    if Trims(raw, parser, currentYear) {
      RunAppend(raw.rows, pre, [TrimStage(cuts)]);
      RunOne(prepared, TrimStage(cuts));
      if GetsTiers(raw, parser, currentYear, cuts) {
        RunAppend(raw.rows, pre + [TrimStage(cuts)], TierStages(cuts));
      }
    }
  }

  /** Everything up to the price trim. */
  method CleanUpToTrim(df: DataFrame, parser: DateParser, currentYear: int)
    requires df.Valid()
    modifies df
    ensures df.Valid() && df.columns == Parsed(old(df.columns))
    ensures df.rows == Run(old(df.rows), Prelude(old(df.columns), parser, currentYear))
  {
    ghost var columns, rows0 := df.columns, df.rows;
    ghost var p, h := PriceStages(columns), HostDateStages(columns, parser);
    ghost var d, y := [Filter(AllPresent(Checked(columns)))], YearStages(Parsed(columns), currentYear);
    CleanPriceText(df);
    ghost var rows1 := df.rows;
    ParseHostSince(df, parser);
    ghost var rows2 := df.rows;
    assert Checked(df.columns) == Checked(columns);
    DropMissing(df);
    ghost var rows3 := df.rows;
    FilterYears(df, currentYear);
    RunOne(rows2, d[0]);
    RunAppend(rows0, p, h);
    RunAppend(rows0, p + h, d);
    RunAppend(rows0, p + h + d, y);
  }

  /** The price trim, and the tiers and their ranges when listings remain. */
  method TrimAndTier(df: DataFrame, cuts: Cuts) returns (ranges: map<string, PriceRange>)
    requires df.Valid()
    modifies df
    ensures df.Valid()
    ensures var trimmed := Step(old(df.rows), TrimStage(cuts));
      if "price" !in old(df.columns) || |old(df.rows)| == 0 then
        df.rows == old(df.rows) && df.columns == old(df.columns) && ranges == map[]
      else if |trimmed| == 0 then
        df.rows == trimmed && df.columns == old(df.columns) && ranges == map[]
      else
        && df.rows == Run(trimmed, TierStages(cuts))
        && df.columns == old(df.columns) + {"price_tier"}
        && ranges == PriceRanges(trimmed, cuts)
  {
    ranges := map[];
    if "price" in df.columns && |df.rows| > 0 {
      df.Where(TrimStage(cuts).mask);
      if !df.Snapshot().Empty() {
        ghost var trimmed := df.rows;
        ranges := PriceRanges(df.rows, cuts);
        df.SetColumn("price_tier", "price", TierOf(cuts.tierLow, cuts.tierHigh));
        df.DropNa({"price_tier"});
        RunOne(trimmed, TierStage(cuts));
        RunSnoc(trimmed, [TierStage(cuts)], Filter(AllPresent({"price_tier"})));
        assert [TierStage(cuts)] + [Filter(AllPresent({"price_tier"}))] == TierStages(cuts);
      }
    }
  }

  /** The price text with '$' and ',' removed, coerced to a number. */
  method CleanPriceText(df: DataFrame)
    requires df.Valid()
    modifies df
    ensures df.Valid() && df.columns == old(df.columns)
    ensures df.rows == Run(old(df.rows), PriceStages(old(df.columns)))
  {
    if "price" in df.columns {
      RunOne(df.rows, Assign("price", "price", PriceText));
      df.SetColumn("price", "price", PriceText);
    }
  }

  /** `host_since` parsed, and its year and month added, when it exists. */
  method ParseHostSince(df: DataFrame, parser: DateParser)
    requires df.Valid()
    modifies df
    ensures df.Valid() && df.columns == Parsed(old(df.columns))
    ensures df.rows == Run(old(df.rows), HostDateStages(old(df.columns), parser))
  {
    if "host_since" in df.columns {
      ghost var rows0 := df.rows;
      var ss := HostDateStages(df.columns, parser);
      df.SetColumn("host_since", "host_since", ParseDate(parser));
      df.SetColumn("host_start_year", "host_since", YearOf);
      df.SetColumn("host_start_month", "host_since", MonthOf);
      RunOne(rows0, ss[0]);
      RunSnoc(rows0, [ss[0]], ss[1]);
      RunSnoc(rows0, [ss[0], ss[1]], ss[2]);
      assert [ss[0]] + [ss[1]] == [ss[0], ss[1]] && [ss[0], ss[1]] + [ss[2]] == ss;
    }
  }

  /** The `dropna` over the checked columns the table has. */
  method DropMissing(df: DataFrame)
    requires df.Valid()
    modifies df
    ensures df.Valid() && df.columns == old(df.columns)
    ensures df.rows == Step(old(df.rows), Filter(AllPresent(Checked(old(df.columns)))))
  {
    df.DropNa(Checked(df.columns));
  }

  /** The start-year filter and the cast to integer, when the year exists. */
  method FilterYears(df: DataFrame, currentYear: int)
    requires df.Valid()
    modifies df
    ensures df.Valid() && df.columns == old(df.columns)
    ensures df.rows == Run(old(df.rows), YearStages(old(df.columns), currentYear))
  {
    if "host_start_year" in df.columns {
      ghost var rows0 := df.rows;
      var ss := YearStages(df.columns, currentYear);
      df.Where(InRange("host_start_year", FirstYear as real, currentYear as real));
      df.SetColumn("host_start_year", "host_start_year", AsInt);
      RunOne(rows0, ss[0]);
      RunSnoc(rows0, [ss[0]], ss[1]);
      assert [ss[0]] + [ss[1]] == ss;
    }
  }

  // ---------------------------------------------------------------------
  // The tier dropdown of the seasonal chart

  /** Python's `<` on strings: code points compared left to right, a proper
      prefix first. */
  predicate Before(a: string, b: string) {
    if |a| == 0 then |b| > 0
    else if |b| == 0 then false
    else if a[0] != b[0] then a[0] < b[0]
    else Before(a[1..], b[1..])
  }

  lemma {:induction false} BeforeIrreflexive(a: string)
    ensures !Before(a, a)
  {
    if |a| > 0 {
      BeforeIrreflexive(a[1..]);
    }
  }

  lemma {:induction false} BeforeTransitive(a: string, b: string, c: string)
    requires Before(a, b) && Before(b, c)
    ensures Before(a, c)
  {
    if |a| > 0 && |b| > 0 && |c| > 0 && a[0] == b[0] && b[0] == c[0] {
      BeforeTransitive(a[1..], b[1..], c[1..]);
    }
  }

  lemma {:induction false} BeforeTotal(a: string, b: string)
    ensures a == b || Before(a, b) || Before(b, a)
  {
    if |a| > 0 && |b| > 0 && a[0] == b[0] {
      BeforeTotal(a[1..], b[1..]);
      if a[1..] == b[1..] {
        assert a == [a[0]] + a[1..] && b == [b[0]] + b[1..];
      }
    }
  }

  predicate StrictlySorted(s: seq<string>) {
    forall i, j :: 0 <= i < j < |s| ==> Before(s[i], s[j])
  }

  /** `x` inserted into a strictly sorted list, unless already there. */
  function Insert(x: string, s: seq<string>): (r: seq<string>)
    requires StrictlySorted(s)
    ensures StrictlySorted(r)
    ensures forall y :: y in r <==> y == x || y in s
  {
    if |s| == 0 then [x]
    else if x == s[0] then s
    else if Before(x, s[0]) then
      assert forall j :: 0 < j < |s| ==> Before(x, s[j]) by {
        forall j | 0 < j < |s| ensures Before(x, s[j]) {
          BeforeTransitive(x, s[0], s[j]);
        }
      }
      [x] + s
    else
      BeforeTotal(x, s[0]);
      var rest := Insert(x, s[1..]);
      assert forall y :: y in rest ==> Before(s[0], y);
      [s[0]] + rest
  }

  /** `sorted(set(xs))`. */
  function SortedDistinct(xs: seq<string>): (r: seq<string>)
    ensures StrictlySorted(r)
    ensures forall y :: y in r <==> y in xs
  {
    if |xs| == 0 then []
    else
      var r := Insert(xs[|xs| - 1], SortedDistinct(xs[..|xs| - 1]));
      assert xs == xs[..|xs| - 1] + [xs[|xs| - 1]];
      r
  }

  /** The text values of the tier column, row by row. */
  function TierTexts(rows: seq<Row>): (r: seq<string>)
    ensures forall x :: x in r <==> exists i :: 0 <= i < |rows| && Get(rows[i], "price_tier") == Text(x)
  {
    if |rows| == 0 then []
    else
      var c := Get(rows[0], "price_tier");
      var rest := TierTexts(rows[1..]);
      assert forall i :: 1 <= i < |rows| ==> rows[i] == rows[1..][i - 1];
      (if c.Text? then [c.s] else []) + rest
  }

  /** `['All'] + sorted(df['price_tier'].unique().tolist())`: 'All' first,
      then every tier that occurs, each once, in ascending order. */
  function TierOptions(t: Table): (r: seq<string>)
    ensures |r| > 0 && r[0] == "All"
    ensures StrictlySorted(r[1..])
    ensures forall x :: x in r[1..] <==> exists i :: 0 <= i < |t.rows| && Get(t.rows[i], "price_tier") == Text(x)
  {
    var r := ["All"] + SortedDistinct(TierTexts(t.rows));
    assert r[1..] == SortedDistinct(TierTexts(t.rows));
    r
  }

  /** Tier labels sort in price order: Budget, Mid-Range, Premium. */
  lemma LabelOrder(a: Tier, b: Tier)
    ensures Before(TierLabel(a), TierLabel(b)) <==> Rank(a) < Rank(b)
  {
    BeforeIrreflexive(TierLabel(a));
  }

  /** On a tiered table the options after 'All' are tier labels, cheapest
      tier first. */
  lemma TieredOptions(raw: Table, parser: DateParser, currentYear: int, cuts: Cuts)
    requires GetsTiers(raw, parser, currentYear, cuts)
    ensures var opts := TierOptions(CleanData(Some(raw), parser, currentYear, cuts).0)[1..];
      && (forall i :: 0 <= i < |opts| ==> exists tier :: TierLabel(tier) == opts[i])
      && (forall i, j, a, b :: 0 <= i < j < |opts| && TierLabel(a) == opts[i] && TierLabel(b) == opts[j] ==>
            Rank(a) < Rank(b))
  {
    var t := CleanData(Some(raw), parser, currentYear, cuts).0;
    var opts := TierOptions(t)[1..];
    forall i | 0 <= i < |opts| ensures exists tier :: TierLabel(tier) == opts[i] {
      assert opts[i] in opts;
      var k :| 0 <= k < |t.rows| && Get(t.rows[k], "price_tier") == Text(opts[i]);
      assert t.rows[k] in t.rows;
      CleanedRow(raw, parser, currentYear, cuts, t.rows[k]);
    }
    forall i, j, a, b | 0 <= i < j < |opts| && TierLabel(a) == opts[i] && TierLabel(b) == opts[j]
      ensures Rank(a) < Rank(b)
    {
      LabelOrder(a, b);
    }
  }

  /** The seasonal chart's rows: `df` for 'All' or when there is no tier
      column, otherwise `df[df['price_tier'] == selected]`. */
  function SeasonalRows(t: Table, selected: string): (r: seq<Row>)
    ensures selected == "All" || "price_tier" !in t.columns ==> r == t.rows
    ensures |r| <= |t.rows|
    ensures selected != "All" && "price_tier" in t.columns ==>
      forall x :: x in r <==> x in t.rows && Get(x, "price_tier") == Text(selected)
  {
    if selected == "All" || "price_tier" !in t.columns then t.rows
    else Step(t.rows, Filter(EqualTo("price_tier", Text(selected))))
  }

  /** Any other choice keeps exactly the rows of that tier, in their
      order. */
  lemma SeasonalTier(t: Table, selected: string)
    requires selected != "All" && "price_tier" in t.columns
    ensures var out, o := SeasonalRows(t, selected), Origins(t.rows, [Filter(EqualTo("price_tier", Text(selected)))]);
      && |o| == |out|
      && (forall k :: 0 <= k < |o| ==> o[k] < |t.rows| && out[k] == t.rows[o[k]])
      && (forall k :: 0 <= k < |out| ==> Get(out[k], "price_tier") == Text(selected))
      && (forall k, l :: 0 <= k < l < |o| ==> o[k] < o[l])
      && (forall i :: 0 <= i < |t.rows| && Get(t.rows[i], "price_tier") == Text(selected) ==> i in o)
  {
    var m := EqualTo("price_tier", Text(selected));
    KeepOrigins(t.rows, m);
    var out := Step(t.rows, Filter(m));
    assert SeasonalRows(t, selected) == out;
    forall k | 0 <= k < |out| ensures Get(out[k], "price_tier") == Text(selected) {
      assert Holds(m, out[k]);
    }
    forall i | 0 <= i < |t.rows| && Get(t.rows[i], "price_tier") == Text(selected)
      ensures Holds(m, t.rows[i])
    {
    }
  }
}
