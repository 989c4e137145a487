# Nashville Airbnb dashboards: the listing cleaners

Three Streamlit dashboards read the Nashville Airbnb listings export and
clean it before drawing charts. This project models the cleaning, not the
charts.

- `load_airbnb_data` (datavisualization_assignment.py) does the following:
  - parses `host_since` with a fixed format and adds `host_start_year`;
  - coerces four numeric columns;
  - drops incomplete listings;
  - drops infinite and negative review rates;
  - drops start years outside 2008 to the current year;
  - maps the superhost text to a boolean;
  - keeps positive prices only.
- `load_and_clean_data` (week6_assignment.py) does the following:
  - handles a missing file;
  - strips `$` and `,` from the price text;
  - adds the start year and month;
  - drops rows missing the checked columns the table has;
  - filters and casts the start year;
  - trims prices to an inclusive quantile band;
  - labels each listing Budget, Mid-Range or Premium, and builds the tier
    legend.

  Its page stops on an empty table. Its tier dropdown lists 'All' and then
  the sorted tiers, and filters the seasonal chart's rows.
- The preprocessing of streamlit_app.py does the following:
  - parses the date and adds the year;
  - runs the numeric coercion loop twice;
  - drops listings missing any of six columns;
  - removes review rates equal to plus infinity.
- The sidebar of the first dashboard maps a metric label to a count or a
  mean.

## How it is modelled

- **Cells** (`Cells`):
  - A cell is missing, a number (finite or ±infinity), a whole number,
    text, a date or a flag.
  - Each per-column conversion is a function on one cell: numeric coercion,
    price-text cleanup, date parsing, year and month, integer cast, the
    superhost map and `assign_tier`.
- **Tables** (`Frame`):
  - A table is a set of column names and a sequence of rows. A row is a map
    from column to cell, and an absent key reads as missing.
  - A cleaning step is data: `Assign(target, source, conv)` is
    `df[target] = conv(df[source])`, and `Filter(mask)` is a boolean mask
    or a `dropna`.
  - `Run` applies steps to the whole table one after another, as pandas
    does. `RowWise` runs each row through all steps on its own. They are
    proved equal.
  - `Origins` gives, for each output row, the position of the input row it
    came from. This is how "the output is a subsequence of the input" is
    stated.
- **DataFrame** (`Frame.DataFrame`):
  - This class holds the mutable `columns` and `rows`.
  - Its methods are `SetColumn`, `Where` and `DropNa`, and each one
    reassigns the rows in place.
  - The loaders are methods that allocate a `DataFrame` and mutate it in
    the order the scripts do. Their results are proved equal to the `Run`
    of their steps.
- **Per-listing lemmas:** for each script, a lemma says exactly which
  listing comes out and in what form (`DataVisualization.RowOutcome`,
  `WeekSix.RowOutcome`, `StreamlitApp.RowOutcome`).

The inputs the scripts get from the environment are parameters:

- the date parser, as a finite map from text to date;
- the current year;
- the four quantile cut points (`WeekSix.Cuts`);
- for `load_and_clean_data`, the table read from the file, or `None` when
  the file is not found.

## Model

| member | source | states |
|---|---|---|
| Cells.ParseNumber | datavisualization_assignment.py:29-30 | empty text does not parse; "inf"/"infinity" in any case is plus infinity; only text starting with '-' reads as negative or minus infinity |
| Cells.ToNumericCell | datavisualization_assignment.py:29-30 | `to_numeric(errors='coerce')` on one cell yields a number or a missing cell; a cell that is already numeric is kept; a boolean becomes 1 or 0; the result is missing exactly for a missing cell, a date, or text the parser rejects |
| Cells.StripPrice | week6_assignment.py:19 | removing `[$,]` leaves no '$' or ',' and never lengthens the text |
| Cells.CoercePriceCell | week6_assignment.py:19 | the cleaned price is always a number or missing |
| Cells.ToDateCell | datavisualization_assignment.py:18 | with the fixed `%m/%d/%Y` format, a parsed date exists exactly when the text is one the parser accepts (or is already a date); otherwise the cell is NaT |
| Cells.YearCell | datavisualization_assignment.py:19 | `.dt.year` is missing exactly when the date is, and otherwise is the date's year |
| Cells.MonthCell | week6_assignment.py:24 | `.dt.month` is missing exactly when the date is, and otherwise is the date's month |
| Cells.Trunc | week6_assignment.py:37 | the cast truncates toward zero: the result is within one of the value, on the zero side |
| Cells.AsIntCell | week6_assignment.py:37 | `.astype(int)` turns an integer or finite real into the whole number `Trunc` gives, and leaves any other cell as it is |
| Cells.SuperhostCell | datavisualization_assignment.py:47 | the mapped superhost cell is a flag or missing; a flag is kept; anything other than a flag or text becomes missing |
| Cells.AssignTier | week6_assignment.py:60-66 | for an integer or finite real price: Budget exactly when it is at most the low cut, Mid-Range exactly when above the low and at most the high cut, Premium exactly when above both; minus infinity is Budget; plus infinity and non-numbers (NaN included) are Premium |
| CellFacts.ParseDigits | datavisualization_assignment.py:29-30 | the numeric parser reads a decimal numeral back as the number it denotes |
| CellFacts.StripIdempotent | week6_assignment.py:19 | stripping `$` and `,` a second time changes nothing |
| CellFacts.StripGrouped | week6_assignment.py:19 | stripping a number written with thousands separators leaves its plain digits |
| CellFacts.CoerceFormattedPrice | week6_assignment.py:19 | a price written "$" + grouped digits coerces to the number it denotes, for every natural number |
| CellFacts.CoercePriceExamples | week6_assignment.py:19 | "$1,200" gives 1200, "950" gives 950, "N/A" gives missing |
| CellFacts.ToNumericIdempotent | streamlit_app.py:21-27 | coercing an already coerced cell changes nothing |
| CellFacts.SuperhostCases | datavisualization_assignment.py:47 | the flag is True exactly for "t"/"true" in any case (or True), False exactly for "f"/"false" (or False), and missing otherwise |
| CellFacts.SuperhostExamples | datavisualization_assignment.py:47 | "TRUE" gives True, "f" gives False, "yes" and a missing cell give missing |
| CellFacts.TierBands | week6_assignment.py:60-66 | for low <= high, Budget, Mid-Range and Premium are exactly the bands (-inf, low], (low, high] and (high, inf) of an integer or real price |
| CellFacts.TierMonotone | week6_assignment.py:60-66 | a higher price, integer or real, never gets a lower tier |
| Frame.Keep | datavisualization_assignment.py:37-38 | a mask keeps only rows it holds for, keeps every such row, and adds none |
| Frame.RunFilters | datavisualization_assignment.py:34-44 | a row passes a run of masks, unchanged, exactly when every mask holds for it |
| Frame.RunIsRowWise | datavisualization_assignment.py:16-51 | running the steps as whole-column passes equals running each row through all steps on its own |
| Frame.RunAppend | datavisualization_assignment.py:16-51 | running two groups of steps in turn is running them as one sequence |
| Frame.OriginsSpec | datavisualization_assignment.py:34-51 | each output row is what its origin row becomes; origins strictly increase; every input row that survives is among them |
| Frame.KeepOrigins | week6_assignment.py:143 | a single mask yields exactly the rows it holds for, unchanged and in input order |
| Frame.Provenance | week6_assignment.py:18-69 | output rows come from input rows in order, and agree with them on every column no step assigns |
| Frame.FirstAbsent | datavisualization_assignment.py:18-34 | returns None exactly when all needed columns are present, otherwise an absent column (pandas' KeyError) |
| Frame.DataFrame.constructor | datavisualization_assignment.py:14 | the frame holds the columns and rows read from the file |
| Frame.DataFrame.SetColumn | datavisualization_assignment.py:30 | `df[target] = conv(df[source])`: target added to the columns, every row's target cell replaced, row count and order kept |
| Frame.DataFrame.Where | datavisualization_assignment.py:37 | `df = df[mask]`: the rows become those the mask holds for, columns unchanged |
| Frame.DataFrame.DropNa | datavisualization_assignment.py:34 | `dropna(subset=cols, inplace=True)`: the rows become those with every listed column present |
| Frame.DataFrame.Snapshot | datavisualization_assignment.py:53 | the returned table is the frame's current columns and rows |
| Coercion.CoerceAllCells | datavisualization_assignment.py:29-30 | after the loop, each listed column holds the coerced cell and every other column is as before |
| Coercion.RunNumericStages | datavisualization_assignment.py:29-30 | the loop's steps on one row give that row with its numeric columns coerced |
| Coercion.SecondCoercionIsNoOp | streamlit_app.py:21-27 | coercing the same columns twice gives what coercing once does |
| Coercion.TwoPassesAsOne | streamlit_app.py:21-27 | the two loops' steps on a row give what one loop's do |
| Coercion.CoerceNumericColumns | datavisualization_assignment.py:23-30 | the in-place loop coerces the four columns of every row and changes nothing else |
| DataVisualization.PreparedCells | datavisualization_assignment.py:16-47 | a prepared listing has: the parsed date; the year of that date, missing exactly when the date is; the numeric columns coerced; the superhost flag mapped; every other column as read |
| DataVisualization.RunDateStages | datavisualization_assignment.py:18-19 | the date steps add the parsed date and its year to a listing |
| DataVisualization.ScreensAdmit | datavisualization_assignment.py:34-51 | the masks hold for a listing exactly when it is admitted: ten columns present, finite non-negative review rate, whole year 2008..current year, a flag, positive price |
| DataVisualization.FilterOutcome | datavisualization_assignment.py:34-51 | after the numeric loop a listing survives, with its flag mapped, exactly when admitted |
| DataVisualization.RowOutcome | datavisualization_assignment.py:16-51 | one listing comes out, in its prepared form, exactly when that form is admitted |
| DataVisualization.CleanedRows | datavisualization_assignment.py:9-53 | the cleaned rows are the prepared forms of the admitted listings, in input order, with none lost |
| DataVisualization.ReadColumnsCover | datavisualization_assignment.py:18-34 | when every column the loader reads exists, the numeric and required columns exist once the year is added |
| DataVisualization.LoadAirbnbData | datavisualization_assignment.py:9-53 | KeyError exactly when a read column is absent; otherwise a valid table (input columns plus the year) equal to the per-row cleaning, every row admitted |
| DataVisualization.ParseHostSince | datavisualization_assignment.py:18-19 | the frame gets the parsed date and the `host_start_year` column |
| DataVisualization.DropImplausible | datavisualization_assignment.py:34-44 | the frame loses incomplete listings, infinite or negative review rates and years outside 2008..current year |
| DataVisualization.MapSuperhost | datavisualization_assignment.py:47-51 | the flag is mapped, unmapped flags are dropped, then non-positive prices are dropped |
| DataVisualization.Admission | datavisualization_assignment.py:16-51 | the loader's passes in turn (dates, coercion loop, screens, flag and price) give the per-row result, and every row they leave is admitted |
| DataVisualization.MainChartFor | datavisualization_assignment.py:113-124 | a chart exists exactly for a metric in the dictionary; it is always by host start year, titled after the metric, and a mean is over the metric's own column |
| DataVisualization.MetricChoice | datavisualization_assignment.py:113-124 | a chart exists exactly for the five labels; "Number of New Hosts" counts host ids and every other label is the mean of its column, always by host start year |
| DataVisualization.MeansAreOverCleanedColumns | datavisualization_assignment.py:84-90 | every averaged column is one the loader coerced and required |
| WeekSix.MinPrice | week6_assignment.py:49 | `df['price'].min()` is at most every price and equal to one |
| WeekSix.MaxPrice | week6_assignment.py:52 | `df['price'].max()` is at least every price and equal to one |
| WeekSix.PriceRanges | week6_assignment.py:49-58 | the legend has exactly Budget, Mid-Range and Premium; Budget starts at the cheapest trimmed price and Premium ends at the dearest; neighbouring ranges meet at the two tier cuts; the outer bounds enclose every price |
| WeekSix.CleanData | week6_assignment.py:8-71 | a missing file gives an empty table and no ranges; the ranges are empty or the three tiers; the file's columns are kept; ranges come with a `price_tier` column |
| WeekSix.AsIntInRange | week6_assignment.py:36-37 | a year that passed the 2008..current year filter casts to a whole year in the same range |
| WeekSix.TrimmedPriceFinite | week6_assignment.py:45 | a price inside the inclusive trim band is finite and between the two cut points |
| WeekSix.YearStagesRow | week6_assignment.py:34-37 | the year filter and cast keep the checked columns present and leave a whole year in range |
| WeekSix.PreparedRow | week6_assignment.py:18-37 | after the steps up to the trim, each checked column the table has is present, and the year (if any) is whole and in range |
| WeekSix.TierDropRemovesNothing | week6_assignment.py:68-69 | the `dropna` on `price_tier` removes no row: every price, even a missing one, gets a tier |
| WeekSix.CleanedRows | week6_assignment.py:39-69 | the result is the prepared rows (no price column or no rows), the trimmed rows (trim left none), or the trimmed rows with their tier |
| WeekSix.CleanedRow | week6_assignment.py:18-69 | every cleaned row: checked columns present; year whole and in range; after a trim, price within the band; with tiers, `price_tier` is `assign_tier` of its price |
| WeekSix.TieredRow | week6_assignment.py:18-69 | a row of the tiered table has its checked columns, a year in range, a price in the trim band, and the tier `assign_tier` gives that price |
| WeekSix.TieredWithinRange | week6_assignment.py:48-69 | on a trimmed table, every tiered price lies within its tier's legend range |
| WeekSix.TierWithinRange | week6_assignment.py:48-69 | every listing of a tiered result has a tier in the legend, with its price within that tier's range |
| WeekSix.ErrorOutcomes | week6_assignment.py:9-82 | see the list below this table |
| WeekSix.PriceStagesRow | week6_assignment.py:18-19 | the price step cleans a listing's price exactly when the table has a price column |
| WeekSix.HostDateStagesRow | week6_assignment.py:21-24 | the date steps parse `host_since` and add its year and month exactly when the table has that column |
| WeekSix.YearStagesOutcome | week6_assignment.py:34-37 | a listing passes the year steps, its year cast, exactly when the table has no year or its year is from 2008 to the current year |
| WeekSix.PreludeOutcome | week6_assignment.py:18-37 | a listing comes out of the steps up to the trim, converted and year cast, exactly when the checked columns the table has are present and the year (if the table has one) is in range; absent columns are not checked |
| WeekSix.TrimTierOutcome | week6_assignment.py:45-69 | a listing passes the trim unchanged exactly when its price is in the band, and then the tier steps add `assign_tier` of its price |
| WeekSix.RowOutcome | week6_assignment.py:18-69 | a listing of the file comes out, in its cleaned form, exactly when it is admitted |
| WeekSix.CleanedListings | week6_assignment.py:8-71 | the cleaned rows are the cleaned forms of the admitted listings, in file order, with none lost |
| WeekSix.CleanedProvenance | week6_assignment.py:18-69 | the cleaned rows come from the file's rows in order, none lost, and agree with them outside price, host_since, the year, the month and the tier |
| WeekSix.StagesTargets | week6_assignment.py:18-69 | the loader assigns no column other than price, host_since, host_start_year, host_start_month and price_tier |
| WeekSix.LoadAndCleanData | week6_assignment.py:8-71 | the in-place loader returns exactly `CleanData` (the table and the ranges), and the table is well formed |
| WeekSix.Assembled | week6_assignment.py:39-71 | the trim and tier passes on the table after the steps up to the trim give exactly `CleanData` |
| WeekSix.CleanUpToTrim | week6_assignment.py:18-37 | the frame becomes the run of the steps up to the trim; its columns gain the year and month when `host_since` exists |
| WeekSix.TrimAndTier | week6_assignment.py:42-69 | without price or rows nothing changes and the ranges are empty; a trim to nothing gives empty rows and ranges; otherwise tiers are added and the ranges built from the trimmed prices |
| WeekSix.CleanPriceText | week6_assignment.py:18-19 | the price text is cleaned and coerced when the column exists |
| WeekSix.ParseHostSince | week6_assignment.py:21-24 | `host_since` is parsed and the year and month added when the column exists |
| WeekSix.DropMissing | week6_assignment.py:27-31 | rows are dropped when any checked column the table has is missing |
| WeekSix.FilterYears | week6_assignment.py:34-37 | when the year exists, rows outside 2008..current year are dropped and the year is cast to int |
| WeekSix.BeforeIrreflexive | week6_assignment.py:126 | no text sorts before itself |
| WeekSix.BeforeTransitive | week6_assignment.py:126 | the string order used by `sorted` is transitive |
| WeekSix.BeforeTotal | week6_assignment.py:126 | any two distinct texts are ordered one way or the other |
| WeekSix.Insert | week6_assignment.py:126 | inserting into a strictly sorted list keeps it strictly sorted and adds exactly that element |
| WeekSix.SortedDistinct | week6_assignment.py:126 | `sorted(unique(xs))` is strictly sorted and holds exactly the elements of xs |
| WeekSix.TierTexts | week6_assignment.py:126 | the listed values are exactly the texts some row has in `price_tier` |
| WeekSix.TierOptions | week6_assignment.py:126 | the options are 'All' then every tier that occurs, once each, in ascending order |
| WeekSix.LabelOrder | week6_assignment.py:126 | the tier labels sort in price order: Budget, Mid-Range, Premium |
| WeekSix.TieredOptions | week6_assignment.py:126 | on a tiered result, every option after 'All' is a tier label, cheapest tier first |
| WeekSix.SeasonalRows | week6_assignment.py:140-143 | 'All', or a table without `price_tier`, leaves the table's rows; any other choice keeps no more rows than the table, and exactly those with that tier |
| WeekSix.SeasonalTier | week6_assignment.py:142-143 | any other choice keeps exactly the rows with that tier, unchanged and in order |
| StreamlitApp.PreparedCells | streamlit_app.py:19-27 | the prepared listing has the parsed date, its year (missing exactly when the date is), the coerced numeric columns, and every other column as read |
| StreamlitApp.PrepareRow | streamlit_app.py:19-23 | the date steps plus one coercion loop give the prepared listing |
| StreamlitApp.RowOutcome | streamlit_app.py:19-33 | a listing comes out, prepared, exactly when the six columns are present and its review rate is not +inf |
| StreamlitApp.OnePassOutcome | streamlit_app.py:21-27 | with a single coercion loop the outcome per listing is the same |
| StreamlitApp.SecondLoopIsNoOp | streamlit_app.py:21-27 | the cleaned table with both loops equals the one with one loop |
| StreamlitApp.CleanedRows | streamlit_app.py:19-33 | the cleaned rows are the prepared admitted listings, in input order, none lost |
| StreamlitApp.NegativeRatesKept | streamlit_app.py:30-33 | a complete listing with a negative or minus-infinite review rate is kept |
| StreamlitApp.InfiniteRateDropped | streamlit_app.py:33 | a listing whose review rate is +inf is dropped |
| StreamlitApp.ReadColumnsCover | streamlit_app.py:19-30 | when the five read columns exist, so do the dropna's six once the year is added |
| StreamlitApp.Preprocess | streamlit_app.py:19-33 | KeyError exactly when a read column is absent; otherwise a valid table (input columns plus the year) equal to the per-row cleaning, every row admitted |
| StreamlitApp.DropIncomplete | streamlit_app.py:30-33 | the frame loses listings missing any of the six columns, then those whose review rate is +inf |
| StreamlitApp.Compose | streamlit_app.py:19-33 | the date steps, the two loops and the drops, in turn, are the pipeline, and leave only admitted rows |

`WeekSix.ErrorOutcomes` states these outcomes:

- A missing file gives an empty table and empty ranges, and nothing is
  drawn.
- The ranges are non-empty exactly when tiers are added. The columns are
  those after the date parsing, plus `price_tier` when tiers are added; a
  `price_tier` column the file already had stays in either case.
- A trim that leaves nothing gives an empty table, and nothing is drawn.
- With tiers, the table has as many rows as the trimmed one, and that is
  more than zero.

## Left out

- Reading the CSV, `st.cache_data`, and the FileNotFoundError itself: a
  file is a table, or `None` when missing.
- Every Streamlit widget and message: `st.error`, `st.stop`, `st.warning`
  and the `df.info()` debug output. `st.stop` is modelled only as
  `WeekSix.Renders`.
- The Altair charts: binning, sorting, colours, tooltips and the month
  label expression.
- The interval brush. The only behaviour worth stating is that
  `empty='all'` makes an unset brush select every listing; the chart
  library applies it, so it is not modelled.
- The header whitespace strip at week6_assignment.py:15. pandas allows
  duplicate column labels after it, which a row keyed by column name
  cannot hold.
- Date-format inference in `pd.to_datetime`, and the `%m/%d/%Y` format. A
  parser is a parameter: a finite map from text to date.
- The clock: the current year is a parameter.
- The quantile computations (0.05, 0.95, 0.33 and 0.66 with linear
  interpolation): the four cut points are parameters (`WeekSix.Cuts`).
  What is proved holds for any cut points. That includes the tier order,
  which is stated for low <= high.
- The numeric grammar of `to_numeric`:
  - Modelled: an optional sign, digits with an optional fraction, and
    "inf"/"infinity".
  - Not modelled: exponents, whitespace and other spellings; these parse
    as missing here.
  - Floating-point rounding is not modelled either: numbers are exact
    reals.
- The dtypes `read_csv` infers. A column arrives as text, number or
  boolean as the table says, and booleans are `Flag` cells.
- Cells.ToDateCell: the calls without a format (week6_assignment.py:22 and
  streamlit_app.py:19) read an integer or real `host_since` as nanoseconds
  since 1970 and give a 1970 date; here such a cell becomes NaT. In
  streamlit_app.py such a listing is kept with start year 1970, while the
  model drops it. In week6_assignment.py both drop it, since 1970 fails the
  2008 filter. Only text and date cells are parsed here.
- Cells.ToNumericCell: a boolean becomes the whole number 1 or 0, which is
  how `to_numeric` reads booleans in a mixed column. A column of booleans
  alone keeps its boolean dtype in pandas, but its comparisons give the
  same answers. A date cell becomes missing here, while pandas would give
  its nanosecond count. No script coerces a date column.
- WeekSix.PriceRanges: the legend entries are ranges of reals (minimum
  price, cut points, maximum price), not the `"$1,200 - $3,400"` strings
  the script formats with `,.0f`.
- Frame.FirstAbsent: pandas' KeyError names the first failing access. The
  model reports the first absent column in reading order; the exception
  message is not modelled.
- Comparisons of text cells with numbers: pandas raises a TypeError; here
  such a comparison is false. In `load_airbnb_data` and the streamlit_app.py
  preprocessing, coercion comes before every comparison, so neither
  reaches one.
- WeekSix.YearStages: when the file has no `host_since`, the year filter
  at week6_assignment.py:34-36 runs on a `host_start_year` column read as
  is from the file. If that column holds text, pandas raises a TypeError,
  and the model instead drops the rows whose year is not a number.
- WeekSix.TierTexts: only text values of `price_tier` become options.
  Non-text values could only come from a file that already had that
  column and got no tiers. pandas would list them, or fail to sort a mix
  of types.
