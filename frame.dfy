/** A data frame as the cleaning code uses it: a set of column names and a
    sequence of rows, each row a map from column name to cell. A cleaning
    step is either a column assignment computed cell by cell from another
    column, or a boolean row mask. A pipeline is a sequence of steps.

    The main fact here is that running the steps one after another over the
    whole table (what pandas does, column by column) gives the same rows as
    running every row through all the steps on its own (RunIsRowWise). From
    that, Origins shows that the output is a subsequence of the input. */
module Frame {
  import opened Cells

  type Col = string
  type Row = map<Col, Cell>

  /** The cell of `r` in column `c`; a column the row lacks reads as missing. */
  function Get(r: Row, c: Col): Cell {
    if c in r then r[c] else Missing
  }

  ghost predicate Shaped(columns: set<Col>, rows: seq<Row>) {
    forall i :: 0 <= i < |rows| ==> rows[i].Keys == columns
  }

  datatype Table = Table(columns: set<Col>, rows: seq<Row>) {
    ghost predicate Valid() { Shaped(columns, rows) }

    /** `df.empty`: no rows or no columns. */
    predicate Empty() { |rows| == 0 || |columns| == 0 }
  }

  /** Boolean row masks and `dropna(subset=...)`. */
  datatype Mask =
    | AllPresent(cols: set<Col>)                 // dropna(subset=cols)
    | NotPosInf(col: Col)                        // df[col] != float('inf')
    | AtLeast(col: Col, bound: real)             // df[col] >= bound
    | Above(col: Col, bound: real)               // df[col] > bound
    | InRange(col: Col, lo: real, hi: real)      // (df[col] >= lo) & (df[col] <= hi)
    | EqualTo(col: Col, value: Cell)             // df[col] == value

  predicate Holds(m: Mask, r: Row) {
    match m
    case AllPresent(cols) => forall c :: c in cols ==> Get(r, c) != Missing
    case NotPosInf(c) => Get(r, c) != Number(PosInf)
    case AtLeast(c, k) => CellGe(Get(r, c), k)
    case Above(c, k) => CellGt(Get(r, c), k)
    case InRange(c, lo, hi) => CellGe(Get(r, c), lo) && CellLe(Get(r, c), hi)
    case EqualTo(c, v) => Get(r, c) == v
  }

  /** The columns a mask reads; pandas raises KeyError when one is absent. */
  function MaskColumns(m: Mask): set<Col> {
    match m
    case AllPresent(cols) => cols
    case NotPosInf(c) => {c}
    case AtLeast(c, _) => {c}
    case Above(c, _) => {c}
    case InRange(c, _, _) => {c}
    case EqualTo(c, _) => {c}
  }

  /** Cell-by-cell conversions used in column assignments. */
  datatype Conv =
    | Numeric
    | PriceText
    | ParseDate(parser: DateParser)
    | YearOf
    | MonthOf
    | SuperhostFlag
    | AsInt
    | TierOf(low: real, high: real)

  function Apply(cv: Conv, c: Cell): Cell {
    match cv
    case Numeric => ToNumericCell(c)
    case PriceText => CoercePriceCell(c)
    case ParseDate(p) => ToDateCell(c, p)
    case YearOf => YearCell(c)
    case MonthOf => MonthCell(c)
    case SuperhostFlag => SuperhostCell(c)
    case AsInt => AsIntCell(c)
    case TierOf(low, high) => Text(TierLabel(AssignTier(c, low, high)))
  }

  /** One cleaning step: `df[target] = conv(df[source])` or `df = df[mask]`. */
  datatype Stage =
    | Assign(target: Col, source: Col, conv: Conv)
    | Filter(mask: Mask)

  // ---------------------------------------------------------------------
  // A step on one row, and on a whole table

  function StepRow(r: Row, s: Stage): Option<Row> {
    match s
    case Assign(t, src, cv) => Some(r[t := Apply(cv, Get(r, src))])
    case Filter(m) => if Holds(m, r) then Some(r) else None
  }

  function Then(o: Option<Row>, s: Stage): Option<Row> {
    match o
    case None => None
    case Some(r) => StepRow(r, s)
  }

  function OptSeq<T>(o: Option<T>): (r: seq<T>)
    ensures |r| <= 1
  {
    match o
    case None => []
    case Some(x) => [x]
  }

  /** The rows of `rows` that satisfy `m`, in their order. */
  function Keep(rows: seq<Row>, m: Mask): (r: seq<Row>)
    ensures |r| <= |rows|
    ensures forall i :: 0 <= i < |r| ==> Holds(m, r[i])
    ensures forall x :: x in r ==> x in rows
    ensures forall x :: x in rows && Holds(m, x) ==> x in r
  {
    if |rows| == 0 then []
    else (if Holds(m, rows[0]) then [rows[0]] else []) + Keep(rows[1..], m)
  }

  /** A step on the whole table: a column assignment maps every row, a mask
      keeps the rows it holds for. */
  function Step(rows: seq<Row>, s: Stage): seq<Row> {
    match s
    case Assign(t, src, cv) =>
      seq(|rows|, i requires 0 <= i < |rows| => rows[i][t := Apply(cv, Get(rows[i], src))])
    case Filter(m) => Keep(rows, m)
  }

  /** The steps `ps` run one after another over the whole table. */
  function Run(rows: seq<Row>, ps: seq<Stage>): seq<Row> {
    if |ps| == 0 then rows else Step(Run(rows, ps[..|ps| - 1]), ps[|ps| - 1])
  }

  /** The steps `ps` run over one row; None once a mask drops it. */
  function RunRow(r: Row, ps: seq<Stage>): Option<Row> {
    if |ps| == 0 then Some(r) else Then(RunRow(r, ps[..|ps| - 1]), ps[|ps| - 1])
  }

  /** Every row run through all of `ps` on its own, the survivors in order. */
  function RowWise(rows: seq<Row>, ps: seq<Stage>): seq<Row> {
    if |rows| == 0 then [] else OptSeq(RunRow(rows[0], ps)) + RowWise(rows[1..], ps)
  }

  /** What becomes of each input row under `ps`. */
  function Outcomes(rows: seq<Row>, ps: seq<Stage>): (os: seq<Option<Row>>)
    ensures |os| == |rows| && forall i :: 0 <= i < |rows| ==> os[i] == RunRow(rows[i], ps)
  {
    seq(|rows|, i requires 0 <= i < |rows| => RunRow(rows[i], ps))
  }

  /** The rows that survive, in order. */
  function Survivors<T>(os: seq<Option<T>>): seq<T> {
    if |os| == 0 then [] else OptSeq(os[0]) + Survivors(os[1..])
  }

  /** The positions of the survivors. */
  function Positions<T>(os: seq<Option<T>>): seq<nat> {
    if |os| == 0 then []
    else (if os[0].Some? then [0] else []) + Shift(Positions(os[1..]))
  }

  function Shift(o: seq<nat>): (r: seq<nat>)
    ensures |r| == |o| && forall k :: 0 <= k < |o| ==> r[k] == o[k] + 1
  {
    seq(|o|, k requires 0 <= k < |o| => o[k] + 1)
  }

  /** Where the output rows of RowWise come from: the input positions of the
      rows that survive `ps`. */
  function Origins(rows: seq<Row>, ps: seq<Stage>): seq<nat> {
    Positions(Outcomes(rows, ps))
  }

  lemma {:induction false} RowWiseIsSurvivors(rows: seq<Row>, ps: seq<Stage>)
    ensures RowWise(rows, ps) == Survivors(Outcomes(rows, ps))
  {
    if |rows| > 0 {
      assert Outcomes(rows, ps)[1..] == Outcomes(rows[1..], ps);
      RowWiseIsSurvivors(rows[1..], ps);
    }
  }

  /** There is one position per survivor. */
  lemma {:induction false} PositionsLength<T>(os: seq<Option<T>>)
    ensures |Positions(os)| == |Survivors(os)|
  {
    if |os| > 0 {
      PositionsLength(os[1..]);
    }
  }

  /** Positions unfolded once, element by element. */
  lemma PositionsHead<T>(os: seq<Option<T>>)
    requires |os| > 0
    ensures var o, rest := Positions(os), Positions(os[1..]);
      if os[0].Some? then
        |o| == |rest| + 1 && o[0] == 0 && forall k :: 1 <= k < |o| ==> o[k] == rest[k - 1] + 1
      else
        |o| == |rest| && forall k :: 0 <= k < |o| ==> o[k] == rest[k] + 1
  {
    var o, rest := Positions(os), Positions(os[1..]);
    if os[0].Some? {
      assert o == [0] + Shift(rest);
    } else {
      assert o == [] + Shift(rest);
    }
  }

  /** The k-th survivor is the one at the k-th position. */
  lemma {:induction false} PositionsSource<T>(os: seq<Option<T>>, k: nat)
    requires k < |Positions(os)|
    ensures k < |Survivors(os)|
    ensures Positions(os)[k] < |os| && os[Positions(os)[k]] == Some(Survivors(os)[k])
  {
    PositionsHead(os);
    PositionsLength(os);
    if os[0].Some? {
      assert Survivors(os) == [os[0].value] + Survivors(os[1..]);
      if k > 0 {
        PositionsSource(os[1..], k - 1);
      }
    } else {
      assert Survivors(os) == Survivors(os[1..]);
      PositionsSource(os[1..], k);
    }
  }

  /** The positions strictly increase. */
  lemma {:induction false} PositionsIncreasing<T>(os: seq<Option<T>>, k: nat, l: nat)
    requires k < l < |Positions(os)|
    ensures Positions(os)[k] < Positions(os)[l]
  {
    PositionsHead(os);
    if os[0].Some? {
      if k > 0 {
        PositionsIncreasing(os[1..], k - 1, l - 1);
      }
    } else {
      PositionsIncreasing(os[1..], k, l);
    }
  }

  /** Every survivor's position is listed: `k` is where. */
  lemma {:induction false} PositionsComplete<T>(os: seq<Option<T>>, i: nat) returns (k: nat)
    requires i < |os| && os[i].Some?
    ensures k < |Positions(os)| && Positions(os)[k] == i
  {
    PositionsHead(os);
    if i == 0 {
      k := 0;
    } else {
      var j := PositionsComplete(os[1..], i - 1);
      k := if os[0].Some? then j + 1 else j;
    }
  }

  /** The output of RowWise is a subsequence of the input run through the
      steps: its k-th row is what the `Origins[k]`-th input row becomes, the
      positions strictly increase, and every input row that survives the
      steps has its position among them. */
  lemma OriginsSpec(rows: seq<Row>, ps: seq<Stage>)
    ensures |Origins(rows, ps)| == |RowWise(rows, ps)|
    ensures forall k :: 0 <= k < |Origins(rows, ps)| ==>
      Origins(rows, ps)[k] < |rows| && RunRow(rows[Origins(rows, ps)[k]], ps) == Some(RowWise(rows, ps)[k])
    ensures forall k, l :: 0 <= k < l < |Origins(rows, ps)| ==> Origins(rows, ps)[k] < Origins(rows, ps)[l]
    ensures forall i :: 0 <= i < |rows| && RunRow(rows[i], ps).Some? ==> i in Origins(rows, ps)
  {
    var os := Outcomes(rows, ps);
    RowWiseIsSurvivors(rows, ps);
    PositionsLength(os);
    forall k | 0 <= k < |Positions(os)|
      ensures Positions(os)[k] < |rows| && RunRow(rows[Positions(os)[k]], ps) == Some(Survivors(os)[k])
    {
      PositionsSource(os, k);
    }
    forall k, l | 0 <= k < l < |Positions(os)| ensures Positions(os)[k] < Positions(os)[l] {
      PositionsIncreasing(os, k, l);
    }
    forall i | 0 <= i < |rows| && RunRow(rows[i], ps).Some? ensures i in Positions(os) {
      var k := PositionsComplete(os, i);
    }
  }

  // ---------------------------------------------------------------------
  // Whole-table passes equal per-row runs

  lemma RunSnoc(rows: seq<Row>, ps: seq<Stage>, s: Stage)
    ensures Run(rows, ps + [s]) == Step(Run(rows, ps), s)
  {
    assert (ps + [s])[..|ps|] == ps;
  }

  lemma RunRowSnoc(r: Row, ps: seq<Stage>, s: Stage)
    ensures RunRow(r, ps + [s]) == Then(RunRow(r, ps), s)
  {
    assert (ps + [s])[..|ps|] == ps;
  }

  function Chain(o: Option<Row>, ps: seq<Stage>): Option<Row> {
    match o
    case None => None
    case Some(r) => RunRow(r, ps)
  }

  /** Running `a + b` on a row runs `a`, then `b` on what survives. */
  lemma {:induction false} RunRowAppend(r: Row, a: seq<Stage>, b: seq<Stage>)
    ensures RunRow(r, a + b) == Chain(RunRow(r, a), b)
  {
    if |b| == 0 {
      assert a + b == a;
    } else {
      var b' := b[..|b| - 1];
      var s := b[|b| - 1];
      assert a + b == (a + b') + [s];
      assert b == b' + [s];
      RunRowSnoc(r, a + b', s);
      RunRowAppend(r, a, b');
      match RunRow(r, a)
      case None =>
      case Some(y) => RunRowSnoc(y, b', s);
    }
  }

  lemma {:induction false} KeepAppend(a: seq<Row>, b: seq<Row>, m: Mask)
    ensures Keep(a + b, m) == Keep(a, m) + Keep(b, m)
  {
    if |a| == 0 {
      assert a + b == b;
    } else {
      assert (a + b)[1..] == a[1..] + b;
      KeepAppend(a[1..], b, m);
    }
  }

  lemma StepAppend(a: seq<Row>, b: seq<Row>, s: Stage)
    ensures Step(a + b, s) == Step(a, s) + Step(b, s)
  {
    match s
    case Assign(t, src, cv) =>
      var whole, parts := Step(a + b, s), Step(a, s) + Step(b, s);
      forall i | 0 <= i < |whole| ensures whole[i] == parts[i] {
        if i < |a| {
          assert (a + b)[i] == a[i];
        } else {
          assert (a + b)[i] == b[i - |a|];
        }
      }
    case Filter(m) => KeepAppend(a, b, m);
  }

  lemma StepOne(y: Row, s: Stage)
    ensures Step([y], s) == OptSeq(StepRow(y, s))
  {
    match s
    case Assign(_, _, _) =>
    case Filter(m) => assert [y][1..] == [];
  }

  lemma {:induction false} StepRowWise(rows: seq<Row>, ps: seq<Stage>, s: Stage)
    ensures Step(RowWise(rows, ps), s) == RowWise(rows, ps + [s])
  {
    if |rows| == 0 {
      match s
      case Assign(_, _, _) =>
      case Filter(_) =>
    } else {
      var head := OptSeq(RunRow(rows[0], ps));
      StepAppend(head, RowWise(rows[1..], ps), s);
      StepRowWise(rows[1..], ps, s);
      RunRowSnoc(rows[0], ps, s);
      match RunRow(rows[0], ps) {
        case None =>
          match s {
            case Assign(_, _, _) =>
            case Filter(_) =>
          }
        case Some(y) => StepOne(y, s);
      }
    }
  }

  lemma {:induction false} RowWiseNoStages(rows: seq<Row>)
    ensures RowWise(rows, []) == rows
  {
    if |rows| > 0 {
      RowWiseNoStages(rows[1..]);
    }
  }

  /** Running the steps over the whole table, one after another, gives
      exactly the rows that survive all of them when each row is run on its
      own, in the original order. */
  lemma {:induction false} RunIsRowWise(rows: seq<Row>, ps: seq<Stage>)
    ensures Run(rows, ps) == RowWise(rows, ps)
  {
    if |ps| == 0 {
      RowWiseNoStages(rows);
    } else {
      var ps' := ps[..|ps| - 1];
      RunIsRowWise(rows, ps');
      StepRowWise(rows, ps', ps[|ps| - 1]);
      assert ps' + [ps[|ps| - 1]] == ps;
    }
  }

  /** Running `[s] + ps` on a row runs `s`, then `ps` on what survives. */
  lemma RunRowCons(r: Row, s: Stage, ps: seq<Stage>)
    ensures RunRow(r, [s] + ps) == Chain(StepRow(r, s), ps)
  {
    RunRowAppend(r, [s], ps);
    RunRowSnoc(r, [], s);
  }

  /** A run of masks, one after another. */
  function Filters(ms: seq<Mask>): (ps: seq<Stage>)
    ensures |ps| == |ms| && forall i :: 0 <= i < |ms| ==> ps[i] == Filter(ms[i])
  {
    seq(|ms|, i requires 0 <= i < |ms| => Filter(ms[i]))
  }

  /** A row passes a run of masks unchanged exactly when every mask holds
      for it. */
  lemma {:induction false} RunFilters(r: Row, ms: seq<Mask>)
    ensures RunRow(r, Filters(ms)) ==
      if forall i :: 0 <= i < |ms| ==> Holds(ms[i], r) then Some(r) else None
  {
    if |ms| > 0 {
      var init := ms[..|ms| - 1];
      assert Filters(ms) == Filters(init) + [Filter(ms[|ms| - 1])];
      RunRowSnoc(r, Filters(init), Filter(ms[|ms| - 1]));
      RunFilters(r, init);
      assert forall i :: 0 <= i < |init| ==> init[i] == ms[i];
    }
  }

  lemma RunOne(rows: seq<Row>, s: Stage)
    ensures Run(rows, [s]) == Step(rows, s)
  {
    RunSnoc(rows, [], s);
    assert [] + [s] == [s];
  }

  /** Running `a + b` over a table runs `a`, then `b` over the result. */
  lemma {:induction false} RunAppend(rows: seq<Row>, a: seq<Stage>, b: seq<Stage>)
    ensures Run(rows, a + b) == Run(Run(rows, a), b)
  {
    if |b| == 0 {
      assert a + b == a;
    } else {
      var b' := b[..|b| - 1];
      assert a + b == (a + b') + [b[|b| - 1]];
      RunSnoc(rows, a + b', b[|b| - 1]);
      RunSnoc(Run(rows, a), b', b[|b| - 1]);
      RunAppend(rows, a, b');
    }
  }

  /** Four steps taken one after another are the run of the four. */
  lemma RunFour(r0: seq<Row>, r1: seq<Row>, r2: seq<Row>, r3: seq<Row>, r4: seq<Row>, ps: seq<Stage>)
    requires |ps| == 4
    requires r1 == Step(r0, ps[0]) && r2 == Step(r1, ps[1]) && r3 == Step(r2, ps[2]) && r4 == Step(r3, ps[3])
    ensures r4 == Run(r0, ps)
  {
    RunSnoc(r0, [], ps[0]);
    RunSnoc(r0, ps[..1], ps[1]);
    RunSnoc(r0, ps[..2], ps[2]);
    RunSnoc(r0, ps[..3], ps[3]);
    assert [] + [ps[0]] == ps[..1] && ps[..1] + [ps[1]] == ps[..2];
    assert ps[..2] + [ps[2]] == ps[..3] && ps[..3] + [ps[3]] == ps;
  }

  /** A mask that holds for every row drops nothing. */
  lemma {:induction false} KeepAll(rows: seq<Row>, m: Mask)
    requires forall i :: 0 <= i < |rows| ==> Holds(m, rows[i])
    ensures Keep(rows, m) == rows
  {
    if |rows| > 0 {
      KeepAll(rows[1..], m);
    }
  }

  /** A single filter keeps exactly the rows its mask holds for, unchanged
      and in their order; `Origins` names where each came from. */
  lemma KeepOrigins(rows: seq<Row>, m: Mask)
    ensures var out, o := Step(rows, Filter(m)), Origins(rows, [Filter(m)]);
      && |o| == |out|
      && (forall k :: 0 <= k < |o| ==> o[k] < |rows| && out[k] == rows[o[k]] && Holds(m, out[k]))
      && (forall k, l :: 0 <= k < l < |o| ==> o[k] < o[l])
      && (forall i :: 0 <= i < |rows| && Holds(m, rows[i]) ==> i in o)
  {
    var pick := [Filter(m)];
    var o := Origins(rows, pick);
    RunOne(rows, Filter(m));
    RunIsRowWise(rows, pick);
    OriginsSpec(rows, pick);
    forall i | 0 <= i < |rows| ensures RunRow(rows[i], pick) == if Holds(m, rows[i]) then Some(rows[i]) else None {
      RunFilters(rows[i], [m]);
      assert Filters([m]) == pick;
    }
  }

  /** Pipelines that agree on every row agree on every table. */
  lemma {:induction false} RowWiseCongruent(rows: seq<Row>, ps: seq<Stage>, qs: seq<Stage>)
    requires forall i :: 0 <= i < |rows| ==> RunRow(rows[i], ps) == RunRow(rows[i], qs)
    ensures RowWise(rows, ps) == RowWise(rows, qs)
  {
    if |rows| > 0 {
      RowWiseCongruent(rows[1..], ps, qs);
    }
  }

  // ---------------------------------------------------------------------
  // Provenance: output rows are input rows, in order, with only the
  // assigned columns rewritten

  /** The columns the steps `ps` assign to. */
  function Targets(ps: seq<Stage>): set<Col> {
    set i | 0 <= i < |ps| && ps[i].Assign? :: ps[i].target
  }

  lemma TargetsAppend(a: seq<Stage>, b: seq<Stage>)
    ensures Targets(a + b) == Targets(a) + Targets(b)
  {
    var ab := a + b;
    forall t | t in Targets(ab) ensures t in Targets(a) + Targets(b) {
      var i :| 0 <= i < |ab| && ab[i].Assign? && ab[i].target == t;
      if i < |a| { assert a[i] == ab[i]; } else { assert b[i - |a|] == ab[i]; }
    }
    forall t | t in Targets(a) + Targets(b) ensures t in Targets(ab) {
      if t in Targets(a) {
        var i :| 0 <= i < |a| && a[i].Assign? && a[i].target == t;
        assert ab[i] == a[i];
      } else {
        var i :| 0 <= i < |b| && b[i].Assign? && b[i].target == t;
        assert ab[|a| + i] == b[i];
      }
    }
  }

  /** A row that survives `ps` still holds, in every column `ps` never
      assigns, the cell it was read with. */
  lemma {:induction false} RunRowUntouched(r: Row, ps: seq<Stage>, c: Col)
    requires RunRow(r, ps).Some? && c !in Targets(ps)
    ensures Get(RunRow(r, ps).value, c) == Get(r, c)
  {
    if |ps| > 0 {
      var init := ps[..|ps| - 1];
      assert Targets(init) <= Targets(ps) by {
        forall t | t in Targets(init) ensures t in Targets(ps) {
          var i :| 0 <= i < |init| && init[i].Assign? && init[i].target == t;
          assert ps[i] == init[i];
        }
      }
      if ps[|ps| - 1].Assign? {
        assert ps[|ps| - 1].target in Targets(ps);
      }
      RunRowUntouched(r, init, c);
    }
  }

  /** The rows `ps` yields come from the input rows at strictly increasing
      positions, each agreeing with its input row on every column `ps`
      does not assign; and every input row that survives is among them. */
  lemma Provenance(rows: seq<Row>, ps: seq<Stage>)
    ensures var out, o := Run(rows, ps), Origins(rows, ps);
      && |o| == |out|
      && (forall k :: 0 <= k < |o| ==> o[k] < |rows| && RunRow(rows[o[k]], ps) == Some(out[k]))
      && (forall k, c :: 0 <= k < |o| && c !in Targets(ps) ==> Get(out[k], c) == Get(rows[o[k]], c))
      && (forall k, l :: 0 <= k < l < |o| ==> o[k] < o[l])
      && (forall i :: 0 <= i < |rows| && RunRow(rows[i], ps).Some? ==> i in o)
  {
    RunIsRowWise(rows, ps);
    OriginsSpec(rows, ps);
    var o := Origins(rows, ps);
    forall k, c | 0 <= k < |o| && c !in Targets(ps)
      ensures Get(Run(rows, ps)[k], c) == Get(rows[o[k]], c)
    {
      RunRowUntouched(rows[o[k]], ps, c);
    }
  }

  // ---------------------------------------------------------------------
  // Loading outcomes

  /** A loader either yields a table or raises KeyError on a column it reads
      that the file does not have. */
  datatype Loaded = Loaded(table: Table) | KeyError(column: Col)

  /** The first of `cols` that is not among `present`. */
  function FirstAbsent(cols: seq<Col>, present: set<Col>): (r: Option<Col>)
    ensures r.None? <==> forall i :: 0 <= i < |cols| ==> cols[i] in present
    ensures r.Some? ==> r.value !in present && exists k :: (0 <= k < |cols| && cols[k] == r.value
      && forall i :: 0 <= i < k ==> cols[i] in present)
  {
    if |cols| == 0 then None
    else if cols[0] !in present then Some(cols[0])
    else
      var r := FirstAbsent(cols[1..], present);
      if r.Some? then
        var k :| 0 <= k < |cols[1..]| && cols[1..][k] == r.value
          && (forall i :: 0 <= i < k ==> cols[1..][i] in present);
        assert cols[k + 1] == r.value;
        r
      else r
  }

  // ---------------------------------------------------------------------
  // The data frame object the cleaning code mutates

  class DataFrame {
    var columns: set<Col>
    var rows: seq<Row>

    ghost predicate Valid()
      reads this
    {
      Shaped(columns, rows)
    }

    constructor (t: Table)
      requires t.Valid()
      ensures Valid() && columns == t.columns && rows == t.rows
    {
      columns := t.columns;
      rows := t.rows;
    }

    /** `df[target] = conv(df[source])`; pandas raises KeyError when the
        source column is absent. */
    method SetColumn(target: Col, source: Col, conv: Conv)
      requires Valid() && source in columns
      modifies this
      ensures Valid() && columns == old(columns) + {target}
      ensures rows == Step(old(rows), Assign(target, source, conv))
    {
      var before := rows;
      rows := Step(rows, Assign(target, source, conv));
      columns := columns + {target};
      assert forall i :: 0 <= i < |rows| ==> rows[i].Keys == before[i].Keys + {target};
    }

    /** `df = df[mask]`. */
    method Where(m: Mask)
      requires Valid() && MaskColumns(m) <= columns
      modifies this
      ensures Valid() && columns == old(columns)
      ensures rows == Step(old(rows), Filter(m))
    {
      rows := Step(rows, Filter(m));
    }

    /** `df.dropna(subset=cols, inplace=True)`. */
    method DropNa(cols: set<Col>)
      requires Valid() && cols <= columns
      modifies this
      ensures Valid() && columns == old(columns)
      ensures rows == Step(old(rows), Filter(AllPresent(cols)))
    {
      Where(AllPresent(cols));
    }

    function Snapshot(): (t: Table)
      reads this
      requires Valid()
      ensures t.Valid() && t.columns == columns && t.rows == rows
    {
      Table(columns, rows)
    }
  }
}
