/** Cell values of a listings table and the per-cell conversions the three
    dashboard scripts apply to them: numeric coercion, price-text cleanup,
    date parsing and calendar parts, the superhost text-to-flag mapping and
    the three-way price tier. */
module Cells {

  datatype Option<T> = None | Some(value: T)

  /** A floating-point number as the cleaners see it: NaN is a missing cell,
      so only the finite values and the two infinities remain. */
  datatype Num = Finite(v: real) | PosInf | NegInf

  datatype Date = Date(year: int, month: int, day: int)

  /** One cell of a table. `Missing` stands for NaN, NaT and None alike. */
  datatype Cell =
    | Missing
    | Number(n: Num)
    | Whole(i: int)
    | Text(s: string)
    | When(d: Date)
    | Flag(b: bool)

  /** The date parser of a script, restricted to the finitely many strings a
      table holds: a string outside the map does not parse. */
  type DateParser = map<string, Date>

  // ---------------------------------------------------------------------
  // Comparisons with pandas semantics: a missing or non-numeric cell never
  // satisfies an ordering comparison.

  predicate CellGe(c: Cell, k: real) {
    match c
    case Number(Finite(v)) => v >= k
    case Number(PosInf) => true
    case Whole(i) => i as real >= k
    case _ => false
  }

  predicate CellLe(c: Cell, k: real) {
    match c
    case Number(Finite(v)) => v <= k
    case Number(NegInf) => true
    case Whole(i) => i as real <= k
    case _ => false
  }

  predicate CellGt(c: Cell, k: real) {
    match c
    case Number(Finite(v)) => v > k
    case Number(PosInf) => true
    case Whole(i) => i as real > k
    case _ => false
  }

  // ---------------------------------------------------------------------
  // Characters and strings

  predicate IsDigit(ch: char) { '0' <= ch <= '9' }

  predicate AllDigits(s: string) { forall i :: 0 <= i < |s| ==> IsDigit(s[i]) }

  function DigitChar(d: nat): (ch: char)
    requires d < 10
    ensures IsDigit(ch) && ch as int - '0' as int == d
  {
    ('0' as int + d) as char
  }

  function LowerChar(ch: char): char {
    if 'A' <= ch <= 'Z' then (ch as int - 'A' as int + 'a' as int) as char else ch
  }

  /** `str.lower()` restricted to ASCII letters. */
  function Lower(s: string): (r: string)
    ensures |r| == |s|
    ensures forall i :: 0 <= i < |s| ==> r[i] == LowerChar(s[i])
  {
    seq(|s|, i requires 0 <= i < |s| => LowerChar(s[i]))
  }

  /** Value of a string of decimal digits. */
  function DigitsValue(s: string): nat
    requires AllDigits(s)
  {
    if |s| == 0 then 0
    else DigitsValue(s[..|s| - 1]) * 10 + (s[|s| - 1] as int - '0' as int)
  }

  function Pow10(k: nat): (r: nat)
    ensures r >= 1
  {
    if k == 0 then 1 else 10 * Pow10(k - 1)
  }

  /** Decimal digits of a natural number, most significant first. */
  function Digits(n: nat): (r: string)
    ensures |r| > 0 && AllDigits(r)
  {
    if n < 10 then [DigitChar(n)] else Digits(n / 10) + [DigitChar(n % 10)]
  }

  /** The last three digits of `n`, zero-padded. */
  function Pad3(n: nat): string {
    [DigitChar(n / 100 % 10), DigitChar(n / 10 % 10), DigitChar(n % 10)]
  }

  /** A natural number with ',' between groups of three digits, as the
      listings export writes prices ("1,200"). */
  function GroupThousands(n: nat): string {
    if n < 1000 then Digits(n) else GroupThousands(n / 1000) + "," + Pad3(n)
  }

  // ---------------------------------------------------------------------
  // Numeric coercion

  /** Position of the first '.' in `s`, or |s| when there is none. */
  function DotIndex(s: string): (k: nat)
    ensures k <= |s|
    ensures forall i :: 0 <= i < k ==> s[i] != '.'
    ensures k < |s| ==> s[k] == '.'
  {
    if |s| == 0 then 0
    else if s[0] == '.' then 0
    else 1 + DotIndex(s[1..])
  }

  /** An unsigned decimal: digits, optionally followed by '.' and digits,
      with at least one digit in all. */
  function ParseUnsigned(s: string): (r: Option<real>)
    ensures r.Some? ==> r.value >= 0.0
  {
    var k := DotIndex(s);
    if k == |s| then
      if |s| > 0 && AllDigits(s) then Some(DigitsValue(s) as real) else None
    else
      var whole, frac := s[..k], s[k + 1..];
      if AllDigits(whole) && AllDigits(frac) && |whole| + |frac| > 0 then
        var fraction := DigitsValue(frac) as real / Pow10(|frac|) as real;
        assert fraction >= 0.0 by {
          assert DigitsValue(frac) as real >= 0.0 && Pow10(|frac|) as real > 0.0;
        }
        Some(DigitsValue(whole) as real + fraction)
      else None
  }

  /** The spellings of infinity that the numeric parser accepts. */
  predicate NamesInfinity(s: string) {
    Lower(s) == "inf" || Lower(s) == "infinity"
  }

  /** The numeric parser behind `pd.to_numeric(..., errors='coerce')`, for an
      optional sign followed by an unsigned decimal or by "inf"/"infinity"
      in any letter case. Anything else (including "nan") does not parse. */
  function ParseNumber(s: string): (r: Option<Num>)
    ensures |s| == 0 ==> r.None?
    ensures NamesInfinity(s) ==> r == Some(PosInf)
    ensures r == Some(NegInf) ==> s[0] == '-'
    ensures r.Some? && r.value.Finite? && r.value.v < 0.0 ==> s[0] == '-'
  {
    var signed := |s| > 0 && (s[0] == '-' || s[0] == '+');
    var negative := signed && s[0] == '-';
    var body := if signed then s[1..] else s;
    if NamesInfinity(body) then
      Some(if negative then NegInf else PosInf)
    else
      match ParseUnsigned(body)
      case Some(v) => Some(Finite(if negative then -v else v))
      case None => None
  }

  /** `pd.to_numeric(col, errors='coerce')` on one cell: text is parsed and
      becomes missing when it does not parse; numbers are kept; a boolean
      counts as the number 1 or 0. */
  function ToNumericCell(c: Cell): (r: Cell)
    ensures r.Missing? || r.Number? || r.Whole?
    ensures c.Number? || c.Whole? ==> r == c
    ensures c.Flag? ==> r == Whole(if c.b then 1 else 0)
    ensures r.Missing? <==> c.Missing? || c.When? || (c.Text? && ParseNumber(c.s).None?)
  {
    match c
    case Number(_) => c
    case Whole(_) => c
    case Flag(b) => Whole(if b then 1 else 0)
    case Text(s) => (match ParseNumber(s) case Some(n) => Number(n) case None => Missing)
    case _ => Missing
  }

  /** A cell holding a finite amount: an integer or a finite real. */
  predicate IsAmount(c: Cell) {
    c.Whole? || (c.Number? && c.n.Finite?)
  }

  /** The amount in a cell; 0 for a cell that holds none. */
  function Amount(c: Cell): real {
    match c
    case Number(Finite(v)) => v
    case Whole(i) => i as real
    case _ => 0.0
  }

  /** Removes every '$' and ',' (the regular expression `[$,]`). */
  function StripPrice(s: string): (r: string)
    ensures |r| <= |s|
    ensures forall i :: 0 <= i < |r| ==> r[i] != '$' && r[i] != ','
  {
    if |s| == 0 then ""
    else (if s[0] == '$' || s[0] == ',' then "" else [s[0]]) + StripPrice(s[1..])
  }

  /** `to_numeric(col.astype(str).str.replace('[$,]', ''))` on one cell. A
      number prints and parses back to itself; a missing cell prints as
      "nan", which does not parse. */
  function CoercePriceCell(c: Cell): (r: Cell)
    ensures r.Missing? || r.Number? || r.Whole?
  {
    match c
    case Text(s) => ToNumericCell(Text(StripPrice(s)))
    case Number(_) => c
    case Whole(_) => c
    case _ => Missing
  }

  // ---------------------------------------------------------------------
  // Dates

  /** Airbnb's founding year, the earliest plausible host start year. */
  const FirstYear := 2008

  /** `pd.to_datetime(col, errors='coerce')` on one cell: a date is kept,
      text is parsed, and anything else is NaT, as with a fixed format. */
  function ToDateCell(c: Cell, parse: DateParser): (r: Cell)
    ensures r.Missing? || r.When?
    ensures r.When? <==> (c.When? || (c.Text? && c.s in parse))
  {
    match c
    case When(_) => c
    case Text(s) => if s in parse then When(parse[s]) else Missing
    case _ => Missing
  }

  /** `.dt.year`: the year of a date; missing for a missing date. */
  function YearCell(c: Cell): (r: Cell)
    ensures r.Missing? <==> !c.When?
    ensures c.When? ==> r == Whole(c.d.year)
  {
    match c
    case When(d) => Whole(d.year)
    case _ => Missing
  }

  /** `.dt.month`. */
  function MonthCell(c: Cell): (r: Cell)
    ensures r.Missing? <==> !c.When?
    ensures c.When? ==> r == Whole(c.d.month)
  {
    match c
    case When(d) => Whole(d.month)
    case _ => Missing
  }

  /** Python's `int()` on a real: truncation toward zero. */
  function Trunc(v: real): (r: int)
    ensures v >= 0.0 ==> r as real <= v < r as real + 1.0
    ensures v < 0.0 ==> r as real - 1.0 < v <= r as real
  {
    if v >= 0.0 then v.Floor else -((-v).Floor)
  }

  /** `.astype(int)`: integers stay, finite reals are truncated. Other cells
      are left as they are; the year filter in front of it lets none through. */
  function AsIntCell(c: Cell): (r: Cell)
    ensures IsAmount(c) ==> r.Whole? && r.i == Trunc(Amount(c))
    ensures !IsAmount(c) ==> r == c
  {
    match c
    case Number(Finite(v)) => Whole(Trunc(v))
    case _ => c
  }

  // ---------------------------------------------------------------------
  // Superhost flag

  /** `col.astype(str).str.lower().map({'t': True, 'f': False, 'true': True,
      'false': False})` on one cell. A boolean prints as "True"/"False" and
      maps back to itself; any other value maps to missing. */
  function SuperhostCell(c: Cell): (r: Cell)
    ensures r.Missing? || r.Flag?
    ensures c.Flag? ==> r == c
    ensures !c.Flag? && !c.Text? ==> r.Missing?
  {
    match c
    case Flag(b) => Flag(b)
    case Text(s) =>
      var t := Lower(s);
      if t == "t" || t == "true" then Flag(true)
      else if t == "f" || t == "false" then Flag(false)
      else Missing
    case _ => Missing
  }

  // ---------------------------------------------------------------------
  // Price tiers

  datatype Tier = Budget | MidRange | Premium

  function TierLabel(t: Tier): string {
    match t
    case Budget => "Budget"
    case MidRange => "Mid-Range"
    case Premium => "Premium"
  }

  /** Position of a tier in the order Budget < Mid-Range < Premium. */
  function Rank(t: Tier): nat {
    match t
    case Budget => 0
    case MidRange => 1
    case Premium => 2
  }

  /** `assign_tier`: at most the low cut is Budget, at most the high cut is
      Mid-Range, everything else (a missing price included, since every
      comparison with NaN is false) is Premium. */
  function AssignTier(price: Cell, low: real, high: real): (r: Tier)
    ensures IsAmount(price) ==> (r == Budget <==> Amount(price) <= low)
    ensures IsAmount(price) ==> (r == MidRange <==> low < Amount(price) <= high)
    ensures IsAmount(price) ==> (r == Premium <==> low < Amount(price) && high < Amount(price))
    ensures price == Number(NegInf) ==> r == Budget
    ensures price == Number(PosInf) || !(price.Number? || price.Whole?) ==> r == Premium
  {
    if CellLe(price, low) then Budget
    else if CellLe(price, high) then MidRange
    else Premium
  }
}
