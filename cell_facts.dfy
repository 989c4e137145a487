/** Properties of the per-cell conversions: the price-text round trip, the
    idempotence of numeric coercion, the superhost mapping in both
    directions, and the tier classifier's bands and monotonicity. */
module CellFacts {
  import opened Cells

  // ---------------------------------------------------------------------
  // Numeric parsing

  lemma {:induction false} DigitsValueOfDigits(n: nat)
    ensures DigitsValue(Digits(n)) == n
  {
    if n >= 10 {
      var s := Digits(n);
      assert s[..|s| - 1] == Digits(n / 10);
      DigitsValueOfDigits(n / 10);
    }
  }

  lemma DotIndexOfDigits(s: string)
    requires AllDigits(s)
    ensures DotIndex(s) == |s|
  {
    forall i | 0 <= i < |s| ensures s[i] != '.' {
      assert IsDigit(s[i]);
    }
    DotIndexWithoutDot(s);
  }

  lemma DotIndexWithoutDot(s: string)
    requires forall i :: 0 <= i < |s| ==> s[i] != '.'
    ensures DotIndex(s) == |s|
  {
  }

  lemma DigitsNotInfinity(s: string)
    requires |s| > 0 && IsDigit(s[0])
    ensures !NamesInfinity(s)
  {
    assert Lower(s)[0] == s[0];
  }

  lemma ParseUnsignedDigits(s: string)
    requires |s| > 0 && AllDigits(s)
    ensures ParseUnsigned(s) == Some(DigitsValue(s) as real)
  {
    DotIndexOfDigits(s);
  }

  /** Printing a natural number in decimal and parsing it gives it back. */
  lemma ParseDigits(n: nat)
    ensures ParseNumber(Digits(n)) == Some(Finite(n as real))
  {
    var s := Digits(n);
    assert IsDigit(s[0]);
    DigitsNotInfinity(s);
    ParseUnsignedDigits(s);
    DigitsValueOfDigits(n);
  }

  // ---------------------------------------------------------------------
  // Price text

  lemma {:induction false} StripAppend(a: string, b: string)
    ensures StripPrice(a + b) == StripPrice(a) + StripPrice(b)
  {
    if |a| > 0 {
      assert (a + b)[1..] == a[1..] + b;
      StripAppend(a[1..], b);
    } else {
      assert a + b == b;
    }
  }

  /** Text without '$' or ',' is left exactly as it is; in particular the
      cleanup is idempotent. */
  lemma {:induction false} StripKeepsClean(s: string)
    requires forall i :: 0 <= i < |s| ==> s[i] != '$' && s[i] != ','
    ensures StripPrice(s) == s
  {
    if |s| > 0 {
      StripKeepsClean(s[1..]);
    }
  }

  lemma StripIdempotent(s: string)
    ensures StripPrice(StripPrice(s)) == StripPrice(s)
  {
    StripKeepsClean(StripPrice(s));
  }

  lemma DigitsSplit3(n: nat)
    requires n >= 1000
    ensures Digits(n) == Digits(n / 1000) + Pad3(n)
  {
    assert n / 10 / 10 == n / 100;
    assert n / 100 / 10 == n / 1000;
    calc {
      Digits(n);
      Digits(n / 10) + [DigitChar(n % 10)];
      Digits(n / 100) + [DigitChar(n / 10 % 10)] + [DigitChar(n % 10)];
      Digits(n / 1000) + [DigitChar(n / 100 % 10)] + [DigitChar(n / 10 % 10)] + [DigitChar(n % 10)];
    }
  }

  /** Removing the thousands separators from a grouped number leaves its
      plain decimal digits. */
  lemma {:induction false} StripGrouped(n: nat)
    ensures StripPrice(GroupThousands(n)) == Digits(n)
  {
    if n < 1000 {
      StripKeepsClean(Digits(n));
    } else {
      var head := GroupThousands(n / 1000);
      StripAppend(head + ",", Pad3(n));
      StripAppend(head, ",");
      StripGrouped(n / 1000);
      StripKeepsClean(Pad3(n));
      DigitsSplit3(n);
    }
  }

  /** A leading '$' is dropped before the text is parsed. */
  lemma DollarDropped(s: string)
    ensures CoercePriceCell(Text("$" + s)) == ToNumericCell(Text(StripPrice(s)))
  {
    StripDollar(s);
  }

  lemma StripDollar(s: string)
    ensures StripPrice("$" + s) == StripPrice(s)
  {
    assert ("$" + s)[0] == '$' && ("$" + s)[1..] == s;
  }

  /** A price written as the export writes it ("$1,200") coerces to the
      number it denotes. */
  lemma CoerceFormattedPrice(n: nat)
    ensures CoercePriceCell(Text("$" + GroupThousands(n))) == Number(Finite(n as real))
  {
    DollarDropped(GroupThousands(n));
    StripGrouped(n);
    ParseDigits(n);
  }

  /** "$1,200" and "950" coerce to the numbers they denote; "N/A" becomes
      missing. */
  lemma CoercePriceExamples()
    ensures CoercePriceCell(Text("$1,200")) == Number(Finite(1200.0))
    ensures CoercePriceCell(Text("950")) == Number(Finite(950.0))
    ensures CoercePriceCell(Text("N/A")) == Missing
  {
    assert Pad3(1200) == "200";
    assert GroupThousands(1200) == "1,200";
    CoerceFormattedPrice(1200);
    PlainPrice();
    NotAvailable();
  }

  lemma PlainPrice()
    ensures CoercePriceCell(Text("950")) == Number(Finite(950.0))
  {
    assert Digits(9) == "9";
    assert Digits(95) == Digits(9) + "5" == "95";
    assert Digits(950) == Digits(95) + "0" == "950";
    StripKeepsClean("950");
    ParseDigits(950);
  }

  lemma ParseNotAvailable()
    ensures ParseNumber("N/A") == None
  {
    var s := "N/A";
    DotIndexWithoutDot(s);
    assert !IsDigit(s[0]);
    assert ParseUnsigned(s) == None;
    assert Lower(s)[0] == 'n';
    assert !NamesInfinity(s);
    assert !(s[0] == '-' || s[0] == '+');
  }

  lemma NotAvailable()
    ensures CoercePriceCell(Text("N/A")) == Missing
  {
    var s := "N/A";
    StripKeepsClean(s);
    assert CoercePriceCell(Text(s)) == ToNumericCell(Text(s));
    ParseNotAvailable();
  }

  /** Coercing an already coerced cell changes nothing. */
  lemma ToNumericIdempotent(c: Cell)
    ensures ToNumericCell(ToNumericCell(c)) == ToNumericCell(c)
  {
  }

  // ---------------------------------------------------------------------
  // Superhost flag

  /** The flag is true exactly for the texts "t"/"true" in any letter case
      (or a flag that is already true), false exactly for "f"/"false", and
      every other value becomes missing. */
  lemma SuperhostCases(c: Cell)
    ensures SuperhostCell(c) == Flag(true) <==>
      c == Flag(true) || (c.Text? && (Lower(c.s) == "t" || Lower(c.s) == "true"))
    ensures SuperhostCell(c) == Flag(false) <==>
      c == Flag(false) || (c.Text? && (Lower(c.s) == "f" || Lower(c.s) == "false"))
    ensures SuperhostCell(c).Missing? <==> !SuperhostCell(c).Flag?
  {
  }

  lemma SuperhostExamples()
    ensures SuperhostCell(Text("TRUE")) == Flag(true)
    ensures SuperhostCell(Text("f")) == Flag(false)
    ensures SuperhostCell(Text("yes")) == Missing
    ensures SuperhostCell(Missing) == Missing
  {
    assert Lower("TRUE") == "true";
    assert Lower("f") == "f";
    assert Lower("yes") == "yes";
  }

  // ---------------------------------------------------------------------
  // Price tiers

  /** With low <= high, the three tiers are the bands (-inf, low],
      (low, high] and (high, +inf) of a price, integer or real. */
  lemma TierBands(c: Cell, low: real, high: real)
    requires IsAmount(c) && low <= high
    ensures AssignTier(c, low, high) == Budget <==> Amount(c) <= low
    ensures AssignTier(c, low, high) == MidRange <==> low < Amount(c) <= high
    ensures AssignTier(c, low, high) == Premium <==> high < Amount(c)
  {
  }

  /** A higher price never gets a lower tier, whether either price is an
      integer or a real. */
  lemma TierMonotone(c: Cell, d: Cell, low: real, high: real)
    requires IsAmount(c) && IsAmount(d) && Amount(c) <= Amount(d)
    ensures Rank(AssignTier(c, low, high)) <= Rank(AssignTier(d, low, high))
  {
  }
}
