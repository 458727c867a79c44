/**
  The ROI table of components/slides/slide-13.tsx: the `roiData` rows and `formatValue`,
  which passes currency, percentage and dash cells through and prints every other cell as
  `parseInt(value).toLocaleString('en-US')`.
 */
module Roi {
  import opened LocaleFormat

  /** The en dash (U+2013) and the em dash (U+2014) that stand for "no value". */
  const EnDash: string := "\U{2013}"
  const EmDash: string := "\U{2014}"

  /** The cells `formatValue` returns unchanged: any with '$' or '%', and the two dashes. */
  predicate Passthrough(value: string)
  {
    '$' in value || '%' in value || value == EnDash || value == EmDash
  }

  /** `formatValue(value)` as written. */
  function FormatValue(value: string): (r: string)
    ensures Passthrough(value) ==> r == value
    ensures !Passthrough(value) && ParseInt(value).NaN? ==> r == "NaN"
    ensures !Passthrough(value) && ParseInt(value).Integer? ==>
              StripCommas(r) == (if ParseInt(value).negative then "-" else "") + Decimal(ParseInt(value).magnitude)
  {
    if '$' in value || '%' in value then value
    else if value == EnDash || value == EmDash then value
    else ToLocaleString(ParseInt(value))
  }

  /** The en-US form of an integer is never the text "NaN". */
  lemma IntegerTextIsNotNaN(negative: bool, m: nat)
    ensures ToLocaleString(Integer(negative, m)) != "NaN"
  {
    assert StripCommas("NaN") == "NaN";
  }

  /** `formatValue` prints "NaN" exactly for the cells it does not pass through and parseInt rejects. */
  lemma FormatValueNaNIff(value: string)
    ensures FormatValue(value) == "NaN" <==> !Passthrough(value) && ParseInt(value).NaN?
  {
    if !Passthrough(value) && ParseInt(value).Integer? {
      IntegerTextIsNotNaN(ParseInt(value).negative, ParseInt(value).magnitude);
    }
  }

  /** Passed-through cells come out unchanged, so formatting them again changes nothing. */
  lemma PassthroughIdempotent(value: string)
    requires Passthrough(value)
    ensures FormatValue(FormatValue(value)) == FormatValue(value) == value
  {
  }

  /**
    A canonical digit string (no leading zero) is printed with its digits grouped by commas,
    and stripping the commas gives the cell back.
   */
  lemma FormatValueOfDigits(s: string)
    requires |s| >= 1 && AllRadixDigits(s, 10)
    requires s[0] != '0' || |s| == 1
    ensures FormatValue(s) == GroupThousands(s)
    ensures StripCommas(FormatValue(s)) == s
  {
    FormatValueOfAllDigits(s);
    DecimalOfCanonical(s);
    GroupThousandsStrip(s);
  }

  /**
    Any digit string, leading zeros included, is printed as the grouped decimal of its value:
    the leading zeros are dropped.
   */
  lemma FormatValueOfAllDigits(s: string)
    requires |s| >= 1 && AllRadixDigits(s, 10)
    ensures FormatValue(s) == GroupThousands(Decimal(RadixValue(s, 10)))
  {
    DigitsAreNotPassedThrough(s);
    ParseIntOfDigits(s);
  }

  /** "007" is printed as "7". */
  lemma LeadingZerosDropped()
    ensures FormatValue("007") == "7"
  {
    ZeroZeroSevenValue();
    FormatValueOfAllDigits("007");
    assert Decimal(7) == "7";
  }

  lemma ZeroZeroSevenValue()
    ensures AllRadixDigits("007", 10) && RadixValue("007", 10) == 7
  {
    assert ("007")[..2] == "00" && ("00")[..1] == "0";
  }

  /**
    A cell that is parsed and reads as blanks, a sign, a run of decimal digits and a rest that
    does not continue the run prints as the en-US text of the run's signed value; the rest is dropped.
   */
  lemma FormatValueOfDigitRun(w: string, sg: string, d: string, rest: string)
    requires !Passthrough(w + sg + d + rest)
    requires forall k :: 0 <= k < |w| ==> IsStrWhiteSpace(w[k])
    requires sg == "" || sg == "+" || sg == "-"
    requires |d| >= 1 && AllRadixDigits(d, 10)
    requires rest == [] || !IsDigit(rest[0])
    requires !(d == "0" && rest != [] && (rest[0] == 'x' || rest[0] == 'X'))
    ensures FormatValue(w + sg + d + rest) == ToLocaleString(Integer(sg == "-", RadixValue(d, 10)))
  {
    ParseIntOfDigitRun(w, sg, d, rest);
  }

  /** A count followed by a unit, "12 months", prints as "12": the unit is dropped. */
  lemma TrailingUnitDropped()
    ensures FormatValue("12 months") == "12"
  {
    TwelveMonthsParts();
    FormatValueOfDigitRun("", "", "12", " months");
    TwelveText();
  }

  lemma TwelveMonthsParts()
    ensures "" + "" + "12" + " months" == "12 months"
    ensures !Passthrough("12 months")
    ensures AllRadixDigits("12", 10) && RadixValue("12", 10) == 12
    ensures !IsDigit((" months")[0])
  {
    var v := "12 months";
    forall c | c in v
      ensures c != '$' && c != '%'
    {
    }
    assert ("12")[..1] == "1";
  }

  lemma TwelveText()
    ensures ToLocaleString(Integer(false, 12)) == "12"
  {
    DecimalAppendDigit(1, 2);
    assert Decimal(1) == "1";
  }

  lemma DigitsAreNotPassedThrough(s: string)
    requires |s| >= 1 && AllRadixDigits(s, 10)
    ensures !Passthrough(s) && ',' !in s
  {
    assert DigitValue(s[0], 10) >= 0;
    forall c | c in s
      ensures IsDigit(c)
    {
      var k :| 0 <= k < |s| && s[k] == c;
      assert DigitValue(s[k], 10) >= 0;
    }
  }

  /** Digit cells of at most three digits are printed exactly as written. */
  lemma ShortDigitCellsUnchanged(s: string)
    requires 1 <= |s| <= 3 && AllRadixDigits(s, 10)
    requires s[0] != '0' || |s| == 1
    ensures FormatValue(s) == s
  {
    FormatValueOfDigits(s);
    ShortNumbersUngrouped(s);
  }

  // ---------------------------------------------------------------------------
  // The table
  // ---------------------------------------------------------------------------

  datatype RoiRow = RoiRow(metric: string, baseline: string, month12: string, month24: string, highlight: bool)

  const RoiData: seq<RoiRow> := [
    RoiRow("Qualified leads / mo", "120", "240", "320", false),
    RoiRow("Closed deals / mo (12% conv.)", "10", "29", "38", false),
    RoiRow("Avg. deal value (commission)", "$7,500", "$7,500", "$7,500", false),
    RoiRow("Monthly commission revenue", "$75k", "$218k", "$285k", false),
    RoiRow("Cumulative net profit", EnDash, "$1.3M", "$3.7M", true),
    RoiRow("Investment payback", EmDash, "< 9 months", EmDash, false)
  ]

  /** The three value cells of a row, left to right. */
  function Cells(row: RoiRow): seq<string>
  {
    [row.baseline, row.month12, row.month24]
  }

  /** No cell of the table is itself the text "NaN": none starts with 'N'. */
  lemma NoCellReadsNaN(r: int)
    requires 0 <= r < |RoiData|
    ensures forall k :: 0 <= k < 3 ==> Cells(RoiData[r])[k] != "NaN"
  {
    var cells := Cells(RoiData[r]);
    assert cells[0][0] != 'N' && cells[1][0] != 'N' && cells[2][0] != 'N';
  }

  /** Every value cell of the row is printed exactly as it is written in the data. */
  predicate PrintedAsWritten(row: RoiRow)
  {
    FormatValue(row.baseline) == row.baseline && FormatValue(row.month12) == row.month12
    && FormatValue(row.month24) == row.month24
  }

  /** The lead and deal counts of the first two rows are printed exactly as written. */
  lemma CountCellsPrintedAsWritten()
    ensures PrintedAsWritten(RoiData[0]) && PrintedAsWritten(RoiData[1])
  {
    assert RoiData[0].baseline == "120" && RoiData[0].month12 == "240" && RoiData[0].month24 == "320";
    assert RoiData[1].baseline == "10" && RoiData[1].month12 == "29" && RoiData[1].month24 == "38";
    LeadCounts();
    DealCounts();
  }

  lemma LeadCounts()
    ensures FormatValue("120") == "120" && FormatValue("240") == "240" && FormatValue("320") == "320"
  {
    ThreeCountsUnchanged("120", "240", "320");
  }

  lemma DealCounts()
    ensures FormatValue("10") == "10" && FormatValue("29") == "29" && FormatValue("38") == "38"
  {
    ThreeCountsUnchanged("10", "29", "38");
  }

  lemma ThreeCountsUnchanged(a: string, b: string, c: string)
    requires 1 <= |a| <= 3 && AllRadixDigits(a, 10) && a[0] != '0'
    requires 1 <= |b| <= 3 && AllRadixDigits(b, 10) && b[0] != '0'
    requires 1 <= |c| <= 3 && AllRadixDigits(c, 10) && c[0] != '0'
    ensures FormatValue(a) == a && FormatValue(b) == b && FormatValue(c) == c
  {
    ShortDigitCellsUnchanged(a);
    ShortDigitCellsUnchanged(b);
    ShortDigitCellsUnchanged(c);
  }

  /** The currency and dash rows are passed through untouched. */
  lemma CurrencyAndDashCellsPrintedAsWritten()
    ensures PrintedAsWritten(RoiData[2]) && PrintedAsWritten(RoiData[3]) && PrintedAsWritten(RoiData[4])
    ensures FormatValue(RoiData[5].baseline) == RoiData[5].baseline == EmDash
    ensures FormatValue(RoiData[5].month24) == RoiData[5].month24 == EmDash
  {
    assert RoiData[2].baseline == "$7,500" && RoiData[2].month12 == "$7,500" && RoiData[2].month24 == "$7,500";
    assert RoiData[3].baseline == "$75k" && RoiData[3].month12 == "$218k" && RoiData[3].month24 == "$285k";
    assert RoiData[4].baseline == EnDash && RoiData[4].month12 == "$1.3M" && RoiData[4].month24 == "$3.7M";
    assert RoiData[5].baseline == EmDash && RoiData[5].month24 == EmDash;
    assert Passthrough(EnDash) && Passthrough(EmDash);
    assert Passthrough("$7,500") by { assert ("$7,500")[0] == '$'; }
    assert Passthrough("$75k") by { assert ("$75k")[0] == '$'; }
    assert Passthrough("$218k") by { assert ("$218k")[0] == '$'; }
    assert Passthrough("$285k") by { assert ("$285k")[0] == '$'; }
    assert Passthrough("$1.3M") by { assert ("$1.3M")[0] == '$'; }
    assert Passthrough("$3.7M") by { assert ("$3.7M")[0] == '$'; }
  }

  /** As written, the payback row's 12-month cell "< 9 months" is printed as "NaN". */
  lemma PaybackCellRendersNaN()
    ensures RoiData[5].month12 == "< 9 months"
    ensures FormatValue(RoiData[5].month12) == "NaN"
  {
    assert RoiData[5].month12 == "< 9 months";
    PaybackCellParsesToNaN();
  }

  lemma PaybackCellParsesToNaN()
    ensures !Passthrough("< 9 months") && ParseInt("< 9 months") == NaN
  {
    PaybackCellNotPassedThrough();
    PaybackCellUntrimmed();
    ParseIntWithoutLeadingDigit("< 9 months");
  }

  lemma PaybackCellNotPassedThrough()
    ensures !Passthrough("< 9 months")
  {
    var v := "< 9 months";
    forall c | c in v
      ensures c != '$' && c != '%'
    {
    }
  }

  lemma PaybackCellUntrimmed()
    ensures TrimStart("< 9 months") == "< 9 months"
  {
    assert !IsStrWhiteSpace('<');
  }

  /**
    `formatValue` as evidently intended: a cell parseInt cannot read is shown as written
    rather than as "NaN"; every other cell is formatted as before.
   */
  function FormatValueCorrected(value: string): (r: string)
    ensures r == FormatValue(value) || r == value
  {
    if Passthrough(value) then value
    else match ParseInt(value)
      case NaN => value
      case Integer(_, _) => FormatValue(value)
  }

  /**
    The correction changes only the cells that printed "NaN", and it prints "NaN" only for a
    cell that already says "NaN".
   */
  lemma CorrectedAgreesOrKeepsText(value: string)
    ensures FormatValue(value) != "NaN" ==> FormatValueCorrected(value) == FormatValue(value)
    ensures FormatValue(value) == "NaN" ==> FormatValueCorrected(value) == value
    ensures FormatValueCorrected(value) == "NaN" ==> value == "NaN"
  {
    FormatValueNaNIff(value);
  }

  /** With the correction no cell of the table prints "NaN", and the payback cell reads as written. */
  lemma CorrectedTableHasNoNaN()
    ensures forall r, k :: 0 <= r < |RoiData| && 0 <= k < 3 ==>
              FormatValueCorrected(Cells(RoiData[r])[k]) != "NaN"
    ensures FormatValueCorrected(RoiData[5].month12) == "< 9 months"
  {
    forall r, k | 0 <= r < |RoiData| && 0 <= k < 3
      ensures FormatValueCorrected(Cells(RoiData[r])[k]) != "NaN"
    {
      var c := Cells(RoiData[r])[k];
      NoCellReadsNaN(r);
      CorrectedAgreesOrKeepsText(c);
    }
    PaybackCellRendersNaN();
    CorrectedAgreesOrKeepsText(RoiData[5].month12);
  }
}
