/**
  The budget table of components/slides/slide-12.tsx: the `budgetData` rows and
  `formatCurrency`, which prints an estimate as "$" followed by its en-US form.
 */
module Budget {
  import opened LocaleFormat

  /** `formatCurrency(value)`: "$" and then `value.toLocaleString('en-US')`. */
  function FormatCurrency(value: int): (r: string)
    ensures |r| >= 2 && r[0] == '$'
    ensures StripCommas(r[1..]) == (if value < 0 then "-" else "") + Decimal(if value < 0 then -value else value)
  {
    var x := FromInt(value);
    assert "$" + ToLocaleString(x) == ['$'] + ToLocaleString(x);
    assert |ToLocaleString(x)| >= 1 by {
      if x.negative {
        assert |ToLocaleString(x)| == 1 + |GroupThousands(Decimal(x.magnitude))|;
      } else {
        GroupThousandsLength(Decimal(x.magnitude));
      }
    }
    "$" + ToLocaleString(x)
  }

  /** For an amount of zero or more the text is "$" and the grouped digits. */
  lemma FormatCurrencyOfAmount(value: nat)
    ensures FormatCurrency(value) == "$" + GroupThousands(Decimal(value))
  {
    assert FromInt(value) == Integer(false, value);
  }

  /**
    For an amount of zero or more: "$", then the digits grouped by commas in threes from
    the right, the first group holding one to three digits; stripping the "$" and the
    commas gives back the plain decimal of the amount.
   */
  lemma FormatCurrencyLayout(value: nat)
    ensures StripCommas(FormatCurrency(value)[1..]) == Decimal(value)
    ensures |FormatCurrency(value)| == 1 + |Decimal(value)| + (|Decimal(value)| - 1) / 3
    ensures FormatCurrency(value)[1] != ','
    ensures forall k :: 1 <= k < |FormatCurrency(value)| ==>
              (FormatCurrency(value)[k] == ',' <==> (|FormatCurrency(value)| - k) % 4 == 0)
  {
    FormatCurrencyDigits(value);
    FormatCurrencyCommas(value);
  }

  lemma FormatCurrencyDigits(value: nat)
    ensures StripCommas(FormatCurrency(value)[1..]) == Decimal(value)
    ensures |FormatCurrency(value)| == 1 + |Decimal(value)| + (|Decimal(value)| - 1) / 3
    ensures FormatCurrency(value)[1] != ','
  {
    var d := Decimal(value);
    FormatCurrencyOfAmount(value);
    GroupThousandsLength(d);
    GroupThousandsStartsWithDigit(d);
  }

  lemma FormatCurrencyCommas(value: nat)
    ensures forall k :: 1 <= k < |FormatCurrency(value)| ==>
              (FormatCurrency(value)[k] == ',' <==> (|FormatCurrency(value)| - k) % 4 == 0)
  {
    var r, g := FormatCurrency(value), GroupThousands(Decimal(value));
    FormatCurrencyOfAmount(value);
    GroupThousandsLayout(Decimal(value));
    ShiftedLayout(g, r);
  }

  lemma ShiftedLayout(g: string, r: string)
    requires r == "$" + g
    requires forall k :: 0 <= k < |g| ==> (g[k] == ',' <==> (|g| - k) % 4 == 0)
    ensures forall k :: 1 <= k < |r| ==> (r[k] == ',' <==> (|r| - k) % 4 == 0)
  {
    forall k | 1 <= k < |r|
      ensures r[k] == ',' <==> (|r| - k) % 4 == 0
    {
      assert r[k] == g[k - 1];
    }
  }

  lemma DecimalBelowHundred(n: nat)
    requires n < 100
    ensures |Decimal(n)| <= 2
  {
  }

  lemma DecimalBelowThousand(n: nat)
    requires n < 1000
    ensures |Decimal(n)| <= 3
  {
    if n >= 10 {
      DecimalBelowHundred(n / 10);
    }
  }

  /** Amounts below 1000 print without a comma. */
  lemma SmallAmountsHaveNoComma(value: nat)
    requires value < 1000
    ensures FormatCurrency(value) == "$" + Decimal(value)
    ensures ',' !in FormatCurrency(value)
  {
    FormatCurrencyOfAmount(value);
    DecimalBelowThousand(value);
    ShortNumbersUngrouped(Decimal(value));
  }

  // ---------------------------------------------------------------------------
  // The table
  // ---------------------------------------------------------------------------

  /** Which flag a row carries: none, `isTotal`, `isRecurring` or `isOptional`. */
  datatype RowKind = Workstream | Total | Recurring | Optional

  datatype BudgetRow = BudgetRow(workstream: string, estimate: int, kind: RowKind)

  const BudgetData: seq<BudgetRow> := [
    BudgetRow("Discovery & Strategy", 8000, Workstream),
    BudgetRow("UX/UI Design", 15000, Workstream),
    BudgetRow("Front-end & CMS Development", 45000, Workstream),
    BudgetRow("QA, Accessibility, UAT", 8000, Workstream),
    BudgetRow("Launch, Training, Documentation", 4000, Workstream),
    BudgetRow("Total Fixed Investment", 80000, Total),
    BudgetRow("Cloud hosting, CDN, backups (monthly)", 500, Recurring),
    BudgetRow("Licences (CMS, analytics, WhatsApp API)", 250, Recurring),
    BudgetRow("Optional enhancement pool (v2 features)", 15000, Optional)
  ]

  function SumEstimates(rows: seq<BudgetRow>): int
    decreases |rows|
  {
    if rows == [] then 0 else rows[0].estimate + SumEstimates(rows[1..])
  }

  /** The estimate cell: the formatted amount, with " / mo" after a recurring one. */
  function EstimateCell(row: BudgetRow): string
  {
    FormatCurrency(row.estimate) + (if row.kind == Recurring then " / mo" else "")
  }

  /** The total row is the sum of the five workstream rows above it. */
  lemma TotalIsSumOfWorkstreams()
    ensures BudgetData[5].kind == Total
    ensures forall k :: 0 <= k < 5 ==> BudgetData[k].kind == Workstream
    ensures BudgetData[5].estimate == SumEstimates(BudgetData[..5])
  {
    var rows := BudgetData[..5];
    assert SumEstimates(rows[4..]) == 4000;
    assert SumEstimates(rows[3..]) == 8000 + SumEstimates(rows[4..]);
    assert SumEstimates(rows[2..]) == 45000 + SumEstimates(rows[3..]);
    assert SumEstimates(rows[1..]) == 15000 + SumEstimates(rows[2..]);
    assert SumEstimates(rows) == 8000 + SumEstimates(rows[1..]);
  }

  lemma GroupFiveDigits(d: string)
    requires |d| == 5
    ensures GroupThousands(d) == d[..2] + "," + d[2..]
  {
  }

  lemma DecimalOf80000()
    ensures Decimal(80000) == "80000"
  {
    assert DigitChar(0) == '0';
    DecimalAppendDigit(8, 0);
    DecimalAppendDigit(80, 0);
    DecimalAppendDigit(800, 0);
    DecimalAppendDigit(8000, 0);
  }

  lemma DecimalOf15000()
    ensures Decimal(15000) == "15000"
  {
    assert DigitChar(0) == '0';
    DecimalAppendDigit(1, 5);
    DecimalAppendDigit(15, 0);
    DecimalAppendDigit(150, 0);
    DecimalAppendDigit(1500, 0);
  }

  lemma DecimalOf500()
    ensures Decimal(500) == "500"
  {
    assert DigitChar(0) == '0';
    DecimalAppendDigit(5, 0);
    DecimalAppendDigit(50, 0);
  }

  lemma Grouped80000()
    ensures GroupThousands("80000") == "80,000"
  {
    GroupFiveDigits("80000");
    assert ("80000")[..2] == "80" && ("80000")[2..] == "000";
  }

  lemma Grouped15000()
    ensures GroupThousands("15000") == "15,000"
  {
    GroupFiveDigits("15000");
    assert ("15000")[..2] == "15" && ("15000")[2..] == "000";
  }

  /** The total investment prints as "$80,000". */
  lemma TotalAmountText()
    ensures FormatCurrency(80000) == "$80,000"
  {
    FormatCurrencyOfAmount(80000);
    DecimalOf80000();
    Grouped80000();
  }

  /** The design workstream and the enhancement pool print as "$15,000". */
  lemma DesignAmountText()
    ensures FormatCurrency(15000) == "$15,000"
  {
    FormatCurrencyOfAmount(15000);
    DecimalOf15000();
    Grouped15000();
  }

  /** The hosting line prints as "$500 / mo": no comma, and the monthly suffix. */
  lemma HostingAmountText()
    ensures EstimateCell(BudgetData[6]) == "$500 / mo"
  {
    assert BudgetData[6].estimate == 500 && BudgetData[6].kind == Recurring;
    MonthlyCellOf500(BudgetData[6]);
  }

  lemma MonthlyCellOf500(row: BudgetRow)
    requires row.kind == Recurring && row.estimate == 500
    ensures EstimateCell(row) == "$500 / mo"
  {
    HostingAmount(row.estimate);
    MonthlyCell(row, "$500");
    MonthlyText(EstimateCell(row));
  }

  lemma MonthlyText(cell: string)
    requires cell == "$500" + " / mo"
    ensures cell == "$500 / mo"
  {
  }

  /** A recurring row prints its amount followed by " / mo". */
  lemma MonthlyCell(row: BudgetRow, amount: string)
    requires row.kind == Recurring && FormatCurrency(row.estimate) == amount
    ensures EstimateCell(row) == amount + " / mo"
  {
  }

  lemma HostingAmount(value: int)
    requires value == 500
    ensures FormatCurrency(value) == "$500"
  {
    DecimalOf500();
    SmallAmountsHaveNoComma(value);
  }
}
