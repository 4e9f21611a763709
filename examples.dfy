/** A worked instance of the whole pipeline on a small table, from the loaded texts to the
    chart data of app_airtable.py. */
module Examples {
  import opened Wrappers
  import opened Sequences
  import opened Dates
  import opened Amounts
  import opened Frames
  import opened Filters
  import opened Grouping
  import opened Dashboard

  /** A number reader that knows the four Amount texts of the sample table. */
  function SampleNumber(s: string): Option<real> {
    if s == "100" then Some(100.0)
    else if s == "50" then Some(50.0)
    else if s == "7" then Some(7.0)
    else if s == "9" then Some(9.0)
    else None
  }

  /** A date reader that knows the three ISO dates of the sample table and nothing else. */
  function SampleDate(s: string): Option<CalendarDate> {
    if s == "2024-01-15" then Some(Date(2024, 1, 15))
    else if s == "2024-02-10" then Some(Date(2024, 2, 10))
    else if s == "2024-01-20" then Some(Date(2024, 1, 20))
    else None
  }

  function SampleColumns(): set<string> {
    {"InvoiceDate", "Amount", "Vendor", "Expense Category"}
  }

  /** The table as loaded. The third record's date cannot be read, and the fourth record's
      vendor C is not selected. */
  function SampleInput(): seq<Row> {
    [ Row(DateText("2024-01-15"), AmountText("$100"), Some("A"), Some("X"), None),
      Row(DateText("2024-02-10"), AmountText("$50"), Some("B"), Some("Y"), None),
      Row(DateText("soon"), AmountText("7"), Some("A"), Some("X"), None),
      Row(DateText("2024-01-20"), AmountText("9"), Some("C"), Some("X"), None) ]
  }

  /** The table after line 26: every Amount is a number. */
  function SampleNumeric(): seq<Row> {
    var input := SampleInput();
    [ input[0].(amount := AmountNumber(100.0)),
      input[1].(amount := AmountNumber(50.0)),
      input[2].(amount := AmountNumber(7.0)),
      input[3].(amount := AmountNumber(9.0)) ]
  }

  /** The table after lines 26-27: amounts are numbers, the unreadable date is missing. */
  function SampleDated(): seq<Row> {
    [ Row(DateValue(Date(2024, 1, 15)), AmountNumber(100.0), Some("A"), Some("X"), None),
      Row(DateValue(Date(2024, 2, 10)), AmountNumber(50.0), Some("B"), Some("Y"), None),
      Row(NoDate, AmountNumber(7.0), Some("A"), Some("X"), None),
      Row(DateValue(Date(2024, 1, 20)), AmountNumber(9.0), Some("C"), Some("X"), None) ]
  }

  lemma StripsNothing()
    ensures StripCurrency("$") == []
  {
  }

  lemma KeepsHundred()
    ensures StripCurrency("100") == "100"
  {
    StripCurrencyPlain("100");
  }

  lemma KeepsFifty()
    ensures StripCurrency("50") == "50"
  {
    StripCurrencyPlain("50");
  }

  lemma StripsHundred()
    ensures StripCurrency("$100") == "100"
  {
    assert "$100" == "$" + "100";
    StripCurrencyAppend("$", "100");
    StripsNothing();
    KeepsHundred();
  }

  lemma StripsFifty()
    ensures StripCurrency("$50") == "50"
  {
    assert "$50" == "$" + "50";
    StripCurrencyAppend("$", "50");
    StripsNothing();
    KeepsFifty();
  }

  lemma StripsDigits()
    ensures StripCurrency("7") == "7" && StripCurrency("9") == "9"
  {
    StripCurrencyPlain("7");
    StripCurrencyPlain("9");
  }

  /** Line 26 on each Amount text of the sample table. */
  lemma ConvertsHundred()
    ensures ConvertAmount(AmountText("$100"), SampleNumber) == Success(AmountNumber(100.0))
  {
    StripsHundred();
  }

  lemma ConvertsFifty()
    ensures ConvertAmount(AmountText("$50"), SampleNumber) == Success(AmountNumber(50.0))
  {
    StripsFifty();
  }

  lemma ConvertsDigits()
    ensures ConvertAmount(AmountText("7"), SampleNumber) == Success(AmountNumber(7.0))
    ensures ConvertAmount(AmountText("9"), SampleNumber) == Success(AmountNumber(9.0))
  {
    StripsDigits();
  }

  /** Line 27 on each InvoiceDate text of the sample table; "soon" is coerced to NaT. */
  lemma SampleCoerces()
    ensures CoerceDate(DateText("2024-01-15"), SampleDate) == DateValue(Date(2024, 1, 15))
    ensures CoerceDate(DateText("2024-02-10"), SampleDate) == DateValue(Date(2024, 2, 10))
    ensures CoerceDate(DateText("soon"), SampleDate) == NoDate
    ensures CoerceDate(DateText("2024-01-20"), SampleDate) == DateValue(Date(2024, 1, 20))
  {
  }

  /** Two sequences of four elements that agree at every position are equal. */
  lemma FourEqual<T>(s: seq<T>, t: seq<T>)
    requires |s| == 4 && |t| == 4
    requires s[0] == t[0] && s[1] == t[1] && s[2] == t[2] && s[3] == t[3]
    ensures s == t
  {
  }

  lemma SampleConvertsAll()
    ensures ConvertAmounts(SampleInput(), SampleNumber).Success?
  {
    ConvertsHundred();
    ConvertsFifty();
    ConvertsDigits();
  }

  lemma SampleConvertsFirstHalf()
    ensures ConvertAmounts(SampleInput(), SampleNumber).Success?
    ensures ConvertAmounts(SampleInput(), SampleNumber).value[0] == SampleNumeric()[0]
    ensures ConvertAmounts(SampleInput(), SampleNumber).value[1] == SampleNumeric()[1]
  {
    SampleConvertsAll();
    ConvertsHundred();
    ConvertsFifty();
  }

  lemma SampleConvertsSecondHalf()
    ensures ConvertAmounts(SampleInput(), SampleNumber).Success?
    ensures ConvertAmounts(SampleInput(), SampleNumber).value[2] == SampleNumeric()[2]
    ensures ConvertAmounts(SampleInput(), SampleNumber).value[3] == SampleNumeric()[3]
  {
    SampleConvertsAll();
    ConvertsDigits();
  }

  /** Line 26 on the sample table: "$100", "$50", "7" and "9" become 100, 50, 7 and 9. */
  lemma SampleConverts()
    ensures AmountStep(SampleColumns(), SampleInput(), SampleNumber) == Success(SampleNumeric())
  {
    SampleConvertsFirstHalf();
    SampleConvertsSecondHalf();
    FourEqual(ConvertAmounts(SampleInput(), SampleNumber).value, SampleNumeric());
  }

  /** Line 27 on the sample table: "soon" becomes NaT. */
  lemma SampleDates()
    ensures DateStep(SampleColumns(), SampleNumeric(), SampleDate) == Success(SampleDated())
  {
    SampleCoerces();
    var dated := CoerceDates(SampleNumeric(), SampleDate);
    assert dated[0] == SampleDated()[0];
    assert dated[1] == SampleDated()[1];
    assert dated[2] == SampleDated()[2];
    assert dated[3] == SampleDated()[3];
    FourEqual(dated, SampleDated());
  }

  /** The sample table has every column the script indexes. */
  lemma SampleHasColumns()
    ensures MissingRequired(SampleColumns(), "Expense Category") == []
  {
  }

  lemma SampleKeepsComplete()
    ensures Keep(SampleDated(), IsComplete) == [SampleDated()[0], SampleDated()[1], SampleDated()[3]]
  {
    var d := SampleDated();
    assert d == [d[0], d[1]] + [d[2], d[3]];
    KeepAppend([d[0], d[1]], [d[2], d[3]], IsComplete);
    assert Keep([d[0], d[1]], IsComplete) == [d[0], d[1]];
    assert Keep([d[2], d[3]], IsComplete) == [d[3]];
  }

  /** Line 28 drops the record without a date. */
  lemma SampleDrops()
    ensures DropStep(SampleColumns(), "Expense Category", SampleDated())
      == Success([SampleDated()[0], SampleDated()[1], SampleDated()[3]])
  {
    SampleHasColumns();
    SampleKeepsComplete();
  }

  /** Lines 26-28 on the sample table: two records kept in January and one in February. */
  lemma SampleCleans()
    ensures Clean(SampleColumns(), "Expense Category", SampleInput(), SampleNumber, SampleDate)
      == Success([SampleDated()[0], SampleDated()[1], SampleDated()[3]])
  {
    SampleConverts();
    SampleDates();
    SampleDrops();
  }

  /** Lines 37-43: vendor C is filtered out and the two kept records get their month starts. */
  lemma SampleSelects()
    ensures Selection([SampleDated()[0], SampleDated()[1], SampleDated()[3]], {"A", "B"}, {"X", "Y"}, Monthly)
      == [ SampleDated()[0].(period := Some(Date(2024, 1, 1))),
           SampleDated()[1].(period := Some(Date(2024, 2, 1))) ]
  {
    var d := SampleDated();
    var cleaned := [d[0], d[1], d[3]];
    assert cleaned == [d[0], d[1]] + [d[3]];
    KeepAppend([d[0], d[1]], [d[3]], Matches({"A", "B"}, {"X", "Y"}));
    assert Keep([d[0], d[1]], Matches({"A", "B"}, {"X", "Y"})) == [d[0], d[1]];
    assert Keep([d[3]], Matches({"A", "B"}, {"X", "Y"})) == [];
    assert Filter(cleaned, {"A", "B"}, {"X", "Y"}) == [d[0], d[1]];
    assert PeriodOf(Monthly, Date(2024, 1, 15)) == Date(2024, 1, 1);
    assert PeriodOf(Monthly, Date(2024, 2, 10)) == Date(2024, 2, 1);
  }

  /** Line 46 on the two selected records: one bucket per month and category. */
  lemma SampleGroups()
    ensures var rows := [ SampleDated()[0].(period := Some(Date(2024, 1, 1))),
                          SampleDated()[1].(period := Some(Date(2024, 2, 1))) ];
      Grouped(AirtableApp, rows)
        == [Keyed(GroupKey(Date(2024, 1, 1), "X", None), 100.0), Keyed(GroupKey(Date(2024, 2, 1), "Y", None), 50.0)]
  {
    var jan := Date(2024, 1, 1);
    var feb := Date(2024, 2, 1);
    var rows := [ SampleDated()[0].(period := Some(jan)), SampleDated()[1].(period := Some(feb)) ];
    var k1 := GroupKey(jan, "X", None);
    var k2 := GroupKey(feb, "Y", None);
    assert k1 != k2;
    var es := [Keyed(k1, 100.0), Keyed(k2, 50.0)];
    assert Entries(AirtableApp, rows[1..]) == [Keyed(k2, 50.0)];
    assert Entries(AirtableApp, rows) == es;
    assert es[..1] == [Keyed(k1, 100.0)];
    assert DistinctKeys(es[..1]) == [k1];
    assert DistinctKeys(es) == [k1, k2];
    assert es[1..] == [Keyed(k2, 50.0)];
    assert SumFor(es[1..], k1) == 0.0;
    assert SumFor(es[1..], k2) == 50.0;
  }

  /** The whole of app_airtable.py on four loaded records: "$100" on 2024-01-15 (vendor A,
      category X), "$50" on 2024-02-10 (B, Y), "7" with the unreadable date "soon" (A, X) and
      "9" on 2024-01-20 (C, X), with vendors A and B and categories X and Y selected and the
      Monthly view. The chart has the buckets (2024-01-01, X, 100) and (2024-02-01, Y, 50). */
  lemma MonthlyByCategory()
    ensures Pipeline(AirtableApp, SampleColumns(), SampleInput(), SampleNumber, SampleDate,
                     {"A", "B"}, {"X", "Y"}, Monthly)
      == Success([Keyed(GroupKey(Date(2024, 1, 1), "X", None), 100.0),
                  Keyed(GroupKey(Date(2024, 2, 1), "Y", None), 50.0)])
  {
    SampleCleans();
    SampleSelects();
    SampleGroups();
  }
}
