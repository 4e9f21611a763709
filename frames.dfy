/** The expense table as the dashboards hold it, and the cleaning that both scripts apply to it
    in place: Amount to a number, InvoiceDate to a date, rows with a gap dropped, a Period column
    added to the filtered copy. */
module Frames {
  import opened Wrappers
  import opened Sequences
  import opened Dates
  import opened Amounts

  /** An Amount cell: missing (NaN), text as it came from the source, or a number.
      Numbers are `real`, so sums are exact. */
  datatype AmountCell = NoAmount | AmountText(text: string) | AmountNumber(value: real)

  /** An InvoiceDate cell: missing (NaT), text as it came from the source, or a date. */
  datatype DateCell = NoDate | DateText(text: string) | DateValue(date: CalendarDate)

  /** One expense record. `category` is the "Expense Category" column in the Airtable
      dashboard and the "Category" column in the upload dashboard. */
  datatype Row = Row(
    invoiceDate: DateCell,
    amount: AmountCell,
    vendor: Option<string>,
    category: Option<string>,
    period: Option<CalendarDate>)

  /** What aborts a run: a column the script indexes is absent (KeyError), or an Amount text
      that is still not a number once `$` and `,` are gone (ValueError). */
  datatype CleanError = MissingColumns(names: seq<string>) | NotNumeric(text: string)

  /** `float()` on a text: the number it denotes, or None when it raises. */
  type NumberParser = string -> Option<real>

  /** `pd.to_datetime` on a text: the date it denotes, or None when it cannot parse it. */
  type DateParser = string -> Option<CalendarDate>

  const AmountColumn: string := "Amount"
  const DateColumn: string := "InvoiceDate"
  const VendorColumn: string := "Vendor"
  const PeriodColumn: string := "Period"

  /** The columns `dropna(subset=...)` inspects, in the order the script lists them. */
  function RequiredColumns(categoryColumn: string): seq<string> {
    [DateColumn, AmountColumn, VendorColumn, categoryColumn]
  }

  // ---------------------------------------------------------------------------------------
  // Line 26 (line 19 of app.py): the Amount column loses its currency marks and becomes numeric.

  /** One Amount cell: currency marks deleted, then the text read as a number. */
  function ConvertAmount(c: AmountCell, parse: NumberParser): (r: Result<AmountCell, CleanError>)
    ensures r.Success? ==> !r.value.AmountText?
    ensures r.Success? ==> (r.value == NoAmount <==> c == NoAmount)
    ensures r.Failure? <==> c.AmountText? && parse(StripCurrency(c.text)).None?
    ensures r.Failure? ==> r.error == NotNumeric(StripCurrency(c.text))
    ensures c.AmountText? && r.Success? ==> r.value == AmountNumber(parse(StripCurrency(c.text)).value)
    ensures c.AmountNumber? ==> r == Success(c)
  {
    match c
    case NoAmount => Success(NoAmount)
    case AmountNumber(x) => Success(AmountNumber(x))
    case AmountText(t) =>
      var s := StripCurrency(t);
      match parse(s)
      case None => Failure(NotNumeric(s))
      case Some(x) => Success(AmountNumber(x))
  }

  predicate AmountConverts(r: Row, parse: NumberParser) {
    ConvertAmount(r.amount, parse).Success?
  }

  /** The whole Amount column converted, or the error of the first cell that does not convert. */
  function ConvertAmounts(rows: seq<Row>, parse: NumberParser): (r: Result<seq<Row>, CleanError>)
    ensures r.Success? <==> forall i :: 0 <= i < |rows| ==> AmountConverts(rows[i], parse)
    ensures r.Success? ==> |r.value| == |rows|
    ensures r.Success? ==> forall i :: 0 <= i < |rows| ==>
      r.value[i] == rows[i].(amount := ConvertAmount(rows[i].amount, parse).value)
  {
    if rows == [] then Success([])
    else
      match ConvertAmount(rows[0].amount, parse)
      case Failure(e) => Failure(e)
      case Success(c) =>
        match ConvertAmounts(rows[1..], parse)
        case Failure(e) =>
          assert !AmountConverts(rows[1..][FirstFailure(rows[1..], parse)], parse);
          Failure(e)
        case Success(rest) =>
          assert forall i :: 1 <= i < |rows| ==> rows[i] == rows[1..][i - 1];
          Success([rows[0].(amount := c)] + rest)
  }

  /** The position of the first Amount cell that does not convert (|rows| if there is none). */
  function FirstFailure(rows: seq<Row>, parse: NumberParser): (k: nat)
    ensures k <= |rows|
    ensures forall j :: 0 <= j < k ==> AmountConverts(rows[j], parse)
    ensures k < |rows| ==> !AmountConverts(rows[k], parse)
  {
    if rows == [] then 0
    else if !AmountConverts(rows[0], parse) then 0
    else
      var k := FirstFailure(rows[1..], parse);
      assert forall j :: 0 <= j < k ==> rows[1..][j] == rows[j + 1];
      k + 1
  }

  /** `astype(float)` has no coerce option: a failed conversion reports the first text that is
      not a number and aborts the whole column. */
  lemma {:induction false} ConvertAmountsFailure(rows: seq<Row>, parse: NumberParser)
    requires ConvertAmounts(rows, parse).Failure?
    ensures FirstFailure(rows, parse) < |rows|
    ensures ConvertAmount(rows[FirstFailure(rows, parse)].amount, parse) == Failure(ConvertAmounts(rows, parse).error)
  {
    if AmountConverts(rows[0], parse) {
      ConvertAmountsFailure(rows[1..], parse);
    }
  }

  /** Line 26: a KeyError when there is no Amount column, otherwise the column conversion. */
  function AmountStep(columns: set<string>, rows: seq<Row>, parse: NumberParser): (r: Result<seq<Row>, CleanError>)
    ensures AmountColumn !in columns ==> r == Failure(MissingColumns([AmountColumn]))
    ensures AmountColumn in columns ==> (r.Success? <==> forall i :: 0 <= i < |rows| ==> AmountConverts(rows[i], parse))
    ensures r.Success? ==> |r.value| == |rows|
    ensures r.Success? ==> forall i :: 0 <= i < |rows| ==>
      !r.value[i].amount.AmountText? && r.value[i] == rows[i].(amount := r.value[i].amount)
  {
    if AmountColumn !in columns then Failure(MissingColumns([AmountColumn]))
    else ConvertAmounts(rows, parse)
  }

  // ---------------------------------------------------------------------------------------
  // Line 27 (line 20 of app.py): the InvoiceDate column becomes dates, unreadable texts missing.

  /** One InvoiceDate cell: a readable text becomes its date, anything else goes missing. */
  function CoerceDate(c: DateCell, parse: DateParser): (r: DateCell)
    ensures !r.DateText?
    ensures r == NoDate <==> c == NoDate || (c.DateText? && parse(c.text).None?)
    ensures c.DateText? && parse(c.text).Some? ==> r == DateValue(parse(c.text).value)
    ensures c.DateValue? ==> r == c
  {
    match c
    case NoDate => NoDate
    case DateValue(d) => DateValue(d)
    case DateText(t) =>
      match parse(t)
      case None => NoDate
      case Some(d) => DateValue(d)
  }

  /** The InvoiceDate column coerced; no other column changes and the batch never fails. */
  function CoerceDates(rows: seq<Row>, parse: DateParser): (out: seq<Row>)
    ensures |out| == |rows|
    ensures forall i :: 0 <= i < |rows| ==> out[i].invoiceDate == CoerceDate(rows[i].invoiceDate, parse)
    ensures forall i :: 0 <= i < |rows| ==> out[i] == rows[i].(invoiceDate := out[i].invoiceDate)
  {
    seq(|rows|, i requires 0 <= i < |rows| => rows[i].(invoiceDate := CoerceDate(rows[i].invoiceDate, parse)))
  }

  /** Line 27: a KeyError when there is no InvoiceDate column, otherwise the coercion. */
  function DateStep(columns: set<string>, rows: seq<Row>, parse: DateParser): (r: Result<seq<Row>, CleanError>)
    ensures r.Failure? <==> DateColumn !in columns
    ensures r.Failure? ==> r.error == MissingColumns([DateColumn])
    ensures r.Success? ==> |r.value| == |rows|
    ensures r.Success? ==> forall i :: 0 <= i < |rows| ==>
      !r.value[i].invoiceDate.DateText? && r.value[i] == rows[i].(invoiceDate := r.value[i].invoiceDate)
  {
    if DateColumn !in columns then Failure(MissingColumns([DateColumn]))
    else Success(CoerceDates(rows, parse))
  }

  // ---------------------------------------------------------------------------------------
  // Line 28 (line 21 of app.py): rows missing a date, Amount, Vendor or category are dropped.

  /** No required cell is missing. An empty string is a value, not a gap. */
  predicate IsComplete(r: Row) {
    r.invoiceDate != NoDate && r.amount != NoAmount && r.vendor.Some? && r.category.Some?
  }

  function Absent(columns: set<string>): string -> bool {
    name => name !in columns
  }

  /** The subset columns the frame does not have, in subset order. */
  function MissingRequired(columns: set<string>, categoryColumn: string): (missing: seq<string>)
    ensures IsSubsequence(missing, RequiredColumns(categoryColumn))
    ensures forall n :: n in RequiredColumns(categoryColumn) ==> (n in missing <==> n !in columns)
    ensures forall n :: n in missing ==> n in RequiredColumns(categoryColumn)
  {
    var required := RequiredColumns(categoryColumn);
    KeepIsSubsequence(required, Absent(columns));
    var missing := Keep(required, Absent(columns));
    assert forall i :: 0 <= i < |missing| ==> missing[i] in required && missing[i] !in columns;
    assert forall i :: 0 <= i < |required| && required[i] !in columns ==> required[i] in missing;
    missing
  }

  /** Line 28: a KeyError naming every absent subset column, otherwise the complete rows. */
  function DropStep(columns: set<string>, categoryColumn: string, rows: seq<Row>): (r: Result<seq<Row>, CleanError>)
    ensures r.Failure? <==> exists n :: n in RequiredColumns(categoryColumn) && n !in columns
    ensures r.Failure? ==> r.error == MissingColumns(MissingRequired(columns, categoryColumn))
    ensures r.Success? ==> forall i :: 0 <= i < |r.value| ==> IsComplete(r.value[i])
    ensures r.Success? ==> IsSubsequence(r.value, rows)
    ensures r.Success? ==> forall i :: 0 <= i < |rows| && IsComplete(rows[i]) ==> rows[i] in r.value
    ensures r.Success? ==> forall x :: multiset(r.value)[x] == if IsComplete(x) then multiset(rows)[x] else 0
  {
    var missing := MissingRequired(columns, categoryColumn);
    KeepIsSubsequence(rows, IsComplete);
    KeepCounts(rows, IsComplete);
    if missing != [] then
      assert missing[0] in missing;
      Failure(MissingColumns(missing))
    else
      Success(Keep(rows, IsComplete))
  }

  // ---------------------------------------------------------------------------------------
  // Lines 26-28 together

  /** The three cleaning statements in order; the first error aborts the script. */
  function Clean(columns: set<string>, categoryColumn: string, rows: seq<Row>,
                 parseNumber: NumberParser, parseDate: DateParser): (r: Result<seq<Row>, CleanError>)
    ensures r.Success? ==> forall i :: 0 <= i < |r.value| ==> IsClean(r.value[i])
  {
    match AmountStep(columns, rows, parseNumber)
    case Failure(e) => Failure(e)
    case Success(numeric) =>
      match DateStep(columns, numeric, parseDate)
      case Failure(e) => Failure(e)
      case Success(dated) =>
        assert forall i :: 0 <= i < |dated| ==> !dated[i].amount.AmountText? && !dated[i].invoiceDate.DateText?;
        DropStep(columns, categoryColumn, dated)
  }

  /** What every row of the cleaned table looks like. */
  predicate IsClean(r: Row) {
    r.invoiceDate.DateValue? && r.amount.AmountNumber? && r.vendor.Some? && r.category.Some?
  }

  /** Whether lines 26-28 keep a row, judged on the row as it came from the source: an Amount
      that is there, a Vendor and a category that are there, and an InvoiceDate that is a date
      or a text the date parser accepts. */
  predicate Survives(r: Row, parseDate: DateParser) {
    && r.amount != NoAmount
    && r.vendor.Some?
    && r.category.Some?
    && match r.invoiceDate
       case NoDate => false
       case DateText(t) => parseDate(t).Some?
       case DateValue(_) => true
  }

  function SurvivorMask(rows: seq<Row>, parseDate: DateParser): (mask: seq<bool>)
    ensures |mask| == |rows|
  {
    seq(|rows|, i requires 0 <= i < |rows| => Survives(rows[i], parseDate))
  }

  /** A converted and coerced row is complete exactly when the row it came from survives. */
  lemma SurvivorMaskMatches(rows: seq<Row>, parseNumber: NumberParser, parseDate: DateParser)
    requires ConvertAmounts(rows, parseNumber).Success?
    ensures MaskOf(CoerceDates(ConvertAmounts(rows, parseNumber).value, parseDate), IsComplete)
         == SurvivorMask(rows, parseDate)
  {
    var numeric := ConvertAmounts(rows, parseNumber).value;
    var dated := CoerceDates(numeric, parseDate);
    forall i | 0 <= i < |rows|
      ensures MaskOf(dated, IsComplete)[i] == SurvivorMask(rows, parseDate)[i]
    {
      assert numeric[i] == rows[i].(amount := ConvertAmount(rows[i].amount, parseNumber).value);
      assert dated[i] == numeric[i].(invoiceDate := CoerceDate(numeric[i].invoiceDate, parseDate));
      assert MaskOf(dated, IsComplete)[i] == IsComplete(dated[i]);
    }
  }

  /** Cleaning keeps exactly the surviving rows, in their original order, each with its Amount
      converted and its InvoiceDate coerced: an unparseable or missing date, a missing Amount,
      Vendor or category drops the row, and no other row is dropped. */
  lemma CleanSelectsSurvivors(columns: set<string>, categoryColumn: string, rows: seq<Row>,
                              parseNumber: NumberParser, parseDate: DateParser)
    requires Clean(columns, categoryColumn, rows, parseNumber, parseDate).Success?
    ensures ConvertAmounts(rows, parseNumber).Success?
    ensures Clean(columns, categoryColumn, rows, parseNumber, parseDate).value
         == Select(CoerceDates(ConvertAmounts(rows, parseNumber).value, parseDate), SurvivorMask(rows, parseDate))
  {
    assert AmountColumn in columns && DateColumn in columns;
    var numeric := ConvertAmounts(rows, parseNumber).value;
    var dated := CoerceDates(numeric, parseDate);
    assert Clean(columns, categoryColumn, rows, parseNumber, parseDate) == DropStep(columns, categoryColumn, dated);
    KeepIsSelect(dated, IsComplete);
    SurvivorMaskMatches(rows, parseNumber, parseDate);
  }

  /** The Amount conversion is all-or-nothing: one text that is not a number once `$` and `,`
      are gone aborts cleaning, whatever the other rows hold. */
  lemma CleanFailsOnNonNumericAmount(columns: set<string>, categoryColumn: string, rows: seq<Row>,
                                     parseNumber: NumberParser, parseDate: DateParser, k: nat)
    requires AmountColumn in columns
    requires k < |rows| && rows[k].amount.AmountText?
    requires parseNumber(StripCurrency(rows[k].amount.text)).None?
    ensures Clean(columns, categoryColumn, rows, parseNumber, parseDate).Failure?
    ensures Clean(columns, categoryColumn, rows, parseNumber, parseDate).error.NotNumeric?
  {
    assert !AmountConverts(rows[k], parseNumber);
    ConvertAmountsFailure(rows, parseNumber);
  }

  /** Dates never abort cleaning: once the columns exist and the amounts are numbers, every
      InvoiceDate text, parseable or not, leads to a cleaned table. */
  lemma CleanSucceeds(columns: set<string>, categoryColumn: string, rows: seq<Row>,
                      parseNumber: NumberParser, parseDate: DateParser)
    requires forall n :: n in RequiredColumns(categoryColumn) ==> n in columns
    requires forall i :: 0 <= i < |rows| ==> AmountConverts(rows[i], parseNumber)
    ensures Clean(columns, categoryColumn, rows, parseNumber, parseDate).Success?
  {
    assert AmountColumn in RequiredColumns(categoryColumn) && DateColumn in RequiredColumns(categoryColumn);
  }

  lemma ConvertCleanAmounts(rows: seq<Row>, parse: NumberParser)
    requires forall i :: 0 <= i < |rows| ==> rows[i].amount.AmountNumber?
    ensures ConvertAmounts(rows, parse) == Success(rows)
  {
    var r := ConvertAmounts(rows, parse);
    assert r.Success?;
    assert forall i :: 0 <= i < |rows| ==> r.value[i] == rows[i];
    assert r.value == rows;
  }

  /** Cleaning an already clean table gives it back unchanged. */
  lemma CleanIdempotent(columns: set<string>, categoryColumn: string, rows: seq<Row>,
                        parseNumber: NumberParser, parseDate: DateParser)
    requires Clean(columns, categoryColumn, rows, parseNumber, parseDate).Success?
    ensures var cleaned := Clean(columns, categoryColumn, rows, parseNumber, parseDate).value;
      Clean(columns, categoryColumn, cleaned, parseNumber, parseDate) == Success(cleaned)
  {
    var cleaned := Clean(columns, categoryColumn, rows, parseNumber, parseDate).value;
    ConvertCleanAmounts(cleaned, parseNumber);
    assert CoerceDates(cleaned, parseDate) == cleaned;
    assert forall x :: x in cleaned ==> IsComplete(x);
    KeepAll(cleaned, IsComplete);
  }

  // ---------------------------------------------------------------------------------------
  // Lines 40-43 (lines 33-36 of app.py): each filtered row gets the start of its month or quarter.

  /** The Period column derived from the InvoiceDate column; NaT stays NaT. */
  function WithPeriods(rows: seq<Row>, view: View): (out: seq<Row>)
    ensures |out| == |rows|
    ensures forall i :: 0 <= i < |rows| ==> out[i] == rows[i].(period := out[i].period)
    ensures forall i :: 0 <= i < |rows| ==>
      (out[i].period.Some? <==> rows[i].invoiceDate.DateValue?)
    ensures forall i :: 0 <= i < |rows| && rows[i].invoiceDate.DateValue? ==>
      out[i].period == Some(PeriodOf(view, rows[i].invoiceDate.date))
  {
    seq(|rows|, i requires 0 <= i < |rows| =>
      rows[i].(period := if rows[i].invoiceDate.DateValue? then Some(PeriodOf(view, rows[i].invoiceDate.date)) else None))
  }

  /** Sum of the Amount column, NaN counted as nothing (pandas' `skipna`). */
  function TotalAmount(rows: seq<Row>): real {
    if rows == [] then 0.0 else AmountOf(rows[0]) + TotalAmount(rows[1..])
  }

  function AmountOf(r: Row): real {
    if r.amount.AmountNumber? then r.amount.value else 0.0
  }

  // ---------------------------------------------------------------------------------------
  // The table object

  /** A data frame: the set of column names it has and its rows in order. */
  class Frame {
    var columns: set<string>
    var rows: seq<Row>

    constructor (columns: set<string>, rows: seq<Row>)
      ensures this.columns == columns && this.rows == rows
    {
      this.columns := columns;
      this.rows := rows;
    }

    /** Line 26: the Amount column rewritten in place, or the error that stops the script
        with the frame untouched. */
    method SanitiseAmount(parse: NumberParser) returns (o: Outcome<CleanError>)
      modifies this
      ensures columns == old(columns)
      ensures match AmountStep(old(columns), old(rows), parse)
        case Success(c) => o == Pass && rows == c
        case Failure(e) => o == Fail(e) && rows == old(rows)
      ensures o.Pass? ==> forall i :: 0 <= i < |rows| ==> !rows[i].amount.AmountText?
    {
      var r := AmountStep(columns, rows, parse);
      match r
      case Success(c) => { rows := c; o := Pass; }
      case Failure(e) => { o := Fail(e); }
    }

    /** Line 27: the InvoiceDate column rewritten in place. */
    method CoerceInvoiceDates(parse: DateParser) returns (o: Outcome<CleanError>)
      modifies this
      ensures columns == old(columns)
      ensures match DateStep(old(columns), old(rows), parse)
        case Success(c) => o == Pass && rows == c
        case Failure(e) => o == Fail(e) && rows == old(rows)
      ensures o.Pass? ==> forall i :: 0 <= i < |rows| ==> !rows[i].invoiceDate.DateText?
    {
      var r := DateStep(columns, rows, parse);
      match r
      case Success(c) => { rows := c; o := Pass; }
      case Failure(e) => { o := Fail(e); }
    }

    /** Line 28: `dropna(subset=..., inplace=True)`. */
    method DropIncomplete(categoryColumn: string) returns (o: Outcome<CleanError>)
      modifies this
      ensures columns == old(columns)
      ensures match DropStep(old(columns), categoryColumn, old(rows))
        case Success(c) => o == Pass && rows == c
        case Failure(e) => o == Fail(e) && rows == old(rows)
      ensures o.Pass? ==> forall i :: 0 <= i < |rows| ==> IsComplete(rows[i])
    {
      var r := DropStep(columns, categoryColumn, rows);
      match r
      case Success(c) => { rows := c; o := Pass; }
      case Failure(e) => { o := Fail(e); }
    }

    /** Lines 40-43: the Period column added in place. The `.dt` accessor needs the
        InvoiceDate column to hold dates, which line 27 guarantees. */
    method AssignPeriod(view: View)
      requires forall i :: 0 <= i < |rows| ==> !rows[i].invoiceDate.DateText?
      modifies this
      ensures columns == old(columns) + {PeriodColumn}
      ensures rows == WithPeriods(old(rows), view)
    {
      rows := WithPeriods(rows, view);
      columns := columns + {PeriodColumn};
    }
  }
}
