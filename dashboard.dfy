/** The pipeline of both dashboards, parameterised by which script runs: clean (lines 26-28),
    filter (37), attach a Period (40-43), group and sum (46). app.py (lines 19-21, 30, 33-36, 39)
    differs only in the name of its category column and in grouping by Vendor as well. */
module Dashboard {
  import opened Wrappers
  import opened Sequences
  import opened Dates
  import opened Frames
  import opened Filters
  import opened Grouping

  /** app_airtable.py or app.py. */
  datatype Variant = AirtableApp | UploadApp

  /** The name of the category column each script indexes. */
  function CategoryColumn(v: Variant): string {
    match v
    case AirtableApp => "Expense Category"
    case UploadApp => "Category"
  }

  /** A group of the chart: Period and category, and the Vendor only when the script also
      groups by Vendor. */
  datatype GroupKey = GroupKey(period: CalendarDate, category: string, vendor: Option<string>)

  /** The group a row falls in; None when a key column is missing (groupby drops such rows). */
  function KeyOf(v: Variant, r: Row): (k: Option<GroupKey>)
    ensures k.Some? <==> r.period.Some? && r.category.Some? && (v == UploadApp ==> r.vendor.Some?)
    ensures k.Some? ==> k.value.period == r.period.value && k.value.category == r.category.value
    ensures k.Some? ==> k.value.vendor == if v == UploadApp then r.vendor else None
  {
    if r.period.None? || r.category.None? then None
    else match v
      case AirtableApp => Some(GroupKey(r.period.value, r.category.value, None))
      case UploadApp => if r.vendor.None? then None else Some(GroupKey(r.period.value, r.category.value, r.vendor))
  }

  /** The (Period, category) group that contains a (Period, category, Vendor) group. */
  function DropVendor(k: GroupKey): GroupKey {
    k.(vendor := None)
  }

  function HasKey(v: Variant, k: GroupKey): Row -> bool {
    (r: Row) => KeyOf(v, r) == Some(k)
  }

  /** The (group, Amount) pairs `groupby` reads, in row order. The Amount column is numeric,
      as line 26 made it. */
  function Entries(v: Variant, rows: seq<Row>): (es: seq<Keyed<GroupKey>>)
    requires forall i :: 0 <= i < |rows| ==> !rows[i].amount.AmountText?
    ensures |es| <= |rows|
    ensures (forall i :: 0 <= i < |rows| ==> KeyOf(v, rows[i]).Some?) ==> |es| == |rows|
  {
    if rows == [] then []
    else
      var head := match KeyOf(v, rows[0]) case None => [] case Some(k) => [Keyed(k, AmountOf(rows[0]))];
      head + Entries(v, rows[1..])
  }

  /** Line 46 (line 39 for app.py): the Amount sum of each group. No group appears twice,
      there is one for the group of every row that has one and for no other group, and each
      holds the Amount total of exactly its rows. */
  function Grouped(v: Variant, rows: seq<Row>): (g: seq<Keyed<GroupKey>>)
    requires forall i :: 0 <= i < |rows| ==> !rows[i].amount.AmountText?
    ensures Distinct(KeysIn(g))
    ensures forall i :: 0 <= i < |rows| && KeyOf(v, rows[i]).Some? ==> KeyOf(v, rows[i]).value in KeysIn(g)
    ensures forall i :: 0 <= i < |g| ==> exists j :: 0 <= j < |rows| && KeyOf(v, rows[j]) == Some(g[i].key)
    ensures forall i :: 0 <= i < |g| ==> g[i].amount == TotalAmount(Keep(rows, HasKey(v, g[i].key)))
  {
    EntriesKeys(v, rows);
    EntriesFromRows(v, rows);
    BucketTotals(v, rows);
    GroupSum(Entries(v, rows))
  }

  /** Each bucket of the entries holds the Amount total of exactly the rows in its group. */
  lemma BucketTotals(v: Variant, rows: seq<Row>)
    requires forall i :: 0 <= i < |rows| ==> !rows[i].amount.AmountText?
    ensures forall i :: 0 <= i < |GroupSum(Entries(v, rows))| ==>
      GroupSum(Entries(v, rows))[i].amount == TotalAmount(Keep(rows, HasKey(v, GroupSum(Entries(v, rows))[i].key)))
  {
    var g := GroupSum(Entries(v, rows));
    forall i | 0 <= i < |g| ensures g[i].amount == TotalAmount(Keep(rows, HasKey(v, g[i].key))) {
      EntriesSumFor(v, rows, g[i].key);
    }
  }

  /** Every entry's group is the group of some row. */
  lemma {:induction false} EntriesFromRows(v: Variant, rows: seq<Row>)
    requires forall i :: 0 <= i < |rows| ==> !rows[i].amount.AmountText?
    ensures forall k :: k in KeysIn(Entries(v, rows)) ==> exists j :: 0 <= j < |rows| && KeyOf(v, rows[j]) == Some(k)
  {
    if rows != [] {
      EntriesFromRows(v, rows[1..]);
      var head := match KeyOf(v, rows[0]) case None => [] case Some(k) => [Keyed(k, AmountOf(rows[0]))];
      var tail := Entries(v, rows[1..]);
      assert Entries(v, rows) == head + tail;
      forall k | k in KeysIn(head + tail) ensures exists j :: 0 <= j < |rows| && KeyOf(v, rows[j]) == Some(k) {
        var n :| 0 <= n < |head + tail| && KeysIn(head + tail)[n] == k;
        if n < |head| {
          assert KeyOf(v, rows[0]) == Some(k);
        } else {
          assert KeysIn(tail)[n - |head|] == k;
          var j :| 0 <= j < |rows[1..]| && KeyOf(v, rows[1..][j]) == Some(k);
          assert rows[1..][j] == rows[j + 1];
        }
      }
    }
  }

  /** The filtered copy with its Period column (lines 37-43). */
  function Selection(cleaned: seq<Row>, vendors: set<string>, categories: set<string>, view: View): (out: seq<Row>)
    ensures |out| == |Filter(cleaned, vendors, categories)| <= |cleaned|
    ensures forall i :: 0 <= i < |out| ==>
      IsSelected(out[i], vendors, categories) && out[i] == Filter(cleaned, vendors, categories)[i].(period := out[i].period)
    ensures forall i :: 0 <= i < |out| ==> (out[i].period.Some? <==> out[i].invoiceDate.DateValue?)
    ensures forall i :: 0 <= i < |out| && out[i].invoiceDate.DateValue? ==>
      out[i].period == Some(PeriodOf(view, out[i].invoiceDate.date))
  {
    WithPeriods(Filter(cleaned, vendors, categories), view)
  }

  /** The whole script from the loaded table to the grouped chart data. */
  function Pipeline(v: Variant, columns: set<string>, input: seq<Row>,
                    parseNumber: NumberParser, parseDate: DateParser,
                    vendors: set<string>, categories: set<string>, view: View): (r: Result<seq<Keyed<GroupKey>>, CleanError>)
    ensures r.Failure? <==> Clean(columns, CategoryColumn(v), input, parseNumber, parseDate).Failure?
    ensures r.Failure? ==> r.error == Clean(columns, CategoryColumn(v), input, parseNumber, parseDate).error
    ensures r.Success? ==> Distinct(KeysIn(r.value))
    ensures r.Success? ==>
      Total(r.value) == TotalAmount(Filter(Clean(columns, CategoryColumn(v), input, parseNumber, parseDate).value, vendors, categories))
  {
    match Clean(columns, CategoryColumn(v), input, parseNumber, parseDate)
    case Failure(e) => Failure(e)
    case Success(cleaned) =>
      CleanSelectionNumeric(cleaned, vendors, categories, view);
      GroupedBuckets(v, Selection(cleaned, vendors, categories, view));
      TotalAmountIgnoresPeriods(Filter(cleaned, vendors, categories), view);
      Success(Grouped(v, Selection(cleaned, vendors, categories, view)))
  }

  /** Filtering a clean table leaves a clean table. */
  lemma FilterKeepsClean(cleaned: seq<Row>, vendors: set<string>, categories: set<string>)
    requires forall i :: 0 <= i < |cleaned| ==> IsClean(cleaned[i])
    ensures forall i :: 0 <= i < |Filter(cleaned, vendors, categories)| ==> IsClean(Filter(cleaned, vendors, categories)[i])
  {
    var filtered := Filter(cleaned, vendors, categories);
    forall i | 0 <= i < |filtered| ensures IsClean(filtered[i]) {
      var j :| 0 <= j < |cleaned| && cleaned[j] == filtered[i];
    }
  }

  /** After the filter and the Period column, every row is clean and has its Period. */
  lemma CleanSelectionNumeric(cleaned: seq<Row>, vendors: set<string>, categories: set<string>, view: View)
    requires forall i :: 0 <= i < |cleaned| ==> IsClean(cleaned[i])
    ensures forall i :: 0 <= i < |Selection(cleaned, vendors, categories, view)| ==>
      IsClean(Selection(cleaned, vendors, categories, view)[i])
      && Selection(cleaned, vendors, categories, view)[i].period.Some?
  {
    FilterKeepsClean(cleaned, vendors, categories);
  }

  /** Each group's entry sum is the Amount total of exactly the rows in that group. */
  lemma {:induction false} EntriesSumFor(v: Variant, rows: seq<Row>, k: GroupKey)
    requires forall i :: 0 <= i < |rows| ==> !rows[i].amount.AmountText?
    ensures SumFor(Entries(v, rows), k) == TotalAmount(Keep(rows, HasKey(v, k)))
  {
    if rows != [] {
      EntriesSumFor(v, rows[1..], k);
      var head := match KeyOf(v, rows[0]) case None => [] case Some(k') => [Keyed(k', AmountOf(rows[0]))];
      SumForAppend(head, Entries(v, rows[1..]), k);
      var kept := if HasKey(v, k)(rows[0]) then [rows[0]] else [];
      TotalAmountAppend(kept, Keep(rows[1..], HasKey(v, k)));
    }
  }

  lemma {:induction false} SumForAppend<K>(a: seq<Keyed<K>>, b: seq<Keyed<K>>, k: K)
    ensures SumFor(a + b, k) == SumFor(a, k) + SumFor(b, k)
  {
    if a == [] {
      assert a + b == b;
    } else {
      assert (a + b)[1..] == a[1..] + b;
      SumForAppend(a[1..], b, k);
    }
  }

  lemma {:induction false} TotalAppend<K>(a: seq<Keyed<K>>, b: seq<Keyed<K>>)
    ensures Total(a + b) == Total(a) + Total(b)
  {
    if a == [] {
      assert a + b == b;
    } else {
      assert (a + b)[1..] == a[1..] + b;
      TotalAppend(a[1..], b);
    }
  }

  lemma {:induction false} TotalAmountAppend(a: seq<Row>, b: seq<Row>)
    ensures TotalAmount(a + b) == TotalAmount(a) + TotalAmount(b)
  {
    if a == [] {
      assert a + b == b;
    } else {
      assert (a + b)[1..] == a[1..] + b;
      TotalAmountAppend(a[1..], b);
    }
  }

  /** When every row has its group, no Amount is left out of the entries. */
  lemma {:induction false} EntriesTotal(v: Variant, rows: seq<Row>)
    requires forall i :: 0 <= i < |rows| ==> !rows[i].amount.AmountText? && KeyOf(v, rows[i]).Some?
    ensures Total(Entries(v, rows)) == TotalAmount(rows)
  {
    if rows != [] {
      EntriesTotal(v, rows[1..]);
      TotalAppend([Keyed(KeyOf(v, rows[0]).value, AmountOf(rows[0]))], Entries(v, rows[1..]));
    }
  }

  /** On rows that all have a Vendor, the two-key entries are the three-key entries with the
      Vendor forgotten. */
  lemma {:induction false} EntriesCoarsen(rows: seq<Row>)
    requires forall i :: 0 <= i < |rows| ==> !rows[i].amount.AmountText? && rows[i].vendor.Some?
    ensures Entries(AirtableApp, rows) == MapKeys(Entries(UploadApp, rows), DropVendor)
  {
    if rows != [] {
      EntriesCoarsen(rows[1..]);
      var head := match KeyOf(UploadApp, rows[0]) case None => [] case Some(k) => [Keyed(k, AmountOf(rows[0]))];
      MapKeysAppend(head, Entries(UploadApp, rows[1..]), DropVendor);
    }
  }

  lemma {:induction false} MapKeysAppend<K, L>(a: seq<Keyed<K>>, b: seq<Keyed<K>>, f: K -> L)
    ensures MapKeys(a + b, f) == MapKeys(a, f) + MapKeys(b, f)
  {
    if a == [] {
      assert a + b == b;
    } else {
      assert (a + b)[0] == a[0];
      assert (a + b)[1..] == a[1..] + b;
      MapKeysAppend(a[1..], b, f);
    }
  }

  /** Adding the Period column leaves the Amount total alone. */
  lemma {:induction false} TotalAmountIgnoresPeriods(rows: seq<Row>, view: View)
    ensures TotalAmount(WithPeriods(rows, view)) == TotalAmount(rows)
  {
    if rows != [] {
      TotalAmountIgnoresPeriods(rows[1..], view);
      assert WithPeriods(rows, view)[1..] == WithPeriods(rows[1..], view);
    }
  }

  /** Rows as they reach the grouping: clean, each with its Period. */
  predicate ReadyToGroup(rows: seq<Row>) {
    forall i :: 0 <= i < |rows| ==> IsClean(rows[i]) && rows[i].period.Some?
  }

  /** What the grouped chart data is: no group twice, one group for each row's group, each
      group's Amount the total of exactly the rows in that group, and all groups together the
      total Amount of the rows. */
  lemma GroupedBuckets(v: Variant, rows: seq<Row>)
    requires ReadyToGroup(rows)
    ensures Distinct(KeysIn(Grouped(v, rows)))
    ensures forall i :: 0 <= i < |rows| ==> KeyOf(v, rows[i]).Some? && KeyOf(v, rows[i]).value in KeysIn(Grouped(v, rows))
    ensures forall i :: 0 <= i < |Grouped(v, rows)| ==>
      Grouped(v, rows)[i].amount == TotalAmount(Keep(rows, HasKey(v, Grouped(v, rows)[i].key)))
    ensures Total(Grouped(v, rows)) == TotalAmount(rows)
  {
    EntriesTotal(v, rows);
    GroupSumConserves(Entries(v, rows));
  }

  /** A run that gets past cleaning groups the filtered rows with their Period. */
  lemma PipelineGroupsSelection(v: Variant, columns: set<string>, input: seq<Row>,
                                parseNumber: NumberParser, parseDate: DateParser,
                                vendors: set<string>, categories: set<string>, view: View)
    requires Clean(columns, CategoryColumn(v), input, parseNumber, parseDate).Success?
    ensures var cleaned := Clean(columns, CategoryColumn(v), input, parseNumber, parseDate).value;
      && ReadyToGroup(Selection(cleaned, vendors, categories, view))
      && Pipeline(v, columns, input, parseNumber, parseDate, vendors, categories, view)
         == Success(Grouped(v, Selection(cleaned, vendors, categories, view)))
  {
    var cleaned := Clean(columns, CategoryColumn(v), input, parseNumber, parseDate).value;
    CleanSelectionNumeric(cleaned, vendors, categories, view);
  }

  /** The total of the chart data of a run is the total Amount of the filtered rows. */
  lemma PipelineConserves(v: Variant, columns: set<string>, input: seq<Row>,
                          parseNumber: NumberParser, parseDate: DateParser,
                          vendors: set<string>, categories: set<string>, view: View)
    requires Clean(columns, CategoryColumn(v), input, parseNumber, parseDate).Success?
    ensures var cleaned := Clean(columns, CategoryColumn(v), input, parseNumber, parseDate).value;
      var r := Pipeline(v, columns, input, parseNumber, parseDate, vendors, categories, view);
      r.Success? && Total(r.value) == TotalAmount(Filter(cleaned, vendors, categories))
  {
  }

  /** Every row with a group contributes that group to the entries. */
  lemma {:induction false} EntriesKeys(v: Variant, rows: seq<Row>)
    requires forall i :: 0 <= i < |rows| ==> !rows[i].amount.AmountText?
    ensures forall i :: 0 <= i < |rows| && KeyOf(v, rows[i]).Some? ==> KeyOf(v, rows[i]).value in KeysIn(Entries(v, rows))
  {
    if rows != [] {
      EntriesKeys(v, rows[1..]);
      var head := match KeyOf(v, rows[0]) case None => [] case Some(k) => [Keyed(k, AmountOf(rows[0]))];
      var tail := Entries(v, rows[1..]);
      assert Entries(v, rows) == head + tail;
      assert forall j :: 0 <= j < |tail| ==> KeysIn(head + tail)[|head| + j] == KeysIn(tail)[j];
      forall i | 0 <= i < |rows| && KeyOf(v, rows[i]).Some?
        ensures KeyOf(v, rows[i]).value in KeysIn(Entries(v, rows))
      {
        if i == 0 {
          assert KeysIn(head + tail)[0] == KeyOf(v, rows[0]).value;
        } else {
          assert rows[i] == rows[1..][i - 1];
          var j :| 0 <= j < |tail| && KeysIn(tail)[j] == KeyOf(v, rows[i]).value;
          assert KeysIn(head + tail)[|head| + j] == KeyOf(v, rows[i]).value;
        }
      }
    }
  }

  /** With the default selections the chart accounts for the whole cleaned Amount total. */
  lemma PipelineDefaultSelection(v: Variant, columns: set<string>, input: seq<Row>,
                                 parseNumber: NumberParser, parseDate: DateParser, view: View)
    requires Clean(columns, CategoryColumn(v), input, parseNumber, parseDate).Success?
    ensures var cleaned := Clean(columns, CategoryColumn(v), input, parseNumber, parseDate).value;
      var r := Pipeline(v, columns, input, parseNumber, parseDate, VendorsOf(cleaned), CategoriesOf(cleaned), view);
      r.Success? && Total(r.value) == TotalAmount(cleaned)
  {
    var cleaned := Clean(columns, CategoryColumn(v), input, parseNumber, parseDate).value;
    FilterDefaultSelection(cleaned);
    PipelineConserves(v, columns, input, parseNumber, parseDate, VendorsOf(cleaned), CategoriesOf(cleaned), view);
  }

  /** On the same rows, every (Period, Expense Category) sum of app_airtable.py equals the sum
      of the (Period, Category, Vendor) sums of app.py that share its Period and category, and
      every app.py group lies inside an app_airtable.py group. */
  lemma GroupedVariantsAgree(rows: seq<Row>)
    requires ReadyToGroup(rows)
    ensures forall i :: 0 <= i < |Grouped(AirtableApp, rows)| ==>
      Grouped(AirtableApp, rows)[i].amount
        == SumFor(MapKeys(Grouped(UploadApp, rows), DropVendor), Grouped(AirtableApp, rows)[i].key)
    ensures forall i :: 0 <= i < |Grouped(UploadApp, rows)| ==>
      DropVendor(Grouped(UploadApp, rows)[i].key) in KeysIn(Grouped(AirtableApp, rows))
  {
    var fineEntries := Entries(UploadApp, rows);
    EntriesCoarsen(rows);
    var coarse := GroupSum(Entries(AirtableApp, rows));
    var fine := GroupSum(fineEntries);
    forall i | 0 <= i < |coarse|
      ensures coarse[i].amount == SumFor(MapKeys(fine, DropVendor), coarse[i].key)
    {
      GroupSumRegroups(fineEntries, DropVendor, coarse[i].key);
    }
    forall i | 0 <= i < |fine| ensures DropVendor(fine[i].key) in KeysIn(coarse) {
      var j :| 0 <= j < |fineEntries| && fineEntries[j].key == fine[i].key;
      MapKeysAt(fineEntries, DropVendor, j);
    }
  }

  /** The two scripts, run on the same records with the same selections and view, agree:
      the app_airtable.py chart is the app.py chart with the Vendor dimension summed away. */
  lemma VariantsAgree(airtableColumns: set<string>, uploadColumns: set<string>, input: seq<Row>,
                      parseNumber: NumberParser, parseDate: DateParser,
                      vendors: set<string>, categories: set<string>, view: View)
    requires Clean(airtableColumns, CategoryColumn(AirtableApp), input, parseNumber, parseDate).Success?
    requires Clean(uploadColumns, CategoryColumn(UploadApp), input, parseNumber, parseDate).Success?
    ensures var coarse := Pipeline(AirtableApp, airtableColumns, input, parseNumber, parseDate, vendors, categories, view);
      var fine := Pipeline(UploadApp, uploadColumns, input, parseNumber, parseDate, vendors, categories, view);
      && coarse.Success? && fine.Success?
      && (forall i :: 0 <= i < |coarse.value| ==>
            coarse.value[i].amount == SumFor(MapKeys(fine.value, DropVendor), coarse.value[i].key))
      && (forall i :: 0 <= i < |fine.value| ==> DropVendor(fine.value[i].key) in KeysIn(coarse.value))
  {
    var cleaned := Clean(airtableColumns, CategoryColumn(AirtableApp), input, parseNumber, parseDate).value;
    CleanSameRows(airtableColumns, CategoryColumn(AirtableApp), uploadColumns, CategoryColumn(UploadApp),
                  input, parseNumber, parseDate);
    PipelineGroupsSelection(AirtableApp, airtableColumns, input, parseNumber, parseDate, vendors, categories, view);
    PipelineGroupsSelection(UploadApp, uploadColumns, input, parseNumber, parseDate, vendors, categories, view);
    GroupedVariantsAgree(Selection(cleaned, vendors, categories, view));
  }

  /** The column names decide only whether cleaning fails, never which rows it keeps. */
  lemma CleanSameRows(columns1: set<string>, categoryColumn1: string, columns2: set<string>, categoryColumn2: string,
                      input: seq<Row>, parseNumber: NumberParser, parseDate: DateParser)
    requires Clean(columns1, categoryColumn1, input, parseNumber, parseDate).Success?
    requires Clean(columns2, categoryColumn2, input, parseNumber, parseDate).Success?
    ensures Clean(columns1, categoryColumn1, input, parseNumber, parseDate).value
         == Clean(columns2, categoryColumn2, input, parseNumber, parseDate).value
  {
  }

  lemma {:induction false} MapKeysAt<K, L>(es: seq<Keyed<K>>, f: K -> L, j: nat)
    requires j < |es|
    ensures MapKeys(es, f)[j] == Keyed(f(es[j].key), es[j].amount)
  {
    if j > 0 {
      MapKeysAt(es[1..], f, j - 1);
    }
  }

  /** The script run on a frame object, statement by statement; the first error stops it. */
  method Run(v: Variant, columns: set<string>, input: seq<Row>,
             parseNumber: NumberParser, parseDate: DateParser,
             vendors: set<string>, categories: set<string>, view: View)
    returns (result: Result<seq<Keyed<GroupKey>>, CleanError>)
    ensures result == Pipeline(v, columns, input, parseNumber, parseDate, vendors, categories, view)
  {
    var df := new Frame(columns, input);
    var o := df.SanitiseAmount(parseNumber);
    if o.Fail? { return Failure(o.error); }
    ghost var numeric := df.rows;
    assert AmountStep(columns, input, parseNumber) == Success(numeric);
    o := df.CoerceInvoiceDates(parseDate);
    if o.Fail? { return Failure(o.error); }
    ghost var dated := df.rows;
    assert DateStep(columns, numeric, parseDate) == Success(dated);
    o := df.DropIncomplete(CategoryColumn(v));
    if o.Fail? { return Failure(o.error); }
    var cleaned := df.rows;
    assert DropStep(columns, CategoryColumn(v), dated) == Success(cleaned);
    assert Clean(columns, CategoryColumn(v), input, parseNumber, parseDate) == Success(cleaned);
    FilterKeepsClean(cleaned, vendors, categories);
    var filtered := new Frame(df.columns, Filter(cleaned, vendors, categories));
    filtered.AssignPeriod(view);
    CleanSelectionNumeric(cleaned, vendors, categories, view);
    assert filtered.rows == Selection(cleaned, vendors, categories, view);
    result := Success(Grouped(v, filtered.rows));
  }
}
