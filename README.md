# Expense dashboard: cleaning, filtering, period bucketing and grouped sums

This project is a Dafny model of the data pipeline of the two Streamlit expense dashboards,
`app_airtable.py` (records from an Airtable base) and `app.py` (records from an uploaded CSV).
Both scripts take a table of expense records and do the following:

1. They strip every `$` and `,` from the Amount text and convert it with `astype(float)`.
2. They coerce InvoiceDate with `pd.to_datetime(errors='coerce')`.
3. They drop every row missing InvoiceDate, Amount, Vendor or the category column.
4. They keep the rows whose Vendor and category are selected in the sidebar.
5. They add a Period column: the first day of the month (Monthly) or of the quarter (Quarterly).
6. They sum Amount per group.

The scripts differ in two ways only:

- The category column is "Expense Category" in `app_airtable.py` and "Category" in `app.py`.
- `app_airtable.py` groups by (Period, category). `app.py` groups by (Period, category, Vendor).

The model is one pipeline with a `Variant` parameter that selects between the two scripts.

Layout:

- `wrappers.dfy`: `Option`, `Result` and `Outcome`.
- `sequences.dfy`: boolean-mask selection (`Keep`, `Select`) and the subsequence relation.
- `dates.dfy`: calendar dates, month and quarter starts, and the `View` (Monthly / Quarterly).
- `amounts.dfy`: the `[\$,]` deletion.
- `frames.dfy`: rows and cells, the cleaning steps, and the `Frame` class.
  The `Frame` methods rewrite the table in place, as lines 26–28 and 41/43 do.
- `filters.dfy`: the vendor/category filter and the default selections.
- `grouping.dfy`: a generic `groupby().sum()` over (key, amount) entries.
- `dashboard.dfy`: both scripts end to end (`Pipeline`, and `Run` on frame objects), and the
  lemmas comparing them.
- `examples.dfy`: one worked case.

Number parsing (`float()`) and date parsing (`pd.to_datetime`) are function parameters
(`NumberParser`, `DateParser`). An absent column (pandas' KeyError) and a non-numeric Amount
(ValueError) are modelled as `CleanError` values. In the scripts both stop the run.

Two consequences of the code are worth stating:

- **Non-numeric Amount.** `astype(float)` has no coerce option, so one Amount that is still
  not a number once `$` and `,` are gone aborts the whole conversion, and the script stops
  (`ConvertAmounts`, `CleanFailsOnNonNumericAmount`). Such a row is never silently dropped.
- **Empty values.** `dropna` drops only missing values, so a row whose Vendor or category is
  the empty string is kept (`IsComplete`).

## Model

| member | source | states |
|---|---|---|
| `Amounts.StripCurrency` | app_airtable.py:26 | The result has no `$` and no `,`. It is a subsequence of the input. Every other character occurs as often as in the input. Its length is the input length minus the number of marks. |
| `Amounts.StripCurrencyPlain` | app.py:19 | A text with no `$` or `,` is left unchanged. |
| `Amounts.StripCurrencyAppend` | app.py:19 | Stripping a concatenation is the concatenation of the stripped parts. |
| `Amounts.StripCurrencyIdempotent` | app_airtable.py:26 | Stripping twice gives the same result as stripping once. |
| `Frames.ConvertAmount` | app_airtable.py:26 | A missing Amount stays missing and a number stays the same number. A text converts to the number its stripped form parses to. It fails with `NotNumeric(stripped text)` exactly when the stripped text does not parse. A success never leaves text behind. |
| `Frames.ConvertAmounts` | app_airtable.py:26 | The column converts exactly when every cell converts. On success the row count is unchanged and each row differs from its input row only in its converted Amount. |
| `Frames.FirstFailure` | app_airtable.py:26 | Gives the position of the first Amount cell that does not convert. Every earlier cell converts. |
| `Frames.ConvertAmountsFailure` | app_airtable.py:26 | A failed conversion reports the error of the first cell that does not convert. |
| `Frames.CoerceDate` | app_airtable.py:27 | The result is never text. It is missing exactly when the cell was missing or its text does not parse. A parseable text becomes its date and a date is kept. |
| `Frames.CoerceDates` | app_airtable.py:27 | The row count is unchanged and only InvoiceDate changes, cell by cell through `CoerceDate`. The step never fails. |
| `Frames.AmountStep` | app_airtable.py:26 | Without an Amount column the statement fails with a KeyError naming Amount. With one, it succeeds exactly when every cell converts. On success the row count is kept and each row changes only in its Amount, which is no longer text. |
| `Frames.DateStep` | app_airtable.py:27 | Fails exactly when there is no InvoiceDate column, with a KeyError naming it. On success the row count is kept and each row changes only in its InvoiceDate, which is no longer text. |
| `Frames.MissingRequired` | app_airtable.py:28 | Lists exactly the required columns the frame lacks, in subset order, as a subsequence of the subset. |
| `Frames.DropStep` | app_airtable.py:28 | Fails exactly when a subset column is absent, naming all the absent ones. On success every kept row is complete and the kept rows are a subsequence of the input. Every complete row is kept as often as it occurs (multiset count), and no incomplete row is kept. |
| `Frames.Clean` | app_airtable.py:26-28 | After a successful clean, every row has a date, a numeric Amount, a Vendor and a category. |
| `Frames.CleanSelectsSurvivors` | app.py:19-21 | The cleaned table is the converted input selected by the survivor mask, in order. A row is dropped exactly when its date is missing or unparseable, or its Amount, Vendor or category is missing. |
| `Frames.CleanFailsOnNonNumericAmount` | app.py:19 | One Amount text that still does not parse after stripping makes cleaning fail with `NotNumeric`, whatever the other rows hold. |
| `Frames.CleanSucceeds` | app.py:20-21 | If the columns exist and every Amount converts, cleaning succeeds. Unparseable dates never abort cleaning. |
| `Frames.ConvertCleanAmounts` | app_airtable.py:26 | Converting a column that already holds only numbers gives it back unchanged. |
| `Frames.CleanIdempotent` | app_airtable.py:26-28 | Cleaning an already cleaned table gives the same table. |
| `Frames.WithPeriods` | app_airtable.py:40-43 | Only the Period column changes. A row has a Period exactly when it has a date, and that Period is `PeriodOf(view, date)`. |
| `Frames.Frame.constructor` | app_airtable.py:20 | The frame holds the given columns and rows. |
| `Frames.Frame.SanitiseAmount` | app_airtable.py:26 | On success the rows become the converted rows and no Amount text remains. On error the frame is untouched and the error is returned. |
| `Frames.Frame.CoerceInvoiceDates` | app_airtable.py:27 | On success the rows become the coerced rows and no date text remains. Without an InvoiceDate column the frame is untouched and a KeyError is returned. |
| `Frames.Frame.DropIncomplete` | app_airtable.py:28 | On success the rows become the complete rows. On error the frame is untouched. |
| `Frames.Frame.AssignPeriod` | app_airtable.py:40-43 | The rows get their Period column and "Period" joins the columns. |
| `Dates.MonthStart` | app_airtable.py:41 | Gives day 1 of the same month and year. It is on or before the date and is the latest month start that is. |
| `Dates.QuarterStart` | app_airtable.py:43 | Gives day 1 of month 1, 4, 7 or 10 in the same year, within the three months up to the date's month. It is on or before the date and is the latest quarter start that is. |
| `Dates.PeriodOf` | app.py:33-36 | The Period is day 1, in the same year, and on or before the date. Monthly keeps the month. Quarterly gives a quarter start. |
| `Dates.PeriodIdempotent` | app.py:33-36 | Truncating a Period again changes nothing, for both views. |
| `Dates.QuarterOfMonthStart` | app_airtable.py:40-43 | The quarter of a month start is the quarter of the date. |
| `Filters.Filter` | app_airtable.py:37 | The result is a subsequence of the rows (order kept). Every kept row is selected. Every selected row is kept as often as it occurs (multiset count), and no other row is kept. |
| `Filters.VendorsOf` | app_airtable.py:32 | Exactly the distinct present Vendor values. |
| `Filters.CategoriesOf` | app_airtable.py:33 | Exactly the distinct present category values. |
| `Filters.FilterEmptySelection` | app.py:30 | An empty vendor or category selection keeps no rows. |
| `Filters.FilterWiderSelection` | app_airtable.py:37 | Wider selections keep a supersequence: every previously kept row, in the same order. |
| `Filters.FilterDefaultSelection` | app_airtable.py:32-37 | With the default selections, every cleaned row is kept. |
| `Grouping.DistinctKeys` | app_airtable.py:46 | Each key that occurs appears once, and nothing else appears. |
| `Grouping.GroupSum` | app_airtable.py:46 | No key appears twice. There is one bucket for each key that occurs and for no other. Each bucket holds the sum of exactly the entries with its key. |
| `Grouping.GroupSumConserves` | app.py:39 | The bucket amounts add up to the total of the entries. |
| `Grouping.GroupSumRegroups` | app.py:39 | Summing the buckets under a coarser key gives the sums of grouping directly by that key. |
| `Dashboard.KeyOf` | app_airtable.py:46 | A row has a group exactly when its Period and category are present. For app.py, its Vendor must be present too, because `groupby` drops rows with a missing key. The group carries the row's Period and category, and its Vendor only for app.py. |
| `Dashboard.Entries` | app_airtable.py:46 | There is at most one entry per row, and exactly one per row when every row has a group. `Dashboard.EntriesSumFor` states what the entries of each group add up to. |
| `Dashboard.Grouped` | app_airtable.py:46 | No group appears twice. There is a group for every row's group and for no group that no row has. Each group holds the Amount total of exactly its rows. |
| `Dashboard.Selection` | app_airtable.py:37-43 | The filtered rows, in order, with only Period changed. Every row is selected. A row has a Period exactly when it has a date, and that Period is its month or quarter start. |
| `Dashboard.Pipeline` | app_airtable.py:25-46 | The run fails exactly when cleaning fails, with the same error. Otherwise the chart data has no group twice, and it adds up to the Amount total of the filtered rows. |
| `Dashboard.EntriesSumFor` | app_airtable.py:46 | The entries filed under a group sum to the Amount total of exactly the rows in that group. |
| `Dashboard.EntriesKeys` | app_airtable.py:46 | Every row that has a group contributes that group. |
| `Dashboard.EntriesTotal` | app.py:39 | If every row has a group, the entries carry the full Amount total. |
| `Dashboard.EntriesCoarsen` | app.py:39 | If every row has a Vendor, the (Period, category) entries are the (Period, category, Vendor) entries with the Vendor dropped. |
| `Dashboard.FilterKeepsClean` | app_airtable.py:37 | Filtering clean rows leaves clean rows. |
| `Dashboard.CleanSelectionNumeric` | app_airtable.py:37-43 | Each filtered row with its Period attached is clean and has a Period. |
| `Dashboard.TotalAmountIgnoresPeriods` | app_airtable.py:41 | Adding the Period column does not change the Amount total. |
| `Dashboard.GroupedBuckets` | app_airtable.py:46 | The grouped result has unique keys and a bucket for every row's group. Each bucket is the total of exactly its rows. The buckets add up to the rows' total. |
| `Dashboard.GroupedVariantsAgree` | app.py:39 | On the same rows, each (Period, category) bucket equals the sum of the (Period, category, Vendor) buckets with that Period and category. Every three-key bucket lies inside a two-key bucket. |
| `Dashboard.PipelineGroupsSelection` | app_airtable.py:26-46 | A run that passes cleaning groups the filtered, period-stamped rows, and those rows are ready to group. |
| `Dashboard.PipelineConserves` | app_airtable.py:37-46 | The chart data of a run adds up to the total Amount of the filtered rows. |
| `Dashboard.PipelineDefaultSelection` | app_airtable.py:32-46 | With the default selections, the chart data adds up to the total Amount of the cleaned table. |
| `Dashboard.CleanSameRows` | app.py:21 | The column names decide only whether cleaning fails, never which rows it keeps. |
| `Dashboard.VariantsAgree` | app.py:39 | Take the same records, selections and view. Each `app_airtable.py` (Period, Expense Category) sum equals the sum of the `app.py` (Period, Category, Vendor) sums that share its Period and category. |
| `Dashboard.Run` | app_airtable.py:25-46 | The script, run statement by statement on frame objects, returns what `Pipeline` specifies, including which error stops it. |
| `Examples.MonthlyByCategory` | app_airtable.py:26-46 | A whole run on four loaded records: "$100" on 2024-01-15 (A, X), "$50" on 2024-02-10 (B, Y), "7" dated "soon" (A, X) and "9" on 2024-01-20 (C, X). Vendors A and B and categories X and Y are selected, with the Monthly view. The undated record is dropped and vendor C is filtered out. The chart data is (2024-01-01, X, 100) and (2024-02-01, Y, 50). |

## Left out

- Streamlit UI is not modelled. That covers the page setup, the sidebar widgets, `st.stop`,
  the warning, the expanders, `st.dataframe` and the descending sort by InvoiceDate for display
  (app.py:53-58, app_airtable.py:60-61). The model takes the vendor and category selections and
  the view as parameters.
- The multiselects only offer the distinct values; the model accepts any selection sets.
- Uploading and reading the CSV (app.py:10-16) is I/O and is not modelled.
- The Airtable fetch, the secret token, the hard-coded base and table, and `@st.cache_data`
  (app_airtable.py:10-23) are foreign API calls and I/O. The model starts from the loaded table
  as a set of column names and a sequence of rows.
- Plotly chart construction (app_airtable.py:49-57, app.py:42-50) is rendering.
- The date parser is one function applied to each cell on its own. Without `format`, pandas 2
  `to_datetime` infers a single format from the column's first non-missing value. Which texts
  parse therefore depends on the other rows. `DateParser` stands for the parser of the format
  chosen for the column, and the inference itself is not modelled.
- The grammar of `float()` and the formats `pd.to_datetime` accepts are parameters, not
  reimplemented.
- Texts that `float()` reads as NaN or infinity ("nan", "inf") are not modelled. In pandas a
  "nan" text would become missing and its row dropped. The number parser here yields only finite
  reals or a failure.
- Timestamps have no time of day. `to_period(...).to_timestamp()` discards it anyway, but the
  model's InvoiceDate does not carry it either.
- Amounts are exact `real` values, not IEEE doubles, so sums carry no rounding.
- `Grouping.GroupSum` returns buckets in order of first appearance. `groupby` returns them
  sorted by key. Only the set of buckets and their sums are modelled, and the chart does not
  depend on order.
- Columns other than InvoiceDate, Amount, Vendor, the category and Period (such as Description,
  which app.py only displays) are carried along by pandas but are not modelled. Vendor and
  category values are modelled as text.
- `Frames.Frame.AssignPeriod` requires a date column without text, because the `.dt` accessor
  fails otherwise. Line 27 always makes the column hold dates.
- `Dashboard.Entries` requires a numeric Amount column, because line 26 always makes it one.
- Neither script has a wide month-by-month pivot or a trailing-12-month total, so the model
  has none either.
