/** The sidebar filter (app_airtable.py:37, app.py:30): rows whose Vendor and category are both
    selected, with the multiselects defaulting to every distinct value (lines 32-33). */
module Filters {
  import opened Wrappers
  import opened Sequences
  import opened Frames

  /** A row passes when its Vendor and its category are both selected; a missing value is in
      no selection. */
  predicate IsSelected(r: Row, vendors: set<string>, categories: set<string>) {
    r.vendor.Some? && r.vendor.value in vendors && r.category.Some? && r.category.value in categories
  }

  /** The boolean mask of the filter. */
  function Matches(vendors: set<string>, categories: set<string>): Row -> bool {
    (r: Row) => IsSelected(r, vendors, categories)
  }

  /** The rows whose Vendor and category are both selected, in their original order. */
  function Filter(rows: seq<Row>, vendors: set<string>, categories: set<string>): (out: seq<Row>)
    ensures IsSubsequence(out, rows)
    ensures forall i :: 0 <= i < |out| ==> out[i] in rows && IsSelected(out[i], vendors, categories)
    ensures forall i :: 0 <= i < |rows| && IsSelected(rows[i], vendors, categories) ==> rows[i] in out
    ensures forall x :: multiset(out)[x] == if IsSelected(x, vendors, categories) then multiset(rows)[x] else 0
  {
    KeepIsSubsequence(rows, Matches(vendors, categories));
    KeepCounts(rows, Matches(vendors, categories));
    Keep(rows, Matches(vendors, categories))
  }

  /** The distinct vendors of the table: the options and the default of the vendor multiselect. */
  function VendorsOf(rows: seq<Row>): (vendors: set<string>)
    ensures forall i :: 0 <= i < |rows| && rows[i].vendor.Some? ==> rows[i].vendor.value in vendors
    ensures forall v :: v in vendors ==> exists i :: 0 <= i < |rows| && rows[i].vendor == Some(v)
  {
    set i | 0 <= i < |rows| && rows[i].vendor.Some? :: rows[i].vendor.value
  }

  /** The distinct categories of the table: the options and the default of the category multiselect. */
  function CategoriesOf(rows: seq<Row>): (categories: set<string>)
    ensures forall i :: 0 <= i < |rows| && rows[i].category.Some? ==> rows[i].category.value in categories
    ensures forall c :: c in categories ==> exists i :: 0 <= i < |rows| && rows[i].category == Some(c)
  {
    set i | 0 <= i < |rows| && rows[i].category.Some? :: rows[i].category.value
  }

  /** Nothing selected in either multiselect leaves no rows. */
  lemma FilterEmptySelection(rows: seq<Row>, vendors: set<string>, categories: set<string>)
    requires vendors == {} || categories == {}
    ensures Filter(rows, vendors, categories) == []
  {
    KeepNone(rows, Matches(vendors, categories));
  }

  /** Selecting more vendors and categories keeps every row kept before, and in the same order. */
  lemma FilterWiderSelection(rows: seq<Row>, vendors: set<string>, categories: set<string>,
                             moreVendors: set<string>, moreCategories: set<string>)
    requires vendors <= moreVendors && categories <= moreCategories
    ensures IsSubsequence(Filter(rows, vendors, categories), Filter(rows, moreVendors, moreCategories))
    ensures |Filter(rows, vendors, categories)| <= |Filter(rows, moreVendors, moreCategories)|
  {
    KeepNested(rows, Matches(moreVendors, moreCategories), Matches(vendors, categories));
    KeepNarrowerIsSubsequence(rows, Matches(moreVendors, moreCategories), Matches(vendors, categories));
  }

  /** With the default selections (every distinct value) the filter keeps the cleaned table whole. */
  lemma FilterDefaultSelection(rows: seq<Row>)
    requires forall i :: 0 <= i < |rows| ==> rows[i].vendor.Some? && rows[i].category.Some?
    ensures Filter(rows, VendorsOf(rows), CategoriesOf(rows)) == rows
  {
    var p := Matches(VendorsOf(rows), CategoriesOf(rows));
    assert forall x :: x in rows ==> p(x);
    KeepAll(rows, p);
  }
}
