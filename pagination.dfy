/**
 * The printable detail views cut the item list into pages of at most `maxRowsPerPage` rows
 * (`buildPages` of the invoice and the budget detail views).
 */
module Pagination {

  /** `maxRowsPerPage` of both detail views. */
  const MaxRowsPerPage := 25

  /** The pages laid end to end. */
  function Flatten<T>(pages: seq<seq<T>>): seq<T>
  {
    if pages == [] then [] else Flatten(pages[..|pages| - 1]) + pages[|pages| - 1]
  }

  /** Every page is full except the last, which holds between one and `maxRows` rows. */
  ghost predicate WellPaged<T>(pages: seq<seq<T>>, maxRows: int)
  {
    && (forall i :: 0 <= i < |pages| ==> 1 <= |pages[i]| <= maxRows)
    && (forall i :: 0 <= i < |pages| - 1 ==> |pages[i]| == maxRows)
  }

  /** `pages` is the least number of pages of `maxRows` rows that hold `n` rows: the ceiling of `n / maxRows`. */
  ghost predicate PageCountFits(pages: nat, n: nat, maxRows: int)
  {
    n <= pages * maxRows < n + maxRows
  }

  /** The loop shared by both views, one slice `items[start..<min(start + maxRows, n)]` per turn. */
  method Slices<T>(items: seq<T>, maxRows: int) returns (pages: seq<seq<T>>)
    requires maxRows > 0 || |items| == 0
    ensures Flatten(pages) == items
    ensures WellPaged(pages, maxRows)
    ensures |items| == 0 ==> pages == []
    ensures maxRows > 0 ==> PageCountFits(|pages|, |items|, maxRows)
  {
    pages := [];
    var start := 0;
    while start < |items|
      invariant 0 <= start
      invariant start < |items| ==> Flatten(pages) == items[..start]
      invariant start >= |items| ==> Flatten(pages) == items
      invariant start > 0 ==> maxRows > 0
      invariant start == Capacity(|pages|, maxRows)
      invariant start >= |items| && |items| > 0 ==> start < |items| + maxRows
      invariant WellPaged(pages, maxRows)
      invariant start < |items| ==> forall i :: 0 <= i < |pages| ==> |pages[i]| == maxRows
      decreases |items| - start
    {
      var end := if start + maxRows < |items| then start + maxRows else |items|;
      var page := items[start..end];
      FlattenSnoc(pages, page);
      AppendPage(pages, page, maxRows);
      assert items[..end] == items[..start] + page;
      pages := pages + [page];
      start := start + maxRows;
    }
    CapacityIsProduct(|pages|, maxRows);
  }

  /** The rows that `count` full pages hold, added up page by page. */
  function Capacity(count: nat, maxRows: int): int
  {
    if count == 0 then 0 else Capacity(count - 1, maxRows) + maxRows
  }

  lemma {:induction false} CapacityIsProduct(count: nat, maxRows: int)
    ensures Capacity(count, maxRows) == count * maxRows
  {
    if count > 0 {
      CapacityIsProduct(count - 1, maxRows);
      assert count * maxRows == (count - 1) * maxRows + maxRows;
    }
  }

  lemma FlattenSnoc<T>(pages: seq<seq<T>>, page: seq<T>)
    ensures Flatten(pages + [page]) == Flatten(pages) + page
  {
    assert (pages + [page])[..|pages|] == pages;
  }

  /** A page of one to `maxRows` rows after full pages keeps the pages well formed. */
  lemma AppendPage<T>(pages: seq<seq<T>>, page: seq<T>, maxRows: int)
    requires forall i :: 0 <= i < |pages| ==> |pages[i]| == maxRows
    requires 1 <= |page| <= maxRows
    ensures WellPaged(pages + [page], maxRows)
    ensures |page| == maxRows ==> forall i :: 0 <= i < |pages + [page]| ==> |(pages + [page])[i]| == maxRows
  {
  }

  /** `PagedInvoiceDetailView.buildPages`: no items, no pages. */
  method BuildInvoicePages<T>(items: seq<T>, maxRows: int) returns (pages: seq<seq<T>>)
    requires maxRows > 0 || |items| == 0
    ensures Flatten(pages) == items
    ensures WellPaged(pages, maxRows)
    ensures |items| == 0 ==> pages == []
    ensures maxRows > 0 ==> PageCountFits(|pages|, |items|, maxRows)
  {
    pages := Slices(items, maxRows);
  }

  /** `PagedBudgetDetailView.buildPages`: like the invoice one, but no items still give one empty page. */
  method BuildBudgetPages<T>(items: seq<T>, maxRows: int) returns (pages: seq<seq<T>>)
    requires maxRows > 0 || |items| == 0
    ensures Flatten(pages) == items
    ensures |items| == 0 ==> pages == [[]]
    ensures |items| > 0 ==> WellPaged(pages, maxRows) && PageCountFits(|pages|, |items|, maxRows)
  {
    pages := Slices(items, maxRows);
    if |items| == 0 {
      pages := [[]];
      assert Flatten(pages) == Flatten(pages[..0]) + [];
    }
  }

  /** With 25 rows per page, 60 items make three pages of 25, 25 and 10. */
  lemma SixtyItems<T>(pages: seq<seq<T>>, items: seq<T>)
    requires |items| == 60 && Flatten(pages) == items && WellPaged(pages, MaxRowsPerPage)
    requires PageCountFits(|pages|, |items|, MaxRowsPerPage)
    ensures |pages| == 3 && |pages[2]| == 10
  {
    FlattenLength(pages);
    LengthsOfThree(pages);
  }

  lemma {:induction false} FlattenLength<T>(pages: seq<seq<T>>)
    ensures |Flatten(pages)| == TotalLength(pages)
  {
    if pages != [] { FlattenLength(pages[..|pages| - 1]); }
  }

  function TotalLength<T>(pages: seq<seq<T>>): nat
  {
    if pages == [] then 0 else TotalLength(pages[..|pages| - 1]) + |pages[|pages| - 1]|
  }

  lemma LengthsOfThree<T>(pages: seq<seq<T>>)
    requires |pages| == 3
    ensures TotalLength(pages) == |pages[0]| + |pages[1]| + |pages[2]|
  {
    assert pages[..2][..1] == pages[..1];
    assert pages[..1][..0] == [];
    assert TotalLength(pages[..1]) == |pages[0]|;
    assert TotalLength(pages[..2]) == |pages[0]| + |pages[1]|;
  }
}
