/**
 * The pagination bar (frontend/src/components/PaginationControls.tsx): the "Showing a to b of n" range,
 * the page-size selector and when the page selector appears.
 */
module PaginationControls {
  import opened Base
  import opened Text
  import opened Paging

  /** The 1-based number of the first item on the page. */
  function StartItem(currentPage: int, itemsPerPage: int): (start: int)
    ensures currentPage >= 1 && itemsPerPage >= 0 ==> start >= 1
    ensures start == Skip(currentPage, itemsPerPage) + 1
  {
    (currentPage - 1) * itemsPerPage + 1
  }

  /** The number of the last item on the page: the page's end, cut at the total. */
  function EndItem(currentPage: int, itemsPerPage: int, totalItems: int): (end: int)
    ensures end <= totalItems && end <= currentPage * itemsPerPage
    ensures end == totalItems || end == currentPage * itemsPerPage
  {
    if currentPage * itemsPerPage < totalItems then currentPage * itemsPerPage else totalItems
  }

  /**
   * On any existing page the range is non-empty, within 1..total and at most a page long; every page but
   * the last is exactly a page long, and the last ends at the total.
   */
  lemma ItemRange(currentPage: int, itemsPerPage: int, totalItems: int)
    requires totalItems > 0 && itemsPerPage > 0
    requires 1 <= currentPage <= CeilDiv(totalItems, itemsPerPage)
    ensures var start, end := StartItem(currentPage, itemsPerPage), EndItem(currentPage, itemsPerPage, totalItems);
      1 <= start <= end <= totalItems && end - start + 1 <= itemsPerPage
    ensures currentPage < CeilDiv(totalItems, itemsPerPage) ==>
      EndItem(currentPage, itemsPerPage, totalItems) - StartItem(currentPage, itemsPerPage) + 1 == itemsPerPage
    ensures currentPage == CeilDiv(totalItems, itemsPerPage) ==> EndItem(currentPage, itemsPerPage, totalItems) == totalItems
  {
    var pages := CeilDiv(totalItems, itemsPerPage);
    MultiplyMonotone(currentPage - 1, pages - 1, itemsPerPage);
    if currentPage < pages {
      MultiplyMonotone(currentPage, pages - 1, itemsPerPage);
    }
  }

  lemma MultiplyMonotone(a: int, b: int, c: int)
    requires a <= b && c >= 0
    ensures a * c <= b * c
  {
  }

  /** The page sizes the selector offers, as the option values it carries. */
  const LimitOptions: seq<string> := ["10", "20", "30", "50"]

  /**
   * The selector's change handler: a cleared selection (null) makes no call; a chosen option calls
   * onLimitChange with its number, which renders back to the same option text.
   */
  function ChosenLimit(value: Option<string>): (limit: Option<int>)
    requires value.Some? ==> value.value in LimitOptions
    ensures limit.Some? <==> value.Some?
    ensures limit.Some? ==> limit.value in {10, 20, 30, 50} && Itoa(limit.value) == value.value
  {
    match value
    case None => None
    case Some(text) =>
      if text == "10" then Some(10)
      else if text == "20" then Some(20)
      else if text == "30" then Some(30)
      else Some(50)
  }

  /**
   * The selector shows the current page size as text (itemsPerPage.toString()); for each offered size that
   * text is one of the options and choosing it gives the same size back.
   */
  lemma SelectedOptionRoundTrip(itemsPerPage: int)
    requires itemsPerPage in {10, 20, 30, 50}
    ensures Itoa(itemsPerPage) in LimitOptions
    ensures ChosenLimit(Some(Itoa(itemsPerPage))) == Some(itemsPerPage)
  {
    if itemsPerPage == 10 {
      assert Itoa(10) == "10";
    } else if itemsPerPage == 20 {
      assert Itoa(20) == "20";
    } else if itemsPerPage == 30 {
      assert Itoa(30) == "30";
    } else {
      assert Itoa(50) == "50";
    }
  }

  /** The page selector appears only when there is more than one page. */
  function ShowsPager(totalPages: int): bool {
    totalPages > 1
  }

  /** With Math.ceil pages, the selector appears exactly when the items do not fit on one page. */
  lemma PagerWhenOverflowing(totalItems: int, itemsPerPage: int)
    requires totalItems >= 0 && itemsPerPage > 0
    ensures ShowsPager(CeilDiv(totalItems, itemsPerPage)) <==> totalItems > itemsPerPage
  {
    var pages := CeilDiv(totalItems, itemsPerPage);
    if pages <= 1 {
      MultiplyMonotone(pages, 1, itemsPerPage);
    } else {
      MultiplyMonotone(1, pages - 1, itemsPerPage);
    }
  }
}
