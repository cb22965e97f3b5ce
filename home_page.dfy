/** The catalogue page (frontend/src/pages/HomePage.tsx): which of its views is rendered for the hook's state. */
module HomePage {
  import opened Base
  import opened Models
  import opened Paging
  import opened ProductsWithFilters
  import Text
  import PaginationControls

  /** The props handed to the pagination bar. */
  datatype PagerProps = PagerProps(currentPage: int, totalPages: int, itemsPerPage: int, totalItems: int)

  /** Under the filters: the no-match message, or the grid (with a small loader while a refetch runs). */
  datatype Listing = NoMatches | Grid(products: seq<Product>, smallLoader: bool)

  datatype View =
    | FullLoader
    | ErrorAlert(message: string)
    | Catalog(listing: Listing, pager: Option<PagerProps>)

  /** The page size the home page asks the hook for. */
  const HomeLimit := 12

  /**
   * The home page's page size is not one of the sizes the pagination selector offers, so until a size is
   * chosen the selector shows no selection.
   */
  lemma HomeLimitNotOffered()
    ensures Text.Itoa(HomeLimit) !in PaginationControls.LimitOptions
  {
    assert Text.Itoa(HomeLimit) == "12";
  }

  /**
   * Loading with nothing to show yet gives only the loader, even over an error; then a non-empty error
   * gives only the alert; otherwise the catalogue, whose pagination bar, present only beside a non-empty
   * grid and only for more than one page, is handed the hook's numbers unchanged.
   */
  function Render(loading: bool, error: Option<string>, products: seq<Product>, currentPage: int, totalPages: int,
                  limit: int, total: int): (view: View)
    ensures view.FullLoader? <==> loading && products == []
    ensures view.ErrorAlert? <==> !(loading && products == []) && Truthy(error)
    ensures view.ErrorAlert? ==> view.message == error.value
    ensures view.Catalog? ==> (view.listing.NoMatches? <==> products == [])
    ensures view.Catalog? && view.listing.Grid? ==> view.listing.products == products && view.listing.smallLoader == loading
    ensures view.Catalog? ==> (view.pager.Some? <==> products != [] && totalPages > 1)
    ensures view.Catalog? && view.pager.Some? ==> view.pager.value == PagerProps(currentPage, totalPages, limit, total)
  {
    if loading && products == [] then FullLoader
    else if Truthy(error) then ErrorAlert(error.value)
    else if products == [] then Catalog(NoMatches, None)
    else Catalog(Grid(products, loading), if totalPages > 1 then Some(PagerProps(currentPage, totalPages, limit, total)) else None)
  }

  /**
   * The page as rendered from the hook's current state: the pager appears beside a non-empty grid exactly
   * when the hook's total does not fit on one page of its limit.
   */
  function RenderHook(hook: ProductsWithFilters): (view: View)
    reads hook
    requires hook.limit > 0
    ensures view.FullLoader? <==> hook.loading && hook.products == []
    ensures view.ErrorAlert? <==> !(hook.loading && hook.products == []) && Truthy(hook.error)
    ensures view.ErrorAlert? ==> view.message == hook.error.value
    ensures view.Catalog? ==> (view.listing.NoMatches? <==> hook.products == [])
    ensures view.Catalog? && view.listing.Grid? ==>
      view.listing.products == hook.products && view.listing.smallLoader == hook.loading
    ensures view.Catalog? ==> (view.pager.Some? <==> hook.products != [] && hook.total > hook.limit)
    ensures view.Catalog? && view.pager.Some? ==>
      view.pager.value == PagerProps(hook.currentPage, hook.TotalPages(), hook.limit, hook.total)
  {
    var pages := hook.TotalPages();
    if hook.total >= 0 then
      PaginationControls.PagerWhenOverflowing(hook.total, hook.limit);
      Render(hook.loading, hook.error, hook.products, hook.currentPage, pages, hook.limit, hook.total)
    else
      Render(hook.loading, hook.error, hook.products, hook.currentPage, pages, hook.limit, hook.total)
  }

  /** While a refetch runs over a shown page, the grid stays up and the error alert cannot appear. */
  lemma RefetchKeepsGrid(error: Option<string>, products: seq<Product>, currentPage: int, totalPages: int, limit: int, total: int)
    requires products != [] && !Truthy(error)
    ensures Render(true, error, products, currentPage, totalPages, limit, total).Catalog?
    ensures Render(true, error, products, currentPage, totalPages, limit, total).listing == Grid(products, true)
  {
  }

  /**
   * The page mounts the hook with a page size of 12; its first render is the full-page loader, and a
   * successful first fetch with products then shows them on page 1.
   */
  method Mount(reply: FetchReply) returns (hook: ProductsWithFilters, first: View, second: View)
    requires reply.Fetched? && reply.products.Some? && reply.products.value != []
    ensures first == FullLoader
    ensures second.Catalog? && second.listing == Grid(reply.products.value, false)
    ensures second.pager.Some? ==> second.pager.value.currentPage == 1 && second.pager.value.itemsPerPage == HomeLimit
  {
    hook := new ProductsWithFilters(Some(HomeLimit));
    first := RenderHook(hook);
    var _ := hook.FetchProducts(hook.currentPage, reply);
    second := RenderHook(hook);
  }
}
