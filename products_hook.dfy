/**
 * The plain product-list hook (frontend/src/hooks/useProducts.ts): page and page-size state, and what a
 * fetch does to it. The request is the query getProducts builds for that page, with no filters.
 */
module ProductsHook {
  import opened Base
  import opened Models
  import opened Paging
  import opened FilterTypes
  import ApiClient
  import Text

  /** The page size when the caller gives none. */
  const DefaultLimit := 30

  class Products {
    var products: seq<Product>
    var loading: bool
    var error: Option<string>
    var currentPage: int
    var limit: int
    var total: int

    /** Page 1, nothing loaded yet, loading; the page size defaults to 30. */
    constructor (initialLimit: Option<int>)
      ensures products == [] && loading && error == None
      ensures currentPage == 1 && total == 0
      ensures limit == initialLimit.GetOr(DefaultLimit)
    {
      products := [];
      loading := true;
      error := None;
      currentPage := 1;
      limit := initialLimit.GetOr(DefaultLimit);
      total := 0;
    }

    /** Only the page changes. */
    method HandlePageChange(page: int)
      modifies this
      ensures currentPage == page
      ensures products == old(products) && loading == old(loading) && error == old(error)
      ensures limit == old(limit) && total == old(total)
    {
      currentPage := page;
    }

    /** A new page size starts again from page 1. */
    method HandleLimitChange(newLimit: int)
      modifies this
      ensures limit == newLimit && currentPage == 1
      ensures products == old(products) && loading == old(loading) && error == old(error)
      ensures total == old(total)
    {
      limit := newLimit;
      currentPage := 1;
    }

    /**
     * Fetching `page` with `pageLimit` items a page: the query asks for that page's offset; a reply
     * replaces the products and the total ([] and 0 when missing) and clears the error, while a failure
     * only sets the error and keeps what was shown. Loading is off at the end either way.
     */
    method FetchProducts(page: int, pageLimit: int, reply: FetchReply) returns (query: seq<ApiClient.Param>)
      modifies this
      ensures query == ApiClient.ProductQuery(Some(pageLimit), Some(Skip(page, pageLimit)), NoFilters)
      ensures !loading
      ensures reply.Fetched? ==>
        products == reply.products.GetOr([]) && total == reply.total.GetOr(0) && error == None
      ensures reply.FetchError? ==>
        products == old(products) && total == old(total) && error == Some(reply.message.GetOr(FetchFailedMessage))
      ensures currentPage == old(currentPage) && limit == old(limit)
    {
      loading := true;
      error := None;
      var skip := Skip(page, pageLimit);
      query := ApiClient.GetProductsQuery(Some(pageLimit), Some(skip), NoFilters);
      match reply {
        case Fetched(replyProducts, replyTotal) =>
          products := replyProducts.GetOr([]);
          total := replyTotal.GetOr(0);
        case FetchError(message) =>
          error := Some(message.GetOr(FetchFailedMessage));
      }
      loading := false;
    }

    /** Math.ceil(total / limit); the page size is taken to be positive. */
    function TotalPages(): (pages: int)
      reads this
      requires limit > 0
      ensures (pages - 1) * limit < total <= pages * limit
    {
      CeilDiv(total, limit)
    }
  }

  /** The plain hook's query carries the page size and the offset and nothing else. */
  lemma PlainQuery(pageLimit: int, skip: int)
    ensures ApiClient.ProductQuery(Some(pageLimit), Some(skip), NoFilters) ==
      [(ApiClient.LimitParam, ApiClient.Str(Text.Itoa(pageLimit))), (ApiClient.SkipParam, ApiClient.Str(Text.Itoa(skip)))]
  {
  }

  /** A failed refetch leaves the page as it was, apart from the error and the loading flag. */
  method FailedRefetch(hook: Products, message: Option<string>) returns (query: seq<ApiClient.Param>)
    modifies hook
    ensures hook.products == old(hook.products) && hook.total == old(hook.total)
    ensures hook.currentPage == old(hook.currentPage) && hook.limit == old(hook.limit)
    ensures hook.error == Some(message.GetOr(FetchFailedMessage)) && !hook.loading
    ensures query == ApiClient.ProductQuery(Some(old(hook.limit)), Some(Skip(old(hook.currentPage), old(hook.limit))), NoFilters)
  {
    query := hook.FetchProducts(hook.currentPage, hook.limit, FetchError(message));
  }
}
