/**
 * The catalogue controller hook (frontend/src/hooks/useProductsWithFilters.ts): the API filters derived
 * from the panel's state, the page/limit/filter handlers, and the state a product fetch leaves behind.
 * Each handler and fetch is modelled by its effect once the awaited call has settled; the order in which
 * overlapping fetches settle is not modelled.
 */
module ProductsWithFilters {
  import opened Base
  import opened Text
  import opened Models
  import opened FilterTypes
  import opened Paging

  /**
   * The API filters for a panel state: the trimmed search when it is not blank, the category when set,
   * the sort always, and the price bounds that are numbers, where two bounds are kept only when the
   * minimum does not exceed the maximum.
   */
  function ApiFilters(f: FilterState): (r: ProductFilters)
    ensures r.search.Some? <==> !AllSpace(f.search)
    ensures r.search.Some? ==> r.search.value == TrimSpace(f.search) && r.search.value != ""
    ensures r.category.Some? <==> f.category != ""
    ensures r.category.Some? ==> r.category.value == f.category
    ensures r.sortBy == Some(f.sortBy) && r.sortOrder == Some(f.sortOrder)
    ensures r.priceMin.Some? ==> f.priceMin == Amount(r.priceMin.value)
    ensures r.priceMax.Some? ==> f.priceMax == Amount(r.priceMax.value)
    ensures r.priceMin.Some? && r.priceMax.Some? ==> r.priceMin.value <= r.priceMax.value
    ensures f.priceMin.Amount? && (f.priceMax.Unset? || f.priceMin.value <= f.priceMax.value) ==>
      r.priceMin == Some(f.priceMin.value)
    ensures f.priceMax.Amount? && (f.priceMin.Unset? || f.priceMin.value <= f.priceMax.value) ==>
      r.priceMax == Some(f.priceMax.value)
  {
    var search := TrimSpace(f.search);
    var low := if f.priceMin.Amount? then Some(f.priceMin.value) else None;
    var high := if f.priceMax.Amount? then Some(f.priceMax.value) else None;
    var bothGiven := low.Some? && high.Some?;
    ProductFilters(
      if search != "" then Some(search) else None,
      if f.category != "" then Some(f.category) else None,
      Some(f.sortBy),
      Some(f.sortOrder),
      if bothGiven then (if low.value <= high.value then low else None) else low,
      if bothGiven then (if low.value <= high.value then high else None) else high)
  }

  /** Two number bounds in the wrong order are both dropped, not swapped. */
  lemma InvertedRangeDropped(f: FilterState)
    requires f.priceMin.Amount? && f.priceMax.Amount? && f.priceMin.value > f.priceMax.value
    ensures ApiFilters(f).priceMin.None? && ApiFilters(f).priceMax.None?
  {
  }

  /** The default panel state asks only for the title-ascending sort. */
  lemma DefaultApiFilters()
    ensures ApiFilters(DefaultFilters) == NoFilters.(sortBy := Some(Title), sortOrder := Some(Asc))
  {
    assert AllSpace("");
  }

  /** The request a fetch sends: page size, offset and filters. */
  datatype ProductsRequest = ProductsRequest(limit: int, skip: int, filters: ProductFilters)

  datatype CategoriesReply = CategoriesLoaded(categories: Option<seq<string>>) | CategoriesFailed

  class ProductsWithFilters {
    var products: seq<Product>
    var categories: seq<string>
    var loading: bool
    var error: Option<string>
    var currentPage: int
    var limit: int
    var total: int
    var filters: FilterState

    /** Page 1, no products yet, loading, default filters; the page size defaults to 12. */
    constructor (initialLimit: Option<int>)
      ensures products == [] && categories == [] && loading && error == None
      ensures currentPage == 1 && total == 0 && filters == DefaultFilters
      ensures limit == initialLimit.GetOr(12)
    {
      products := [];
      categories := [];
      loading := true;
      error := None;
      currentPage := 1;
      limit := initialLimit.GetOr(12);
      total := 0;
      filters := DefaultFilters;
    }

    method HandlePageChange(page: int)
      modifies this
      ensures currentPage == page
      ensures products == old(products) && categories == old(categories) && loading == old(loading)
      ensures error == old(error) && limit == old(limit) && total == old(total) && filters == old(filters)
    {
      currentPage := page;
    }

    /** New filters always start again from page 1; the page size is kept. */
    method HandleFiltersChange(newFilters: FilterState)
      modifies this
      ensures filters == newFilters && currentPage == 1
      ensures products == old(products) && categories == old(categories) && loading == old(loading)
      ensures error == old(error) && limit == old(limit) && total == old(total)
    {
      filters := newFilters;
      currentPage := 1;
    }

    /** A new page size always starts again from page 1; the filters are kept. */
    method HandleLimitChange(newLimit: int)
      modifies this
      ensures limit == newLimit && currentPage == 1
      ensures products == old(products) && categories == old(categories) && loading == old(loading)
      ensures error == old(error) && total == old(total) && filters == old(filters)
    {
      limit := newLimit;
      currentPage := 1;
    }

    /**
     * Fetching a page: the request carries the page's offset and the derived filters; once the reply is
     * in, the products and the total are replaced together (by [] and 0 when missing or on failure), the
     * error is cleared or set, and loading is off.
     */
    method FetchProducts(page: int, reply: FetchReply) returns (request: ProductsRequest)
      modifies this
      ensures request.limit == limit && request.skip == Skip(page, limit)
      ensures request.filters == ApiFilters(filters)
      ensures !loading
      ensures reply.Fetched? ==>
        products == reply.products.GetOr([]) && total == reply.total.GetOr(0) && error == None
      ensures reply.FetchError? ==>
        products == [] && total == 0 && error == Some(reply.message.GetOr(FetchFailedMessage))
      ensures limit == old(limit) && filters == old(filters) && currentPage == old(currentPage)
      ensures categories == old(categories)
    {
      loading := true;
      error := None;
      var skip := Skip(page, limit);
      request := ProductsRequest(limit, skip, ApiFilters(filters));
      if reply.Fetched? {
        products := reply.products.GetOr([]);
        total := reply.total.GetOr(0);
      } else {
        error := Some(reply.message.GetOr(FetchFailedMessage));
        products := [];
        total := 0;
      }
      loading := false;
    }

    /** The category list, or [] when it is missing or the request fails. */
    method FetchCategories(reply: CategoriesReply)
      modifies this
      ensures categories == (if reply.CategoriesLoaded? then reply.categories.GetOr([]) else [])
      ensures products == old(products) && loading == old(loading) && error == old(error)
      ensures currentPage == old(currentPage) && limit == old(limit) && total == old(total)
      ensures filters == old(filters)
    {
      match reply
      case CategoriesLoaded(names) =>
        categories := names.GetOr([]);
      case CategoriesFailed =>
        categories := [];
    }

    /** Math.ceil(total / limit); the page size is taken to be positive. */
    function TotalPages(): (pages: int)
      reads this
      requires limit > 0
      ensures (pages - 1) * limit < total <= pages * limit
    {
      CeilDiv(total, limit)
    }
  }

  /** Changing the filters then fetching asks for the first page of the new filters. */
  method FiltersThenFetch(hook: ProductsWithFilters, newFilters: FilterState, reply: FetchReply)
    returns (request: ProductsRequest)
    modifies hook
    ensures request == ProductsRequest(old(hook.limit), 0, ApiFilters(newFilters))
  {
    hook.HandleFiltersChange(newFilters);
    request := hook.FetchProducts(hook.currentPage, reply);
  }
}
