/** Page arithmetic shared by the two product hooks and the pagination controls. */
module Paging {
  import opened Base
  import opened Models

  /** Math.ceil(total / limit) for a positive page size. */
  function CeilDiv(total: int, limit: int): (pages: int)
    requires limit > 0
    ensures (pages - 1) * limit < total <= pages * limit
  {
    -((-total) / limit)
  }

  /** The pages needed for `total` items: none for no items, and never a page left empty. */
  lemma PageCount(total: int, limit: int)
    requires total >= 0 && limit > 0
    ensures CeilDiv(total, limit) >= 0
    ensures CeilDiv(total, limit) == 0 <==> total == 0
    ensures total > 0 ==> (CeilDiv(total, limit) - 1) * limit < total
  {
    var pages := CeilDiv(total, limit);
    if pages < 0 {
      MultiplyNegative(pages, limit);
    }
  }

  lemma MultiplyNegative(a: int, b: int)
    requires a < 0 && b > 0
    ensures a * b < 0
  {
  }

  /** The offset of a 1-based page: (page - 1) * limit. */
  function Skip(page: int, limit: int): (skip: int)
    ensures page >= 1 && limit >= 0 ==> skip >= 0
    ensures page == 1 ==> skip == 0
    ensures skip + limit == page * limit
  {
    (page - 1) * limit
  }

  /** What a product fetch produced: a response whose fields may be missing, or a thrown error. */
  datatype FetchReply =
    | Fetched(products: Option<seq<Product>>, total: Option<int>)
    | FetchError(message: Option<string>)

  /** The message shown for a failed fetch: the Error's message, or the fallback when it is not an Error. */
  const FetchFailedMessage := "Failed to fetch products"
}
