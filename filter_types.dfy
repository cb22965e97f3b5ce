/**
 * The catalogue filter records of the frontend: the panel's FilterState
 * (frontend/src/components/ProductFilters.tsx) and the optional-field ProductFilters sent to the API
 * (frontend/src/types/index.ts).
 */
module FilterTypes {
  import opened Base

  datatype SortKey = Title | Price | Rating
  datatype SortOrder = Asc | Desc

  function SortKeyName(k: SortKey): (s: string)
    ensures s in {"title", "price", "rating"}
    ensures s == "title" <==> k == Title
    ensures s == "price" <==> k == Price
    ensures s == "rating" <==> k == Rating
  {
    match k
    case Title => "title"
    case Price => "price"
    case Rating => "rating"
  }

  function SortOrderName(o: SortOrder): (s: string)
    ensures s in {"asc", "desc"}
    ensures s == "asc" <==> o == Asc
    ensures s == "desc" <==> o == Desc
  {
    match o
    case Asc => "asc"
    case Desc => "desc"
  }

  /** A price field of the panel: the empty string '' or a number. */
  datatype PriceField = Unset | Amount(value: real)

  datatype FilterState = FilterState(
    search: string,
    category: string,
    sortBy: SortKey,
    sortOrder: SortOrder,
    priceMin: PriceField,
    priceMax: PriceField)

  /** No search, every category, by title ascending, no price bounds. */
  const DefaultFilters := FilterState("", "", Title, Asc, Unset, Unset)

  /** The API filter record; an absent field is None. */
  datatype ProductFilters = ProductFilters(
    search: Option<string>,
    category: Option<string>,
    sortBy: Option<SortKey>,
    sortOrder: Option<SortOrder>,
    priceMin: Option<real>,
    priceMax: Option<real>)

  const NoFilters := ProductFilters(None, None, None, None, None, None)
}
