/**
 * The frontend's API client (frontend/src/services/api.ts): the product query string, the two axios
 * interceptors and logout's clean-up. Browser storage is a key/value map; the request itself, the
 * percent-encoding of the query and the page navigation are outside the model (the navigation is
 * recorded as the location it sets).
 */
module ApiClient {
  import opened Base
  import opened Text
  import opened FilterTypes

  /** A query value: text, or a number rendered by Number.prototype.toString. */
  datatype ParamValue = Str(text: string) | Num(number: real)

  /** The keys of the product query, in the order getProducts appends them. */
  datatype QueryKey = LimitParam | SkipParam | SearchParam | CategoryParam | SortByParam | SortOrderParam | PriceMinParam | PriceMaxParam

  function KeyName(k: QueryKey): string {
    match k
    case LimitParam => "limit"
    case SkipParam => "skip"
    case SearchParam => "search"
    case CategoryParam => "category"
    case SortByParam => "sortBy"
    case SortOrderParam => "sortOrder"
    case PriceMinParam => "priceMin"
    case PriceMaxParam => "priceMax"
  }

  function KeyRank(k: QueryKey): nat {
    match k
    case LimitParam => 0
    case SkipParam => 1
    case SearchParam => 2
    case CategoryParam => 3
    case SortByParam => 4
    case SortOrderParam => 5
    case PriceMinParam => 6
    case PriceMaxParam => 7
  }

  /** One entry of URLSearchParams: a key and its value. */
  type Param = (QueryKey, ParamValue)

  /** URLSearchParams.get: the value of the first entry with that key, or null. */
  function Get(params: seq<Param>, key: QueryKey): Option<ParamValue> {
    if params == [] then None
    else if params[0].0 == key then Some(params[0].1)
    else Get(params[1..], key)
  }

  /** get finds the first entry with the key, and returns null only when no entry has it. */
  lemma {:induction false} GetFindsFirst(params: seq<Param>, key: QueryKey)
    ensures Get(params, key).Some? ==>
      exists i :: 0 <= i < |params| && params[i] == (key, Get(params, key).value) && forall j :: 0 <= j < i ==> params[j].0 != key
    ensures Get(params, key).None? ==> forall i :: 0 <= i < |params| ==> params[i].0 != key
  {
    if params != [] {
      if params[0].0 == key {
        assert params[0] == (key, Get(params, key).value);
      } else {
        GetFindsFirst(params[1..], key);
        if Get(params, key).Some? {
          var i :| 0 <= i < |params[1..]| && params[1..][i] == (key, Get(params, key).value) &&
            forall j :: 0 <= j < i ==> params[1..][j].0 != key;
          assert params[i + 1] == (key, Get(params, key).value);
          forall j | 0 <= j < i + 1 ensures params[j].0 != key {
            if j > 0 { assert params[j] == params[1..][j - 1]; }
          }
        } else {
          forall i | 0 <= i < |params| ensures params[i].0 != key {
            if i > 0 { assert params[i] == params[1..][i - 1]; }
          }
        }
      }
    }
  }

  /** Looking a key up in two lists appended one after the other finds it in the first when it is there. */
  lemma {:induction false} GetConcat(a: seq<Param>, b: seq<Param>, key: QueryKey)
    ensures Get(a + b, key) == if Get(a, key).Some? then Get(a, key) else Get(b, key)
  {
    if a != [] {
      assert (a + b)[1..] == a[1..] + b;
      GetConcat(a[1..], b, key);
    } else {
      assert a + b == b;
    }
  }

  /** One `if (...) params.append(key, value)` of getProducts, as the entries it adds. */
  function When(present: bool, key: QueryKey, value: ParamValue): seq<Param> {
    if present then [(key, value)] else []
  }

  /**
   * The entries getProducts sends: limit and skip (12 and 0 when not given) first, then search,
   * category, sortBy and sortOrder when truthy, then the price bounds whenever present, zero included.
   */
  function ProductQuery(limit: Option<int>, skip: Option<int>, filters: ProductFilters): seq<Param> {
    [(LimitParam, Str(Itoa(limit.GetOr(12)))), (SkipParam, Str(Itoa(skip.GetOr(0))))]
    + When(Truthy(filters.search), SearchParam, Str(filters.search.GetOr("")))
    + When(Truthy(filters.category), CategoryParam, Str(filters.category.GetOr("")))
    + When(filters.sortBy.Some?, SortByParam, Str(SortKeyName(filters.sortBy.GetOr(Title))))
    + When(filters.sortOrder.Some?, SortOrderParam, Str(SortOrderName(filters.sortOrder.GetOr(Asc))))
    + When(filters.priceMin.Some?, PriceMinParam, Num(filters.priceMin.GetOr(0.0)))
    + When(filters.priceMax.Some?, PriceMaxParam, Num(filters.priceMax.GetOr(0.0)))
  }

  /** Each key ranks above the one before it. */
  predicate Increasing(params: seq<Param>) {
    |params| <= 1 || (Increasing(params[..|params| - 1]) && KeyRank(params[|params| - 2].0) < KeyRank(params[|params| - 1].0))
  }

  /** In an increasing list every key ranks above all earlier ones, so no key appears twice. */
  lemma {:induction false} IncreasingStrictly(params: seq<Param>)
    requires Increasing(params)
    ensures forall i, j :: 0 <= i < j < |params| ==> KeyRank(params[i].0) < KeyRank(params[j].0)
  {
    if |params| > 1 {
      var front := params[..|params| - 1];
      IncreasingStrictly(front);
      assert forall i :: 0 <= i < |front| ==> front[i] == params[i];
    }
  }

  /** The rank of the last key, or -1 when there is none. */
  function LastRank(params: seq<Param>): int {
    if params == [] then -1 else KeyRank(params[|params| - 1].0)
  }

  /** An optional entry whose key ranks above every key so far keeps the list increasing. */
  lemma ExtendWhen(a: seq<Param>, present: bool, key: QueryKey, value: ParamValue) returns (b: seq<Param>)
    requires Increasing(a) && LastRank(a) < KeyRank(key)
    ensures b == a + When(present, key, value)
    ensures Increasing(b) && LastRank(b) <= KeyRank(key)
  {
    b := a + When(present, key, value);
    if !present {
      assert b == a;
    } else if a != [] {
      assert b[..|b| - 1] == a;
      assert b[|b| - 2] == a[|a| - 1];
    }
  }

  /** Each optional entry of the query ranks above all the entries before it. */
  lemma ProductQueryIncreasing(limit: Option<int>, skip: Option<int>, filters: ProductFilters)
    ensures Increasing(ProductQuery(limit, skip, filters))
  {
    var p0: seq<Param> := [(LimitParam, Str(Itoa(limit.GetOr(12)))), (SkipParam, Str(Itoa(skip.GetOr(0))))];
    assert Increasing(p0[..1]);
    var p1 := ExtendWhen(p0, Truthy(filters.search), SearchParam, Str(filters.search.GetOr("")));
    var p2 := ExtendWhen(p1, Truthy(filters.category), CategoryParam, Str(filters.category.GetOr("")));
    var p3 := ExtendWhen(p2, filters.sortBy.Some?, SortByParam, Str(SortKeyName(filters.sortBy.GetOr(Title))));
    var p4 := ExtendWhen(p3, filters.sortOrder.Some?, SortOrderParam, Str(SortOrderName(filters.sortOrder.GetOr(Asc))));
    var p5 := ExtendWhen(p4, filters.priceMin.Some?, PriceMinParam, Num(filters.priceMin.GetOr(0.0)));
    var p6 := ExtendWhen(p5, filters.priceMax.Some?, PriceMaxParam, Num(filters.priceMax.GetOr(0.0)));
    assert p6 == ProductQuery(limit, skip, filters);
  }

  /** The query starts with limit then skip, and lists its keys in rank order, each at most once. */
  lemma ProductQueryOrdered(limit: Option<int>, skip: Option<int>, filters: ProductFilters)
    ensures var q := ProductQuery(limit, skip, filters);
      |q| >= 2 && q[0].0 == LimitParam && q[1].0 == SkipParam &&
      forall i, j :: 0 <= i < j < |q| ==> KeyRank(q[i].0) < KeyRank(q[j].0)
  {
    var q := ProductQuery(limit, skip, filters);
    ProductQueryIncreasing(limit, skip, filters);
    IncreasingStrictly(q);
    ProductQueryValues(limit, skip, filters, LimitParam);
    ProductQueryValues(limit, skip, filters, SkipParam);
  }

  /** What getProducts sends for one key, rule by rule: None when the key is left out. */
  function Sent(limit: Option<int>, skip: Option<int>, filters: ProductFilters, k: QueryKey): Option<ParamValue> {
    match k
    case LimitParam => Some(Str(Itoa(limit.GetOr(12))))
    case SkipParam => Some(Str(Itoa(skip.GetOr(0))))
    case SearchParam => if Truthy(filters.search) then Some(Str(filters.search.value)) else None
    case CategoryParam => if Truthy(filters.category) then Some(Str(filters.category.value)) else None
    case SortByParam => if filters.sortBy.Some? then Some(Str(SortKeyName(filters.sortBy.value))) else None
    case SortOrderParam => if filters.sortOrder.Some? then Some(Str(SortOrderName(filters.sortOrder.value))) else None
    case PriceMinParam => if filters.priceMin.Some? then Some(Num(filters.priceMin.value)) else None
    case PriceMaxParam => if filters.priceMax.Some? then Some(Num(filters.priceMax.value)) else None
  }

  /** Reading any key back from the query gives what the rules say is sent for it. */
  lemma ProductQueryValues(limit: Option<int>, skip: Option<int>, filters: ProductFilters, k: QueryKey)
    ensures Get(ProductQuery(limit, skip, filters), k) == Sent(limit, skip, filters, k)
  {
    var p0: seq<Param> := [(LimitParam, Str(Itoa(limit.GetOr(12)))), (SkipParam, Str(Itoa(skip.GetOr(0))))];
    GetPaging(p0[0].1, p0[1].1, k);
    var p1 := GetWhen(p0, Truthy(filters.search), SearchParam, Str(filters.search.GetOr("")), k);
    var p2 := GetWhen(p1, Truthy(filters.category), CategoryParam, Str(filters.category.GetOr("")), k);
    var p3 := GetWhen(p2, filters.sortBy.Some?, SortByParam, Str(SortKeyName(filters.sortBy.GetOr(Title))), k);
    var p4 := GetWhen(p3, filters.sortOrder.Some?, SortOrderParam, Str(SortOrderName(filters.sortOrder.GetOr(Asc))), k);
    var p5 := GetWhen(p4, filters.priceMin.Some?, PriceMinParam, Num(filters.priceMin.GetOr(0.0)), k);
    var p6 := GetWhen(p5, filters.priceMax.Some?, PriceMaxParam, Num(filters.priceMax.GetOr(0.0)), k);
    assert p6 == ProductQuery(limit, skip, filters);
    match k {
      case LimitParam =>
      case SkipParam =>
      case SearchParam =>
      case CategoryParam =>
      case SortByParam =>
      case SortOrderParam =>
      case PriceMinParam =>
      case PriceMaxParam =>
    }
  }

  /** Looking a key up in the two entries the query starts with. */
  lemma GetPaging(limit: ParamValue, skip: ParamValue, k: QueryKey)
    ensures Get([(LimitParam, limit), (SkipParam, skip)], k) ==
      if k == LimitParam then Some(limit) else if k == SkipParam then Some(skip) else None
  {
    var p := [(LimitParam, limit), (SkipParam, skip)];
    assert p[1..] == [(SkipParam, skip)];
    assert p[1..][1..] == [];
    assert Get(p[1..], k) == if k == SkipParam then Some(skip) else Get([], k);
  }

  /** Looking a key up after one optional append: the earlier entry wins, else the appended one if it matches. */
  lemma GetWhen(a: seq<Param>, present: bool, key: QueryKey, value: ParamValue, k: QueryKey) returns (b: seq<Param>)
    ensures b == a + When(present, key, value)
    ensures Get(b, k) == if Get(a, k).Some? then Get(a, k) else if present && key == k then Some(value) else None
  {
    b := a + When(present, key, value);
    GetConcat(a, When(present, key, value), k);
    if present {
      assert [(key, value)][1..] == [];
    }
  }

  /**
   * The query as getProducts builds it: a URLSearchParams started with limit and skip,
   * then one append per filter that is set.
   */
  method GetProductsQuery(limit: Option<int>, skip: Option<int>, filters: ProductFilters) returns (query: seq<Param>)
    ensures query == ProductQuery(limit, skip, filters)
  {
    var params := new SearchParams(Itoa(limit.GetOr(12)), Itoa(skip.GetOr(0)));
    params.AppendWhen(Truthy(filters.search), SearchParam, Str(filters.search.GetOr("")));
    params.AppendWhen(Truthy(filters.category), CategoryParam, Str(filters.category.GetOr("")));
    params.AppendWhen(filters.sortBy.Some?, SortByParam, Str(SortKeyName(filters.sortBy.GetOr(Title))));
    params.AppendWhen(filters.sortOrder.Some?, SortOrderParam, Str(SortOrderName(filters.sortOrder.GetOr(Asc))));
    params.AppendWhen(filters.priceMin.Some?, PriceMinParam, Num(filters.priceMin.GetOr(0.0)));
    params.AppendWhen(filters.priceMax.Some?, PriceMaxParam, Num(filters.priceMax.GetOr(0.0)));
    query := params.entries;
  }

  /** A URLSearchParams object: its entries in the order they were added. */
  class SearchParams {
    var entries: seq<Param>

    constructor (limit: string, skip: string)
      ensures entries == [(LimitParam, Str(limit)), (SkipParam, Str(skip))]
    {
      entries := [(LimitParam, Str(limit)), (SkipParam, Str(skip))];
    }

    method Append(key: QueryKey, value: ParamValue)
      modifies this
      ensures entries == old(entries) + [(key, value)]
    {
      entries := entries + [(key, value)];
    }

    /** `if (present) params.append(key, value)`. */
    method AppendWhen(present: bool, key: QueryKey, value: ParamValue)
      modifies this
      ensures entries == old(entries) + When(present, key, value)
    {
      if present {
        Append(key, value);
      } else {
        assert entries + [] == entries;
      }
    }
  }

  /** window.localStorage as a key/value map. */
  class LocalStorage {
    var items: map<string, string>

    constructor (items: map<string, string>)
      ensures this.items == items
    {
      this.items := items;
    }

    function GetItem(key: string): (value: Option<string>)
      reads this
      ensures value.Some? <==> key in items
      ensures value.Some? ==> value.value == items[key]
    {
      if key in items then Some(items[key]) else None
    }

    method RemoveItem(key: string)
      modifies this
      ensures items == old(items) - {key}
    {
      items := items - {key};
    }
  }

  /** The body of a failed response, when it has one: error, code and details as sent by the backend. */
  datatype ErrorData = ErrorData(error: Option<string>, code: Option<string>, details: Option<string>)

  /** An axios failure: the response's status and body, or None when no response arrived. */
  datatype HttpFailure = HttpFailure(response: Option<(int, Option<ErrorData>)>)

  /** What the response interceptor rejects with: a new Error built from the body, or the failure itself. */
  datatype Rejection =
    | Enhanced(message: string, name: string, code: Option<string>, details: Option<string>)
    | Unchanged(failure: HttpFailure)

  class Api {
    const storage: LocalStorage
    var location: string

    constructor (storage: LocalStorage, location: string)
      ensures this.storage == storage && this.location == location
    {
      this.storage := storage;
      this.location := location;
    }

    /** The request interceptor: a stored, non-empty token is sent as a bearer credential. */
    method AttachToken(headers: map<string, string>) returns (sent: map<string, string>)
      ensures Truthy(storage.GetItem("token")) ==>
        sent == headers["Authorization" := "Bearer " + storage.items["token"]]
      ensures !Truthy(storage.GetItem("token")) ==> sent == headers
    {
      var token := storage.GetItem("token");
      sent := headers;
      if token.Some? && token.value != "" {
        sent := sent["Authorization" := "Bearer " + token.value];
      }
    }

    /**
     * The response error interceptor: a 401 forgets the session and sends the browser to the sign-in
     * page; a body with an error becomes an Error carrying that message and named after the code
     * ("APIError" without one); any other failure is passed on as it is.
     */
    method OnResponseError(failure: HttpFailure) returns (rejection: Rejection)
      modifies storage, this
      ensures failure.response.Some? && failure.response.value.0 == 401 ==>
        storage.items == old(storage.items) - {"token", "user"} && location == "/sign-in"
      ensures !(failure.response.Some? && failure.response.value.0 == 401) ==>
        storage.items == old(storage.items) && location == old(location)
      ensures rejection.Enhanced? <==>
        failure.response.Some? && failure.response.value.1.Some? && Truthy(failure.response.value.1.value.error)
      ensures rejection.Enhanced? ==>
        var data := failure.response.value.1.value;
        rejection.message == data.error.value && rejection.code == data.code && rejection.details == data.details &&
        rejection.name == if Truthy(data.code) then data.code.value else "APIError"
      ensures rejection.Unchanged? ==> rejection.failure == failure
    {
      if failure.response.Some? && failure.response.value.0 == 401 {
        storage.RemoveItem("token");
        storage.RemoveItem("user");
        location := "/sign-in";
      }
      match failure.response {
        case Some((_, Some(data))) =>
          if Truthy(data.error) {
            var name := if Truthy(data.code) then data.code.value else "APIError";
            return Enhanced(data.error.value, name, data.code, data.details);
          }
        case _ =>
      }
      rejection := Unchanged(failure);
    }

    /** logout: the session is forgotten whether or not the request succeeded; a failure is still reported. */
    method Logout(requestFailed: bool) returns (failed: bool)
      modifies storage
      ensures storage.items == old(storage.items) - {"token", "user"}
      ensures failed == requestFailed
    {
      failed := requestFailed;
      storage.RemoveItem("token");
      storage.RemoveItem("user");
    }
  }
}
