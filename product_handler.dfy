/**
 * The product listing proxy (backend/internal/handlers/product_handler.go): query normalisation, the
 * choice of upstream endpoint, and the price filter applied to the upstream answer. The HTTP round trip
 * and JSON decoding are inputs; url.Values encoding and escaping are not modelled, so the upstream request
 * is given as its endpoint and its parameters in the order they are added.
 */
module ProductHandler {
  import opened Base
  import opened Text
  import opened Models

  /** The query string: the first value of each key present. */
  type Query = map<string, string>

  /** c.DefaultQuery: the value when the key is present (even if empty), else the default. */
  function QueryOr(q: Query, key: string, default: string): string {
    if key in q then q[key] else default
  }

  /** c.Query: the value, or "" when the key is absent. */
  function QueryParam(q: Query, key: string): string {
    QueryOr(q, key, "")
  }

  const MinInt64 := -0x8000_0000_0000_0000
  const MaxInt64 := 0x7fff_ffff_ffff_ffff

  /** strconv.Atoi on a 64-bit platform: an optional sign and at least one decimal digit, within int64. */
  function Atoi(s: string): (r: Option<int>)
    ensures r.Some? ==> MinInt64 <= r.value <= MaxInt64
    ensures r.Some? ==> s != [] && (IsDigit(s[0]) || s[0] == '+' || s[0] == '-')
  {
    var signed := s != [] && (s[0] == '+' || s[0] == '-');
    var digits := if signed then s[1..] else s;
    if digits == [] || !AllDigits(digits) then None
    else
      var v: int := if signed && s[0] == '-' then -(DigitsValue(digits) as int) else DigitsValue(digits) as int;
      if MinInt64 <= v <= MaxInt64 then Some(v) else None
  }

  /** Atoi reads back what Itoa writes. */
  lemma AtoiItoa(n: int)
    requires MinInt64 <= n <= MaxInt64
    ensures Atoi(Itoa(n)) == Some(n)
  {
    if n < 0 {
      NatDigitsValue(-n);
      assert Itoa(n)[1..] == NatDigits(-n);
    } else {
      NatDigitsValue(n);
    }
  }

  const DefaultLimit := 12

  /** The page size: the query's limit when it is an integer in 1..100, otherwise 12. */
  function EffectiveLimit(q: Query): (limit: int)
    ensures 1 <= limit <= 100
    ensures limit != DefaultLimit ==> Atoi(QueryOr(q, "limit", "12")) == Some(limit)
    ensures (var n := Atoi(QueryOr(q, "limit", "12")); n.Some? && 1 <= n.value <= 100 ==> limit == n.value)
  {
    match Atoi(QueryOr(q, "limit", "12"))
    case Some(n) => if n <= 0 || n > 100 then DefaultLimit else n
    case None => DefaultLimit
  }

  /** The offset: the query's skip when it is a non-negative integer, otherwise 0. */
  function EffectiveSkip(q: Query): (skip: int)
    ensures skip >= 0
    ensures skip != 0 ==> Atoi(QueryOr(q, "skip", "0")) == Some(skip)
    ensures (var n := Atoi(QueryOr(q, "skip", "0")); n.Some? && n.value >= 0 ==> skip == n.value)
  {
    match Atoi(QueryOr(q, "skip", "0"))
    case Some(n) => if n < 0 then 0 else n
    case None => 0
  }

  /** A page size the frontend sends in 1..100 is the page size the backend uses. */
  lemma LimitRoundTrip(q: Query, n: int)
    requires 1 <= n <= 100 && "limit" in q && q["limit"] == Itoa(n)
    ensures EffectiveLimit(q) == n
  {
    AtoiItoa(n);
  }

  predicate IsSortKey(s: string) {
    s == "price" || s == "title" || s == "rating"
  }

  /** The upstream parameters in the order they are added: limit, skip, then sortBy and order for a known key. */
  function UpstreamParams(q: Query): (params: seq<(string, string)>)
    ensures |params| == 2 || |params| == 4
    ensures params[0] == ("limit", Itoa(EffectiveLimit(q))) && params[1] == ("skip", Itoa(EffectiveSkip(q)))
    ensures |params| == 4 <==> IsSortKey(QueryOr(q, "sortBy", "title"))
    ensures |params| == 4 ==> params[2] == ("sortBy", QueryOr(q, "sortBy", "title"))
    ensures |params| == 4 ==> params[3] == ("order", if QueryOr(q, "sortOrder", "asc") == "desc" then "desc" else "asc")
  {
    var page := [("limit", Itoa(EffectiveLimit(q))), ("skip", Itoa(EffectiveSkip(q)))];
    var sortBy := QueryOr(q, "sortBy", "title");
    if IsSortKey(sortBy) then
      page + [("sortBy", sortBy), ("order", if QueryOr(q, "sortOrder", "asc") == "desc" then "desc" else "asc")]
    else
      page
  }

  /** The three upstream endpoints. */
  datatype Upstream =
    | SearchEndpoint(params: seq<(string, string)>, text: string)
    | CategoryEndpoint(category: string, params: seq<(string, string)>)
    | ListEndpoint(params: seq<(string, string)>)

  /** A search wins over a category, which wins over the plain list. */
  function ChooseUpstream(q: Query): (u: Upstream)
    ensures u.params == UpstreamParams(q)
    ensures u.SearchEndpoint? <==> QueryParam(q, "search") != ""
    ensures u.CategoryEndpoint? <==> QueryParam(q, "search") == "" && QueryParam(q, "category") != ""
    ensures u.SearchEndpoint? ==> u.text == QueryParam(q, "search")
    ensures u.CategoryEndpoint? ==> u.category == QueryParam(q, "category")
  {
    var params := UpstreamParams(q);
    var search := QueryParam(q, "search");
    var category := QueryParam(q, "category");
    if search != "" then SearchEndpoint(params, search)
    else if category != "" then CategoryEndpoint(category, params)
    else ListEndpoint(params)
  }

  // Prices.

  function Pow10(n: nat): (p: nat)
    ensures p >= 1
  {
    if n == 0 then 1 else 10 * Pow10(n - 1)
  }

  /** The position of the first '.', or |s| when there is none. */
  function FirstDot(s: string): (i: nat)
    ensures i <= |s|
    ensures i < |s| ==> s[i] == '.'
    ensures '.' !in s[..i]
  {
    if s == [] then 0
    else if s[0] == '.' then 0
    else
      var rest := FirstDot(s[1..]);
      assert s[..1 + rest] == [s[0]] + s[1..][..rest];
      1 + rest
  }

  /** Digits with an optional fraction after the first '.', at least one digit in all; None otherwise. */
  function UnsignedDecimal(s: string): (r: Option<real>)
    ensures r.Some? ==> r.value >= 0.0
  {
    var i := FirstDot(s);
    var whole := s[..i];
    var fraction := if i < |s| then s[i + 1..] else [];
    if (whole == [] && fraction == []) || !AllDigits(whole) || !AllDigits(fraction) then None
    else Some(DigitsValue(whole) as real + DigitsValue(fraction) as real / Pow10(|fraction|) as real)
  }

  /**
   * strconv.ParseFloat on plain decimal text: an optional sign, then digits with an optional fraction
   * ("5", "5.", ".5", "-2.25"). Everything else is an error (None).
   */
  function ParseDecimal(s: string): (r: Option<real>)
  {
    if s != [] && (s[0] == '+' || s[0] == '-') then
      match UnsignedDecimal(s[1..])
      case Some(v) => Some(if s[0] == '-' then -v else v)
      case None => None
    else UnsignedDecimal(s)
  }

  /** A whole number written as Itoa writes it parses to that number. */
  lemma ParseWholeNumber(n: int)
    ensures ParseDecimal(Itoa(n)) == Some(n as real)
  {
    var digits := NatDigits(if n < 0 then -n else n);
    NatDigitsValue(if n < 0 then -n else n);
    assert FirstDot(digits) == |digits|;
    assert digits[..|digits|] == digits;
    if n < 0 {
      assert Itoa(n)[1..] == digits;
    }
  }

  /** A price bound as the filter uses it: absent when empty or unparsable. */
  function Bound(raw: string): Option<real> {
    if raw == "" then None else ParseDecimal(raw)
  }

  /** A product passes when its price is at least the lower bound and at most the upper bound, where given. */
  predicate Admits(p: Product, low: Option<real>, high: Option<real>) {
    (low.None? || p.price >= low.value) && (high.None? || p.price <= high.value)
  }

  /** The products that pass, in their original order. */
  function KeepInRange(ps: seq<Product>, low: Option<real>, high: Option<real>): (kept: seq<Product>)
    ensures |kept| <= |ps|
    ensures forall k :: 0 <= k < |kept| ==> Admits(kept[k], low, high)
    ensures forall p :: p in kept <==> p in ps && Admits(p, low, high)
  {
    if ps == [] then []
    else
      var last := ps[|ps| - 1];
      var front := KeepInRange(ps[..|ps| - 1], low, high);
      assert forall p :: p in ps <==> p in ps[..|ps| - 1] || p == last;
      if Admits(last, low, high) then front + [last] else front
  }

  /** `a` is `b` with some elements left out and the rest in their original order. */
  predicate IsSubsequence<T(==)>(a: seq<T>, b: seq<T>)
    decreases |b|
  {
    a == [] || (b != [] && if a[|a| - 1] == b[|b| - 1] then IsSubsequence(a[..|a| - 1], b[..|b| - 1])
                           else IsSubsequence(a, b[..|b| - 1]))
  }

  lemma {:induction false} KeepInRangeIsSubsequence(ps: seq<Product>, low: Option<real>, high: Option<real>)
    ensures IsSubsequence(KeepInRange(ps, low, high), ps)
  {
    if ps != [] {
      var front := ps[..|ps| - 1];
      KeepInRangeIsSubsequence(front, low, high);
      var kept := KeepInRange(ps, low, high);
      if Admits(ps[|ps| - 1], low, high) {
        assert kept[..|kept| - 1] == KeepInRange(front, low, high);
      } else {
        SubsequenceWeaken(kept, front, ps[|ps| - 1]);
      }
    }
  }

  /** Each admitted product is kept as many times as it occurs; each other product not at all. */
  lemma {:induction false} KeepInRangeCounts(ps: seq<Product>, low: Option<real>, high: Option<real>, x: Product)
    ensures multiset(KeepInRange(ps, low, high))[x] == if Admits(x, low, high) then multiset(ps)[x] else 0
  {
    if ps != [] {
      var front := ps[..|ps| - 1];
      KeepInRangeCounts(front, low, high, x);
      assert ps == front + [ps[|ps| - 1]];
    }
  }

  /** A subsequence of `b` without its last element stays a subsequence once that element is dropped from `a`. */
  lemma {:induction false} SubsequenceDropLast<T>(a: seq<T>, b: seq<T>)
    requires a != [] && IsSubsequence(a, b)
    ensures IsSubsequence(a[..|a| - 1], b)
    decreases |b|, 0
  {
    var a' := a[..|a| - 1];
    if a' != [] {
      if a[|a| - 1] == b[|b| - 1] {
        SubsequenceWeaken(a', b[..|b| - 1], b[|b| - 1]);
      } else {
        SubsequenceDropLast(a, b[..|b| - 1]);
        SubsequenceWeaken(a', b[..|b| - 1], b[|b| - 1]);
      }
    }
  }

  /** Appending to the longer sequence keeps a subsequence a subsequence (without inspecting the new element). */
  lemma {:induction false} SubsequenceWeaken<T>(a: seq<T>, b: seq<T>, x: T)
    requires IsSubsequence(a, b)
    ensures IsSubsequence(a, b + [x])
    decreases |b|, 1
  {
    var bx := b + [x];
    assert bx[..|bx| - 1] == b;
    if a != [] && a[|a| - 1] == x {
      SubsequenceDropLast(a, b);
      if b != [] && a[|a| - 1] == b[|b| - 1] {
        assert IsSubsequence(a[..|a| - 1], b);
      }
    }
  }

  /** With both bounds absent or unparsable, nothing is dropped. */
  lemma {:induction false} KeepWithoutBounds(ps: seq<Product>)
    ensures KeepInRange(ps, None, None) == ps
  {
    if ps != [] {
      KeepWithoutBounds(ps[..|ps| - 1]);
      assert ps[..|ps| - 1] + [ps[|ps| - 1]] == ps;
    }
  }

  /**
   * Bounds that are given but do not parse leave every product in place; the filter still runs, so Total
   * becomes the number of products on the page.
   */
  lemma UnparsableBoundsKeepAll(ps: seq<Product>, priceMin: string, priceMax: string)
    requires ParseDecimal(priceMin).None? && ParseDecimal(priceMax).None?
    ensures KeepInRange(ps, Bound(priceMin), Bound(priceMax)) == ps
  {
    KeepWithoutBounds(ps);
  }

  datatype ProductResponse = ProductResponse(products: seq<Product>, total: int, skip: int, limit: int)

  /** Extending the prefix by one product extends what is kept by that product, when it passes. */
  lemma KeepOneMore(ps: seq<Product>, i: nat, low: Option<real>, high: Option<real>)
    requires i < |ps|
    ensures KeepInRange(ps[..i + 1], low, high) ==
      KeepInRange(ps[..i], low, high) + (if Admits(ps[i], low, high) then [ps[i]] else [])
  {
    assert ps[..i + 1][..i] == ps[..i];
  }

  /** The loop body's test for one product: each non-empty bound that parses must hold. */
  method PriceAdmits(product: Product, priceMin: string, priceMax: string) returns (keep: bool)
    ensures keep == Admits(product, Bound(priceMin), Bound(priceMax))
  {
    keep := true;
    if priceMin != "" {
      match ParseDecimal(priceMin)
      case Some(minPrice) =>
        if product.price < minPrice {
          keep := false;
        }
      case None =>
    }
    if priceMax != "" && keep {
      match ParseDecimal(priceMax)
      case Some(maxPrice) =>
        if product.price > maxPrice {
          keep := false;
        }
      case None =>
    }
  }

  /**
   * The price filter: with a bound given, the products that pass replace the list and Total becomes their
   * number; with neither bound given the response is untouched.
   */
  method FilterByPrice(resp: ProductResponse, priceMin: string, priceMax: string) returns (out: ProductResponse)
    ensures priceMin == "" && priceMax == "" ==> out == resp
    ensures priceMin != "" || priceMax != "" ==>
      out == resp.(products := KeepInRange(resp.products, Bound(priceMin), Bound(priceMax)),
                   total := |KeepInRange(resp.products, Bound(priceMin), Bound(priceMax))|)
  {
    out := resp;
    if priceMin != "" || priceMax != "" {
      var filtered: seq<Product> := [];
      var i := 0;
      while i < |resp.products|
        invariant 0 <= i <= |resp.products|
        invariant filtered == KeepInRange(resp.products[..i], Bound(priceMin), Bound(priceMax))
      {
        var product := resp.products[i];
        var keep := PriceAdmits(product, priceMin, priceMax);
        if keep {
          filtered := filtered + [product];
        }
        KeepOneMore(resp.products, i, Bound(priceMin), Bound(priceMax));
        i := i + 1;
      }
      assert resp.products[..i] == resp.products;
      out := out.(products := filtered, total := |filtered|);
    }
  }

  /** What the upstream call produced: a transport error, an undecodable body, or a decoded response. */
  datatype Fetched = FetchFailed | DecodeFailed | Received(response: ProductResponse)

  datatype Reply = Ok(response: ProductResponse) | Failed(status: int, error: string)

  /** GET /products: the upstream request it issues and the reply it sends. */
  method GetProducts(q: Query, fetched: Fetched) returns (request: Upstream, reply: Reply)
    ensures request == ChooseUpstream(q)
    ensures fetched == FetchFailed ==> reply == Failed(500, "Failed to fetch products")
    ensures fetched == DecodeFailed ==> reply == Failed(500, "Failed to parse products")
    ensures fetched.Received? ==> reply.Ok?
    ensures fetched.Received? && QueryParam(q, "priceMin") == "" && QueryParam(q, "priceMax") == "" ==>
      reply.response == fetched.response
    ensures fetched.Received? && (QueryParam(q, "priceMin") != "" || QueryParam(q, "priceMax") != "") ==>
      var kept := KeepInRange(fetched.response.products, Bound(QueryParam(q, "priceMin")), Bound(QueryParam(q, "priceMax")));
      reply.response == fetched.response.(products := kept, total := |kept|)
  {
    request := ChooseUpstream(q);
    match fetched
    case FetchFailed =>
      reply := Failed(500, "Failed to fetch products");
    case DecodeFailed =>
      reply := Failed(500, "Failed to parse products");
    case Received(response) =>
      var filtered := FilterByPrice(response, QueryParam(q, "priceMin"), QueryParam(q, "priceMax"));
      reply := Ok(filtered);
  }

  datatype CategoriesReply = Categories(names: seq<string>) | CategoriesFailed(status: int, error: string)

  /** GET /categories: the upstream list passed through, or a 500 naming the failed step. */
  function GetCategories(fetched: Option<Option<seq<string>>>): (r: CategoriesReply)
    ensures fetched == None ==> r == CategoriesFailed(500, "Failed to fetch categories")
    ensures fetched == Some(None) ==> r == CategoriesFailed(500, "Failed to parse categories")
    ensures fetched.Some? && fetched.value.Some? ==> r == Categories(fetched.value.value)
  {
    match fetched
    case None => CategoriesFailed(500, "Failed to fetch categories")
    case Some(None) => CategoriesFailed(500, "Failed to parse categories")
    case Some(Some(names)) => Categories(names)
  }
}
