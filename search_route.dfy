/** `POST /api/search` of server/routes/api/search.js: validates the query, asks the global
    catalog and/or the tenant catalog depending on `scope`, tolerates the failure of either,
    and answers with each source's list and the combined list sorted available-first.

    The two service calls are modelled in the Catalog and ShopProducts modules; here their
    outcomes are inputs, and the handler reports which calls it makes, in order. */
module SearchRoute {
  import opened Wrappers
  import opened JsValues
  import Catalog
  import ShopProducts
  import opened AvailabilitySort

  const DefaultScope := Str("both")
  const DefaultLimit := 10

  /** The fields the handler destructures from the request body. Numbers are integers. */
  datatype SearchBody = SearchBody(
    query: Option<JsValue>, context: Option<JsValue>, scope: Option<JsValue>, limit: Option<int>,
    minPrice: Option<int>, maxPrice: Option<int>, shipsTo: Option<JsValue>,
    includeSecondhand: Option<JsValue>)

  datatype SourceCall =
    | GlobalSearch(global: Catalog.GlobalSearchOptions)
    | ShopSearch(shop: ShopProducts.SearchOptions)

  /** 400, 500 with the error thrown, or 200 with the three lists and their counts. */
  datatype SearchResponse =
    | BadRequest
    | Failed(error: Error)
    | Results(query: string, scope: JsValue,
              global: JsValue, globalCount: int,
              shop: seq<ShopProducts.ShopProduct>, shopCount: int,
              combined: seq<Listing>, combinedCount: int)

  /** A query passes when it is a string that is not empty after trimming. */
  predicate ValidQuery(query: Option<JsValue>) {
    query.Some? && query.value.Str? && Trim(query.value.s) != []
  }

  /** The query check rejects exactly the missing, non-string and blank queries. */
  lemma ValidQueryIffNonBlank(query: Option<JsValue>)
    ensures ValidQuery(query) <==> query.Some? && query.value.Str? && !AllWhitespace(query.value.s)
  {
    if query.Some? && query.value.Str? {
      TrimEmptyIffBlank(query.value.s);
    }
  }

  function ScopeOf(body: SearchBody): JsValue {
    body.scope.GetOr(DefaultScope)
  }

  predicate SearchesGlobal(scope: JsValue) {
    scope == Str("global") || scope == Str("both")
  }

  predicate SearchesShop(scope: JsValue) {
    scope == Str("shop") || scope == Str("both")
  }

  function GlobalOptions(body: SearchBody, query: string): Catalog.GlobalSearchOptions {
    Catalog.GlobalSearchOptions(query, body.context, Some(body.limit.GetOr(DefaultLimit)),
                                body.minPrice, body.maxPrice, body.shipsTo, body.includeSecondhand)
  }

  function ShopOptions(body: SearchBody, query: string): ShopProducts.SearchOptions {
    ShopProducts.SearchOptions(Some(query), Some(body.limit.GetOr(DefaultLimit)), body.minPrice, body.maxPrice)
  }

  /** The calls the handler makes for a valid query: the catalog first, then the tenant. */
  function CallsFor(body: SearchBody, query: string): (r: seq<SourceCall>)
    ensures |r| == (if SearchesGlobal(ScopeOf(body)) then 1 else 0) + (if SearchesShop(ScopeOf(body)) then 1 else 0)
    ensures SearchesGlobal(ScopeOf(body)) ==> r[0] == GlobalSearch(GlobalOptions(body, query))
    ensures SearchesShop(ScopeOf(body)) ==> r[|r| - 1] == ShopSearch(ShopOptions(body, query))
    ensures GlobalSearch(GlobalOptions(body, query)) in r <==> SearchesGlobal(ScopeOf(body))
    ensures ShopSearch(ShopOptions(body, query)) in r <==> SearchesShop(ScopeOf(body))
    ensures ScopeOf(body) == Str("both") ==> r == [GlobalSearch(GlobalOptions(body, query)), ShopSearch(ShopOptions(body, query))]
    ensures !SearchesGlobal(ScopeOf(body)) && !SearchesShop(ScopeOf(body)) ==> r == []
  {
    (if SearchesGlobal(ScopeOf(body)) then [GlobalSearch(GlobalOptions(body, query))] else [])
    + (if SearchesShop(ScopeOf(body)) then [ShopSearch(ShopOptions(body, query))] else [])
  }

  /** `results.global`: the catalog's offers (or `[]`) when it was asked and answered. */
  function GlobalList(scope: JsValue, outcome: Result<Catalog.GlobalSearchResult, Error>): (r: JsValue)
    ensures !SearchesGlobal(scope) || outcome.Err? ==> r == Arr([])
    ensures SearchesGlobal(scope) && outcome.Ok? ==>
      r == (if Truthy(outcome.value.offers) then outcome.value.offers else Arr([]))
    ensures Truthy(r)
  {
    if SearchesGlobal(scope) && outcome.Ok? then OrElse(Some(outcome.value.offers), Arr([])) else Arr([])
  }

  /** `results.shop`: the tenant's products when it was asked and answered. */
  function ShopList(scope: JsValue, outcome: Result<seq<ShopProducts.ShopProduct>, Error>)
    : (r: seq<ShopProducts.ShopProduct>)
    ensures !SearchesShop(scope) || outcome.Err? ==> r == []
    ensures SearchesShop(scope) && outcome.Ok? ==> r == outcome.value
  {
    if SearchesShop(scope) && outcome.Ok? then outcome.value else []
  }

  /** `[...results.global, ...results.shop]` once the global list has been spread. */
  function Combine(offers: seq<JsValue>, shop: seq<ShopProducts.ShopProduct>): (r: seq<Listing>)
    ensures |r| == |offers| + |shop|
    ensures forall i :: 0 <= i < |offers| ==> r[i] == Offer(offers[i])
    ensures forall i :: 0 <= i < |shop| ==> r[|offers| + i] == ShopItem(shop[i])
  {
    seq(|offers|, i requires 0 <= i < |offers| => Offer(offers[i]))
    + seq(|shop|, i requires 0 <= i < |shop| => ShopItem(shop[i]))
  }

  /** The comparator reads `availableForSale` of both its arguments, and a sort of two or
      more elements compares each of them, so a `null` offer among them throws. */
  predicate ComparatorThrows(s: seq<Listing>) {
    |s| >= 2 && exists i :: 0 <= i < |s| && s[i] == Offer(Null)
  }

  /** A shop-only combined list holds no `null` offer, so the comparator cannot throw. */
  lemma ShopOnlyNeverThrows(shop: seq<ShopProducts.ShopProduct>)
    ensures !ComparatorThrows(Combine([], shop))
  {
    var c := Combine([], shop);
    forall i | 0 <= i < |c| ensures c[i] != Offer(Null) {
      assert c[0 + i] == ShopItem(shop[i]);
    }
  }

  /** Lines 84-110 of the handler: spread and merge the two lists, sort, and count. */
  method MergeAndSort(query: string, scope: JsValue, global: JsValue, shop: seq<ShopProducts.ShopProduct>)
    returns (response: SearchResponse)
    ensures Spread(global).Err? ==> response == Failed(TypeError)
    ensures Spread(global).Ok? ==>
      var combined := Combine(Spread(global).value, shop);
      && (ComparatorThrows(combined) ==> response == Failed(TypeError))
      && (!ComparatorThrows(combined) ==>
            response == Results(query, scope, global, |Spread(global).value|, shop, |shop|,
                                AvailableFirst(combined), |combined|))
    ensures response.Results? ==>
      && response.combinedCount == response.globalCount + response.shopCount
      && multiset(response.combined) == multiset(Combine(Spread(response.global).value, response.shop))
      && Ordered(response.combined)
  {
    var offers := Spread(global);
    if offers.Err? {
      return Failed(TypeError);
    }
    var combined := Combine(offers.value, shop);
    if |combined| >= 2 && Offer(Null) in combined {
      return Failed(TypeError);
    }
    var a := new Listing[|combined|](i requires 0 <= i < |combined| => combined[i]);
    assert a[..] == combined;
    SortByAvailability(a);
    AvailableFirstIsOrdered(combined);
    AvailableFirstIsPermutation(combined);
    response := Results(query, scope, global, |offers.value|, shop, |shop|, a[..], a.Length);
  }

  /** The handler. A source that fails contributes an empty list; only a global list that
      cannot be spread, or a `null` offer the comparator reads, makes the request fail. */
  method HandleSearch(body: SearchBody,
                      globalOutcome: Result<Catalog.GlobalSearchResult, Error>,
                      shopOutcome: Result<seq<ShopProducts.ShopProduct>, Error>)
    returns (calls: seq<SourceCall>, response: SearchResponse)
    ensures response == BadRequest <==> !ValidQuery(body.query)
    ensures !ValidQuery(body.query) ==> calls == []
    ensures ValidQuery(body.query) ==>
      var query, scope := body.query.value.s, ScopeOf(body);
      var global := GlobalList(scope, globalOutcome);
      var shop := ShopList(scope, shopOutcome);
      && calls == CallsFor(body, query)
      && (Spread(global).Err? ==> response == Failed(TypeError))
      && (Spread(global).Ok? ==>
            var combined := Combine(Spread(global).value, shop);
            && (ComparatorThrows(combined) ==> response == Failed(TypeError))
            && (!ComparatorThrows(combined) ==>
                  response == Results(query, scope, global, |Spread(global).value|, shop, |shop|,
                                      AvailableFirst(combined), |combined|)))
    ensures response.Results? ==>
      && response.combinedCount == response.globalCount + response.shopCount
      && multiset(response.combined) == multiset(Combine(Spread(response.global).value, response.shop))
      && Ordered(response.combined)
    ensures ValidQuery(body.query) && (!SearchesGlobal(ScopeOf(body)) || globalOutcome.Err?) ==>
      response.Results? && response.global == Arr([]) && response.combined == AvailableFirst(Combine([], response.shop))
  {
    if !(body.query.Some? && body.query.value.Str? && |Trim(body.query.value.s)| != 0) {
      return [], BadRequest;
    }
    var query, scope := body.query.value.s, ScopeOf(body);
    calls := [];
    var global := Arr([]);
    if scope == Str("global") || scope == Str("both") {
      calls := calls + [GlobalSearch(GlobalOptions(body, query))];
      if globalOutcome.Ok? {
        global := OrElse(Some(globalOutcome.value.offers), Arr([]));
      }
    }
    var shop := [];
    if scope == Str("shop") || scope == Str("both") {
      calls := calls + [ShopSearch(ShopOptions(body, query))];
      if shopOutcome.Ok? {
        shop := shopOutcome.value;
      }
    }
    ShopOnlyNeverThrows(shop);
    response := MergeAndSort(query, scope, global, shop);
  }
}
