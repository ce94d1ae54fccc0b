# Product search service: a Dafny model of its server core

This project models the server side of a product-search service for a commerce platform.
The service answers one search over two sources: a global product catalog reached through a JSON-RPC tool interface, and the catalog of the tenant shop reached through GraphQL. It then merges the two result lists. It also looks up product details in either source, and it offers a public storefront search behind a per-IP rate limit.

The model covers:

- **ShopProducts** (`shop_products.dfy`): the tenant search and detail lookup.
  - Builds the wildcard search predicate and the capped page size.
  - Filters prices locally, after the fetch.
  - Maps GraphQL nodes to normalised products.
  - Reports the errors for "no session", "upstream rejected" and "not found".
- **Catalog** (`catalog.dfy`): the global-catalog client.
  - Holds the bearer-token cache as a class.
  - The token is obtained with the OAuth 2.0 client-credentials grant, section 4.4 of RFC 6749.
  - A cached token is reused until 5 minutes before it expires.
  - Builds the JSON-RPC 2.0 request objects and the tool parameters.
  - Unwraps the JSON the catalog embeds as text in `result.content[0].text`.
  - Implements `extractUpid`.
- **AvailabilitySort** (`availability_sort.dfy`): the stable availability-first sort of the combined results.
  - Implemented as an in-place array method.
  - Proved to be a permutation, to be ordered and to be stable.
  - Proved to be the only result any stable sort with that comparator can give.
- **SearchRoute** (`search_route.dfy`): `POST /api/search`.
  - Validates the query and dispatches on `scope`.
  - Substitutes an empty list for a source that fails.
  - Merges global results first, then sorts and counts.
- **ProductsRoute** (`products_route.dfy`): `GET /api/products/:upid` and `POST /api/products/details`.
  - Routes by scope.
  - Picks the first variant that satisfies every `{key, values}` constraint.
- **WidgetSearch** (`widget_search.dfy`): the public widget search.
  - A fixed-window rate limiter of 30 requests per 60 s per IP, kept as a class over a map.
  - The sweep loop that removes windows that have ended.
  - The handler that caps the limit at 20.
- **JsValues** and **Wrappers**: the JavaScript semantics the core relies on.
  - Covers JSON values, truthiness, and property reads that throw on `null`.
  - Covers spread, `trim`, and first-occurrence `replace`.
  - `Option` stands for `undefined`, and `Result` for a thrown exception.

Upstream calls, the clock and `JSON.parse` are parameters.

- Each operation takes the reply it would get.
- It returns the request it would send, or `None` when it sends none.
- So "no upstream call on a 400" and "one token request per refresh" are stated facts, not assumptions.
- The route handlers take the outcomes of the services as inputs; the services have their own modules.

## Model

| member | source | states |
|---|---|---|
| ShopProducts.UpstreamQuery | server/services/shopProductService.js:87-91 | the predicate is `title:*q* OR description:*q* OR tags:*q*` with `q` defaulting to the empty string |
| ShopProducts.QueryText | server/services/shopProductService.js:25 | the query, or the empty string when none is given |
| ShopProducts.UpstreamQueryIgnoresBounds | server/services/shopProductService.js:88-91 | the predicate is the same whether or not price bounds are given |
| ShopProducts.PageSize | server/services/shopProductService.js:95 | page size is at most 50, is 10 without a limit, and is the limit itself when that is below 50 |
| ShopProducts.FilterByPrice | server/services/shopProductService.js:108-118 | the result is a subsequence of the input; a product is in it iff it passes both bound tests, and then exactly as often as in the input |
| ShopProducts.WithinBounds | server/services/shopProductService.js:110-116 | a product fails only when its maximum price is below the minimum bound or its minimum price is above the maximum bound; NaN fails neither test |
| ShopProducts.PriceFilterIsOverlap | server/services/shopProductService.js:109-117 | with both bounds and numeric prices, a product is kept iff its price range meets the requested range |
| ShopProducts.NoBoundsKeepsAll | server/services/shopProductService.js:108 | without bounds nothing is dropped |
| ShopProducts.KeptIsSubsequence | server/services/shopProductService.js:105-118 | the surviving nodes are a subsequence of the fetched ones; without bounds they are all of them |
| ShopProducts.AltText | server/services/shopProductService.js:127 | a non-empty alt text is kept; a missing or empty one becomes the product title |
| ShopProducts.ImageOf | server/services/shopProductService.js:186-189 | an image is present iff the node has one, with the same url; its alt text is the node's when non-empty and the product title otherwise |
| ShopProducts.AnyAvailable | server/services/shopProductService.js:161 | true iff some variant is available for sale |
| ShopProducts.ProductImages | server/services/shopProductService.js:125-137 | one image per node, in order, with url, `altText` or the title, and the product and shop attached |
| ShopProducts.Variants | server/services/shopProductService.js:180-190 | one variant per node, in order, copying id, title, price, availability, options and image |
| ShopProducts.ProductOptions | server/services/shopProductService.js:305-312 | one option per declared option, each value marked available and existing |
| ShopProducts.FirstVariantOf | server/services/shopProductService.js:167-179 | null iff there are no variants; otherwise the first variant's id, availability and options, its price in the minimum price's currency, and its image with the title as fallback alt text |
| ShopProducts.Normalize | server/services/shopProductService.js:121-195 | the product `Describes` its node: scope `shop`, ids and title, description defaulting to empty, shop reference and urls, availability iff some variant is available (product and entry alike), images with owner and defaulted alt text, variants with options and images, price range and featured image; options and selection as given |
| ShopProducts.NormalizeSearchNode | server/services/shopProductService.js:148-179 | a search result `Describes` its node, has no option list, and has the first variant (or null) as its selection |
| ShopProducts.NormalizeDetailNode | server/services/shopProductService.js:288-357 | a detail result `Describes` its node, carries the declared options, and has no selection |
| ShopProducts.NormalizeAll | server/services/shopProductService.js:121 | one normalised product per node, in node order |
| ShopProducts.SearchShopProducts | server/services/shopProductService.js:13-200 | no session gives an error and no request; otherwise the request sent (predicate, page size, 5 images and 10 variants per product), the wrapped upstream error, or the normalised surviving nodes, all scoped to the session's shop |
| ShopProducts.GetShopProductDetails | server/services/shopProductService.js:208-362 | no session gives an error and no request; otherwise the request for the id with 10 images and 50 variants; upstream failure and missing product are distinct errors; otherwise the normalised detail |
| ShopProducts.SearchResultsWithinCaps | server/services/shopProductService.js:42-60 | when the API honours the nested caps, each search result has at most 5 images and 10 variants, so availability is decided over at most 10 variants |
| ShopProducts.DetailWithinCaps | server/services/shopProductService.js:229-247 | the detail request asks for 10 images and 50 variants, and a product that honours them is normalised with at most that many |
| Catalog.ExpiresInSeconds | server/services/catalogService.js:39 | `expires_in` defaults to 3600 s when falsy and is never zero |
| Catalog.IsFresh | server/services/catalogService.js:14 | the cached token is used iff token and expiry are set and now is more than 5 minutes before the expiry |
| Catalog.IssueToken | server/services/catalogService.js:18-45 | a token request fails with the network, status, parse or null-body cause wrapped; on success the cache holds `access_token` and expires at now plus the lifetime in ms |
| Catalog.Acquire | server/services/catalogService.js:12-46 | a token is requested iff the cached one is not fresh; a fresh one is returned unchanged; a successful token response is stored as the new cache (`access_token`, and expiry now plus `expires_in` or 3600 s) and its token returned; a failed one throws `IssueToken`'s error and leaves the cache as it was |
| Catalog.RefreshServesUntilMargin | server/services/catalogService.js:14-39 | after a refresh, calls before expiry minus 5 minutes make no token request; the first call after that makes one |
| Catalog.Envelope | server/services/catalogService.js:61-69 | the body has exactly `jsonrpc` `2.0`, `method` `tools/call`, the id, and `params` with the tool name and arguments |
| Catalog.RpcOutcome | server/services/catalogService.js:72-83 | non-ok status, unparsable body and a truthy `error` field each throw; otherwise the body is returned |
| Catalog.Call | server/services/catalogService.js:51-88 | the token step comes first; a token failure sends nothing; otherwise the envelope is sent with the token |
| Catalog.CappedLimit | server/services/catalogService.js:106-119 | limit at most 50, default 10 |
| Catalog.SearchParams | server/services/catalogService.js:117-126 | query and capped limit always; context and ships_to iff truthy; the price bounds and include_secondhand iff given |
| Catalog.DetailParams | server/services/catalogService.js:168-176 | the id without its first `gid://shopify/p/`, and product_options iff non-empty |
| Catalog.ContentItem | server/services/catalogService.js:132 | `result.content[0]` when `result`, `result.content` and that element are all truthy, and nothing as soon as one of them is falsy |
| Catalog.EmbeddedPayload | server/services/catalogService.js:132-141 | no content item means no content; string text is parsed (a parse failure throws); other text is used as it is |
| Catalog.UnwrapSearch | server/services/catalogService.js:132-149 | no content gives no offers and empty instructions; embedded text that does not parse throws; a null payload throws; otherwise `offers` and `instructions` with their defaults |
| Catalog.UnwrapDetails | server/services/catalogService.js:182-196 | no content fails with "no product data"; embedded text that does not parse throws; otherwise exactly the payload |
| Catalog.UnwrapsEmbeddedText | server/services/catalogService.js:133-146 | a response that embeds JSON text yields that text's offers and instructions |
| Catalog.FirstUpidMatch | server/services/catalogService.js:208 | the leftmost position where the pattern matches, or none at all |
| Catalog.LineEnd | server/services/catalogService.js:208 | the greedy group stops at the first line terminator |
| Catalog.ExtractUpid | server/services/catalogService.js:206-210 | null iff the id is empty; a non-matching id is returned whole; a captured id is non-empty and holds no line terminator |
| Catalog.ExtractUpidStripsPrefix | server/services/catalogService.js:206-210 | a prefixed id and its bare form extract to the same bare id |
| Catalog.CatalogClient.constructor | server/services/catalogService.js:6-7 | the cache starts with no token and no expiry |
| Catalog.CatalogClient.GetBearerToken | server/services/catalogService.js:12-46 | updates the cache exactly as `Acquire` says |
| Catalog.CatalogClient.CallCatalog | server/services/catalogService.js:51-88 | cache, token request, sent request and result are as `Call` says |
| Catalog.CatalogClient.SearchGlobalProducts | server/services/catalogService.js:102-154 | an empty query is rejected before any request; otherwise the request carries `SearchParams` and the result is unwrapped |
| Catalog.CatalogClient.GetGlobalProductDetails | server/services/catalogService.js:162-201 | an empty id is rejected before any request; otherwise the request carries `DetailParams` and the result is unwrapped |
| JsValues.Spread | server/routes/api/search.js:84 | spreading succeeds iff the value is an array or a string, and yields `length` elements |
| JsValues.TrimEmptyIffBlank | server/routes/api/search.js:34 | `trim()` gives the empty string iff the string is all whitespace |
| JsValues.IndexOf | server/services/catalogService.js:168 | the least position at or after `from` where the pattern occurs, or none |
| JsValues.ReplaceFirst | server/services/catalogService.js:168 | only the first occurrence is replaced; without one the string is unchanged |
| JsValues.FiltersToJs | server/services/catalogService.js:174-176 | product_options are forwarded as one `{key, values}` object per constraint, in order, with the key and every value as strings |
| AvailabilitySort.Compare | server/routes/api/search.js:87-92 | -1 iff only the first is available, 1 iff only the second is, 0 iff they tie |
| AvailabilitySort.Matching | server/routes/api/search.js:87-92 | the listings of one availability, in original order |
| AvailabilitySort.AvailableFirst | server/routes/api/search.js:87-92 | the sorted result: the available listings in order, then the unavailable ones in order |
| AvailabilitySort.AvailableFirstIsPermutation | server/routes/api/search.js:87-92 | sorting neither drops nor duplicates a listing |
| AvailabilitySort.AvailableFirstIsOrdered | server/routes/api/search.js:87-92 | after sorting, every available listing precedes every unavailable one |
| AvailabilitySort.AvailableFirstIsStable | server/routes/api/search.js:87-92 | listings that tie keep their relative order |
| AvailabilitySort.OrderedSplits | server/routes/api/search.js:87-92 | an ordered list is its available listings followed by its unavailable ones |
| AvailabilitySort.StableSortIsUnique | server/routes/api/search.js:87-92 | any ordered and stable rearrangement equals the modelled result |
| AvailabilitySort.Partition | server/routes/api/search.js:87-92 | the available and the unavailable listings of the array, each in order |
| AvailabilitySort.SortByAvailability | server/routes/api/search.js:87-92 | the array is sorted in place to the stable availability-first order, a permutation of the original |
| SearchRoute.ValidQueryIffNonBlank | server/routes/api/search.js:34-38 | a query is accepted iff it is a string that is not all whitespace |
| SearchRoute.ValidQuery | server/routes/api/search.js:34 | the query must be a string that is non-empty after trimming |
| SearchRoute.GlobalOptions | server/routes/api/search.js:49-57 | the catalog search receives the query, context, limit (default 10), price bounds, ships_to and include_secondhand from the body |
| SearchRoute.ShopOptions | server/routes/api/search.js:69-74 | the shop search receives the query, limit (default 10) and price bounds from the body |
| SearchRoute.CallsFor | server/routes/api/search.js:46-81 | exactly one catalog call iff scope is `global` or `both`, exactly one shop call iff `shop` or `both`, catalog first, and nothing else; any other scope calls nothing |
| SearchRoute.GlobalList | server/routes/api/search.js:47-64 | the global list is empty when not asked or failed; when asked and answered it is the offers as returned, or `[]` when they are falsy |
| SearchRoute.ShopList | server/routes/api/search.js:67-81 | the shop list is the shop's answer, or empty when not asked or failed |
| SearchRoute.Combine | server/routes/api/search.js:84 | global listings first, then shop listings, all of both |
| SearchRoute.ShopOnlyNeverThrows | server/routes/api/search.js:75-92 | a combined list holding only shop products never makes the comparator throw |
| SearchRoute.MergeAndSort | server/routes/api/search.js:84-110 | 500 on an unspreadable global list or a null offer among two or more; otherwise the sorted concatenation with counts equal to the lengths |
| SearchRoute.HandleSearch | server/routes/api/search.js:21-120 | 400 with no calls iff the query is invalid; a failing source yields an empty list; combined is the sorted concatenation; counts are the lengths; 500 only on an unspreadable global list or a null offer |
| ProductsRoute.FirstOptionNamed | server/routes/api/products.js:81 | the first option with the requested name, or none iff no option has it |
| ProductsRoute.SatisfiesEvery | server/routes/api/products.js:80-83 | a variant satisfies the constraints iff it satisfies each one |
| ProductsRoute.Satisfies | server/routes/api/products.js:80-83 | a variant satisfies the constraints when each one finds an option with its key whose value is listed |
| ProductsRoute.MatchingVariants | server/routes/api/products.js:79-84 | only satisfying variants, all taken from the list |
| ProductsRoute.MatchingHeadIsFirst | server/routes/api/products.js:79-86 | every satisfying variant is kept; empty iff none satisfies; the head is the first satisfying variant |
| ProductsRoute.SelectVariant | server/routes/api/products.js:78-94 | without constraints or a match the product is unchanged; with constraints and a match, the first satisfying variant is selected together with the constraints; nothing but the selection changes |
| ProductsRoute.FirstRedVariantSelected | server/routes/api/products.js:78-94 | asking for Red among (Red,S), (Blue,M), (Red,M) selects (Red,S); asking for Green changes nothing |
| ProductsRoute.DetailCallFor | server/routes/api/products.js:30-37 | scope `shop` looks up the raw id; any other scope uses the extracted id, never empty, and the options |
| ProductsRoute.GetProduct | server/routes/api/products.js:17-50 | 400 with no lookup iff the id is empty; otherwise the lookup for the scope (default `global`) and its outcome |
| ProductsRoute.GetProductWithOptions | server/routes/api/products.js:61-115 | 400 with no lookup iff the id is missing or empty; a shop product gets its variant selected; the global lookup receives the options |
| WidgetSearch.Admit | server/routes/api/widget/search.js:15-36 | a new IP or an ended window starts at count 1; a full window rejects and stays unchanged; otherwise count rises by one; other IPs are untouched; counts stay in 1..30 |
| WidgetSearch.Expired | server/routes/api/widget/search.js:22 | a window has ended once the clock is strictly past its reset time |
| WidgetSearch.OutcomesWithinWindow | server/routes/api/widget/search.js:20-36 | inside a window holding `c` requests, the i-th further request is admitted iff `c + i < 30` |
| WidgetSearch.ThirtyPerWindow | server/routes/api/widget/search.js:8-36 | of the requests in one window, exactly the first 30 are admitted |
| WidgetSearch.Swept | server/routes/api/widget/search.js:40-47 | an entry survives the sweep iff its window has not ended, unchanged |
| WidgetSearch.RateLimiter.constructor | server/routes/api/widget/search.js:7 | the table starts empty |
| WidgetSearch.RateLimiter.RateLimit | server/routes/api/widget/search.js:11-37 | updates the table and admits exactly as `Admit` says, keeping counts in 1..30 |
| WidgetSearch.RateLimiter.Cleanup | server/routes/api/widget/search.js:40-47 | the loop leaves exactly the entries whose window has not ended |
| WidgetSearch.WidgetLimit | server/routes/api/widget/search.js:82 | limit at most 20, default 10 |
| WidgetSearch.OfferCount | server/routes/api/widget/search.js:98 | the count is the offers' length, or 0 |
| WidgetSearch.HandleWidgetSearch | server/routes/api/widget/search.js:63-109 | 400 with no call iff the query is invalid; otherwise a global-only search capped at 20, with offers, count and instructions defaulted |
| WidgetSearch.WidgetSearchRoute | server/routes/api/widget/search.js:63 | the limiter counts every request; a rejected one gets 429 and makes no call |

## Left out

- **I/O.** The HTTP framework, `fetch`, the GraphQL client, session lookup and logging are not modelled.
  - Their results are parameters: the session's shop name, the upstream replies and `now`.
  - When `setInterval` runs the sweep is not modelled; the sweep itself is `Cleanup`.
- **Credentials and error text.** Environment variables and the client credentials in the token request body are not modelled. Neither are the text of error messages and the `NODE_ENV` choice of the widget's 500 message.
  - Errors are constructors that name their cause.
- **Concurrency.** Interleaving of concurrent requests is not modelled.
  - The code awaits the two searches one after the other, and the model follows the code.
  - The code has no single-flight guard on token refresh, so none is modelled.
  - The property that two calls within the margin make one token request is proved for sequential calls.
- **Numbers.** Numbers are integers.
  - `parseFloat` of a price is a parameter, and `None` stands for NaN.
  - A NaN token expiry is `None`.
  - Catalog.ExpiresInSeconds: treats a truthy string or array `expires_in` as NaN, although JavaScript would coerce a numeric string such as `"3600"`.
- **Malformed bodies.** Non-numeric `limit` or prices, a `null` price bound, a non-string `upid` in `POST /details`, and malformed `product_options` are not modelled.
  - Body fields are typed.
- **Strings.** Strings are sequences of code points. JavaScript `length` counts UTF-16 code units, so an offer string outside the Basic Multilingual Plane would be counted differently.
- **JSON output.** Key order and the serialised form of responses are not modelled. A response is a datatype.
- **Product lists.** A normalised product's `products` list always has one element in the source; it is the field `entry`.
- **Currency.** `currencyCode` is copied from upstream as the code does. No `USD` default is applied.
- **Global offers.** Offers are passed through as the catalog returns them, as the code does. They are not normalised.
- ProductsRoute.SelectVariant: the source assigns `selectedProductVariant` in place inside the product it just fetched. The model returns the updated product instead. No other reference to that product exists, so nothing observable is lost.
- **Clock reads.** The source reads `Date.now()` separately for the freshness test, for the new token expiry and for the JSON-RPC id, with awaits in between. The model uses one `now` for a whole operation, so it does not capture time passing during the token request.
- **Nested page caps.** The caps of 5 images and 10 variants (search) and 10 images and 50 variants (detail) are part of the modelled requests. That the API honours them is an assumption of the two cap lemmas, not something the model enforces.
- **Sort internals.** The order in which the engine's sort calls the comparator is not modelled. Only the result is, plus the failure when the comparator reads a `null` offer.
