/** The tenant-catalog client of server/services/shopProductService.js: it builds the search
    predicate and page size sent to the shop's GraphQL API, filters the fetched products by
    price locally, and maps every GraphQL product node to the canonical product shape shared
    with the global catalog. The GraphQL call and the session lookup are inputs: the session's
    shop domain (or none) and the reply the API gave to the request the model says it sends. */
module ShopProducts {
  import opened Wrappers
  import opened JsValues

  // ---------------------------------------------------------------------------------------
  // What the tenant GraphQL API returns (edges already flattened to their nodes)

  datatype MoneyNode = MoneyNode(amount: string, currencyCode: string)
  datatype ImageNode = ImageNode(url: string, altText: Option<string>)
  datatype SelectedOption = SelectedOption(name: string, value: string)
  datatype VariantNode = VariantNode(
    id: string, title: string, price: string, availableForSale: bool,
    selectedOptions: seq<SelectedOption>, image: Option<ImageNode>)
  datatype OptionNode = OptionNode(name: string, values: seq<string>)
  /** A product node. `options` is only requested by the detail query; search ignores it. */
  datatype ProductNode = ProductNode(
    id: string, title: string, description: Option<string>, featuredImage: Option<ImageNode>,
    images: seq<ImageNode>, minVariantPrice: MoneyNode, maxVariantPrice: MoneyNode,
    variants: seq<VariantNode>, onlineStoreUrl: Option<string>, tags: seq<string>,
    options: seq<OptionNode>)

  // ---------------------------------------------------------------------------------------
  // The canonical product shape

  datatype Money = Money(amount: string, currencyCode: string)
  datatype PriceRange = PriceRange(min: Money, max: Money)
  datatype Image = Image(url: string, altText: string)
  datatype ShopInfo = ShopInfo(name: string, onlineStoreUrl: string)
  datatype ImageOwner = ImageOwner(id: string, title: string, onlineStoreUrl: Option<string>, shop: ShopInfo)
  datatype ProductImage = ProductImage(url: string, altText: string, product: ImageOwner)
  datatype ShopRef = ShopRef(name: string, onlineStoreUrl: string, id: string)
  datatype Variant = Variant(
    id: string, title: string, price: string, availableForSale: bool,
    options: seq<SelectedOption>, image: Option<Image>)
  datatype OptionValue = OptionValue(value: string, availableForSale: bool, isDeclared: bool)
  datatype ProductOption = ProductOption(name: string, values: seq<OptionValue>)

  /** The `selectedProductVariant` field of a product entry. */
  datatype VariantSelection =
    | NotSelected          // no such key (detail lookups)
    | NoVariant            // null (a search result without variants)
    | FirstVariant(id: string, availableForSale: bool, options: seq<SelectedOption>,
                   price: Money, image: Option<Image>)
    | Matched(variant: Variant, requestedFilters: seq<OptionFilter>)  // selectionState type 'match'

  /** The single element of a product's `products` list. */
  datatype Entry = Entry(
    id: string, title: string, description: string, featuredImage: Option<Image>,
    onlineStoreUrl: Option<string>, price: Money, availableForSale: bool, shop: ShopRef,
    selectedProductVariant: VariantSelection, variants: seq<Variant>)

  /** A normalised tenant product. `options` is only present on detail lookups. */
  datatype ShopProduct = ShopProduct(
    id: string, title: string, description: string, images: seq<ProductImage>,
    options: Option<seq<ProductOption>>, priceRange: PriceRange, entry: Entry,
    availableForSale: bool, tags: seq<string>, scope: string)

  // ---------------------------------------------------------------------------------------
  // Requests and replies

  /** Nested page sizes written into the two GraphQL documents. */
  const SearchImages := 5
  const SearchVariants := 10
  const DetailImages := 10
  const DetailVariants := 50
  const MaxPageSize := 50
  const DefaultLimit := 10

  datatype SearchOptions = SearchOptions(
    query: Option<string>, limit: Option<int>, minPrice: Option<int>, maxPrice: Option<int>)

  /** The search query as sent: its variables (the search predicate and `first`) and the
      nested page sizes of images and variants written into the document. */
  datatype SearchRequest = SearchRequest(query: string, first: int, images: int, variants: int)

  /** The detail query as sent: its `id` variable and the nested page sizes. */
  datatype DetailRequest = DetailRequest(id: string, images: int, variants: int)

  datatype SearchReply = SearchRejected | SearchAnswered(nodes: seq<ProductNode>)
  datatype DetailReply = DetailRejected | DetailAnswered(product: Option<ProductNode>)

  /** What an operation sent upstream (if it got that far) and what it returned or threw. */
  datatype Exchange<Q, R> = Exchange(sent: Option<Q>, result: Result<R, Error>)

  // ---------------------------------------------------------------------------------------
  // Search request

  /** `query || ''` */
  function QueryText(query: Option<string>): (r: string)
    ensures query.Some? ==> r == query.value
    ensures query.None? ==> r == ""
  {
    query.GetOr("")
  }

  /** The search predicate sent upstream: the query (default empty) as a wildcard on title,
      description and tags. Price bounds are applied after the fetch, so the predicate depends
      on the query alone; the source builds the same string on both branches. */
  function UpstreamQuery(opts: SearchOptions): (r: string)
    ensures var q := QueryText(opts.query);
      r == "title:*" + q + "* OR description:*" + q + "* OR tags:*" + q + "*"
  {
    var q := QueryText(opts.query);
    if opts.minPrice.Some? || opts.maxPrice.Some? then
      "title:*" + q + "* OR description:*" + q + "* OR tags:*" + q + "*"
    else
      "title:*" + q + "* OR description:*" + q + "* OR tags:*" + q + "*"
  }

  /** Price bounds do not reach the upstream predicate: it is the same with and without them. */
  lemma UpstreamQueryIgnoresBounds(opts: SearchOptions, minPrice: Option<int>, maxPrice: Option<int>)
    ensures UpstreamQuery(opts.(minPrice := minPrice, maxPrice := maxPrice)) == UpstreamQuery(opts)
  {
  }

  /** `Math.min(limit, 50)` with `limit` defaulting to 10. */
  function PageSize(limit: Option<int>): (r: int)
    ensures r <= MaxPageSize
    ensures limit.None? ==> r == DefaultLimit
    ensures limit.Some? ==> r == limit.value || (r == MaxPageSize && limit.value > MaxPageSize)
  {
    var l := limit.GetOr(DefaultLimit);
    if l < MaxPageSize then l else MaxPageSize
  }

  // ---------------------------------------------------------------------------------------
  // Local price filter

  /** The filter's test. `price` is `parseFloat` in one integer unit; `None` is NaN, which
      compares false with everything and so never drops a product. */
  predicate WithinBounds(p: ProductNode, minPrice: Option<int>, maxPrice: Option<int>,
                         price: string -> Option<int>)
  {
    var lo := price(p.minVariantPrice.amount);
    var hi := price(p.maxVariantPrice.amount);
    && !(minPrice.Some? && hi.Some? && hi.value < minPrice.value)
    && !(maxPrice.Some? && lo.Some? && lo.value > maxPrice.value)
  }

  /** `a` is `b` with some elements left out, in the same order. */
  predicate IsSubsequence<T(==)>(a: seq<T>, b: seq<T>)
    decreases |b|
  {
    if a == [] then true
    else if b == [] then false
    else (a[0] == b[0] && IsSubsequence(a[1..], b[1..])) || IsSubsequence(a, b[1..])
  }

  function FilterByPrice(nodes: seq<ProductNode>, minPrice: Option<int>, maxPrice: Option<int>,
                         price: string -> Option<int>): (r: seq<ProductNode>)
    ensures IsSubsequence(r, nodes)
    ensures forall p :: p in r <==> p in nodes && WithinBounds(p, minPrice, maxPrice, price)
    ensures forall p :: multiset(r)[p] == (if WithinBounds(p, minPrice, maxPrice, price) then multiset(nodes)[p] else 0)
  {
    if nodes == [] then []
    else
      var rest := FilterByPrice(nodes[1..], minPrice, maxPrice, price);
      assert nodes == [nodes[0]] + nodes[1..];
      if WithinBounds(nodes[0], minPrice, maxPrice, price) then [nodes[0]] + rest else rest
  }

  predicate InRange(x: int, lo: int, hi: int) {
    lo <= x <= hi
  }

  /** With both bounds given and both prices numeric, a product is kept exactly when its
      variant price range meets the requested range. */
  lemma PriceFilterIsOverlap(p: ProductNode, minPrice: int, maxPrice: int, price: string -> Option<int>)
    requires price(p.minVariantPrice.amount).Some? && price(p.maxVariantPrice.amount).Some?
    requires price(p.minVariantPrice.amount).value <= price(p.maxVariantPrice.amount).value
    requires minPrice <= maxPrice
    ensures WithinBounds(p, Some(minPrice), Some(maxPrice), price) <==>
      exists x :: InRange(x, price(p.minVariantPrice.amount).value, price(p.maxVariantPrice.amount).value)
                  && InRange(x, minPrice, maxPrice)
  {
    var lo := price(p.minVariantPrice.amount).value;
    var hi := price(p.maxVariantPrice.amount).value;
    if WithinBounds(p, Some(minPrice), Some(maxPrice), price) {
      var x := if lo < minPrice then minPrice else lo;
      assert InRange(x, lo, hi) && InRange(x, minPrice, maxPrice);
    }
  }

  /** Without bounds the filter keeps every product. */
  lemma {:induction false} NoBoundsKeepsAll(nodes: seq<ProductNode>, price: string -> Option<int>)
    ensures FilterByPrice(nodes, None, None, price) == nodes
  {
    if nodes != [] {
      NoBoundsKeepsAll(nodes[1..], price);
    }
  }

  // ---------------------------------------------------------------------------------------
  // Normalisation

  /** `altText || title`: a missing or empty alt text falls back to the title. */
  function AltText(alt: Option<string>, title: string): (r: string)
    ensures alt.Some? && alt.value != "" ==> r == alt.value
    ensures alt.None? || alt.value == "" ==> r == title
  {
    if alt.Some? && alt.value != "" then alt.value else title
  }

  function ImageOf(n: Option<ImageNode>, title: string): (r: Option<Image>)
    ensures r.Some? <==> n.Some?
    ensures r.Some? ==> r.value.url == n.value.url
    ensures r.Some? ==> r.value.altText == AltText(n.value.altText, title)
    ensures r.Some? && n.value.altText.Some? && n.value.altText.value != "" ==> r.value.altText == n.value.altText.value
    ensures r.Some? && (n.value.altText.None? || n.value.altText.value == "") ==> r.value.altText == title
  {
    match n
    case None => None
    case Some(img) => Some(Image(img.url, AltText(img.altText, title)))
  }

  function ShopUrl(shop: string): string {
    "https://" + shop
  }

  function ShopGid(shop: string): string {
    "gid://shopify/Shop/" + shop
  }

  /** `some(edge => edge.node.availableForSale)` */
  function AnyAvailable(vs: seq<VariantNode>): (b: bool)
    ensures b <==> exists i :: 0 <= i < |vs| && vs[i].availableForSale
  {
    if vs == [] then false
    else vs[0].availableForSale || (assert forall i :: 1 <= i < |vs| ==> vs[1..][i - 1] == vs[i];
                                    AnyAvailable(vs[1..]))
  }

  function ProductImages(nodes: seq<ImageNode>, p: ProductNode, shop: string): (r: seq<ProductImage>)
    ensures |r| == |nodes|
    ensures forall i :: 0 <= i < |r| ==>
      && r[i].url == nodes[i].url
      && r[i].altText == AltText(nodes[i].altText, p.title)
      && r[i].product == ImageOwner(p.id, p.title, p.onlineStoreUrl, ShopInfo(shop, ShopUrl(shop)))
  {
    if nodes == [] then []
    else
      [ProductImage(nodes[0].url, AltText(nodes[0].altText, p.title),
                    ImageOwner(p.id, p.title, p.onlineStoreUrl, ShopInfo(shop, ShopUrl(shop))))]
      + ProductImages(nodes[1..], p, shop)
  }

  function Variants(nodes: seq<VariantNode>, title: string): (r: seq<Variant>)
    ensures |r| == |nodes|
    ensures forall i :: 0 <= i < |r| ==>
      && r[i].id == nodes[i].id && r[i].title == nodes[i].title
      && r[i].price == nodes[i].price && r[i].availableForSale == nodes[i].availableForSale
      && r[i].options == nodes[i].selectedOptions && r[i].image == ImageOf(nodes[i].image, title)
  {
    if nodes == [] then []
    else
      var v := nodes[0];
      [Variant(v.id, v.title, v.price, v.availableForSale, v.selectedOptions, ImageOf(v.image, title))]
      + Variants(nodes[1..], title)
  }

  /** Every declared option value is reported available and existing. */
  function ProductOptions(nodes: seq<OptionNode>): (r: seq<ProductOption>)
    ensures |r| == |nodes|
    ensures forall i :: 0 <= i < |r| ==>
      && r[i].name == nodes[i].name && |r[i].values| == |nodes[i].values|
      && forall j :: 0 <= j < |r[i].values| ==>
           r[i].values[j] == OptionValue(nodes[i].values[j], true, true)
  {
    if nodes == [] then []
    else
      var o := nodes[0];
      [ProductOption(o.name, seq(|o.values|, j requires 0 <= j < |o.values| => OptionValue(o.values[j], true, true)))]
      + ProductOptions(nodes[1..])
  }

  /** The `selectedProductVariant` of a search result: the first variant, or null. */
  function FirstVariantOf(p: ProductNode): (r: VariantSelection)
    ensures p.variants == [] <==> r == NoVariant
    ensures p.variants != [] ==>
      && r.FirstVariant? && r.id == p.variants[0].id
      && r.availableForSale == p.variants[0].availableForSale
      && r.options == p.variants[0].selectedOptions
      && r.price == Money(p.variants[0].price, p.minVariantPrice.currencyCode)
      && r.image == ImageOf(p.variants[0].image, p.title)
  {
    if p.variants == [] then NoVariant
    else
      var v := p.variants[0];
      FirstVariant(v.id, v.availableForSale, v.selectedOptions,
                   Money(v.price, p.minVariantPrice.currencyCode), ImageOf(v.image, p.title))
  }

  /** What a normalised tenant product says about the node it came from: scope, ids, title,
      tags, description (default empty), the shop reference, availability iff some variant is
      available (on the product and on its entry), the images with their owner and defaulted
      alt text, the variants with their options and images, the price range and the
      featured image. */
  predicate Describes(r: ShopProduct, p: ProductNode, shop: string) {
    && r.scope == "shop" && r.id == p.id && r.title == p.title && r.tags == p.tags
    && r.description == r.entry.description == (if p.description.Some? then p.description.value else "")
    && r.entry.id == p.id && r.entry.title == p.title && r.entry.onlineStoreUrl == p.onlineStoreUrl
    && r.entry.shop == ShopRef(shop, "https://" + shop, "gid://shopify/Shop/" + shop)
    && r.availableForSale == r.entry.availableForSale
    && (r.availableForSale <==> exists i :: 0 <= i < |p.variants| && p.variants[i].availableForSale)
    && r.images == ProductImages(p.images, p, shop)
    && r.entry.variants == Variants(p.variants, p.title)
    && r.priceRange == PriceRange(Money(p.minVariantPrice.amount, p.minVariantPrice.currencyCode),
                                  Money(p.maxVariantPrice.amount, p.maxVariantPrice.currencyCode))
    && r.entry.price == r.priceRange.min
    && r.entry.featuredImage == ImageOf(p.featuredImage, p.title)
  }

  /** The mapping shared by search and detail lookup. */
  function Normalize(p: ProductNode, shop: string, options: Option<seq<ProductOption>>,
                     selection: VariantSelection): (r: ShopProduct)
    ensures r.scope == "shop" && r.id == p.id && r.title == p.title && r.tags == p.tags
    ensures r.description == r.entry.description == (if p.description.Some? then p.description.value else "")
    ensures r.entry.shop == ShopRef(shop, "https://" + shop, "gid://shopify/Shop/" + shop)
    ensures r.availableForSale == r.entry.availableForSale
    ensures r.availableForSale <==> exists i :: 0 <= i < |p.variants| && p.variants[i].availableForSale
    ensures p.variants == [] ==> !r.availableForSale
    ensures |r.images| == |p.images|
    ensures forall i :: 0 <= i < |r.images| ==>
      r.images[i].url == p.images[i].url && r.images[i].product.shop == ShopInfo(shop, "https://" + shop)
    ensures |r.entry.variants| == |p.variants|
    ensures forall i :: 0 <= i < |p.variants| ==>
      && r.entry.variants[i].id == p.variants[i].id
      && r.entry.variants[i].price == p.variants[i].price
      && r.entry.variants[i].availableForSale == p.variants[i].availableForSale
    ensures r.priceRange.min == r.entry.price == Money(p.minVariantPrice.amount, p.minVariantPrice.currencyCode)
    ensures r.priceRange.max == Money(p.maxVariantPrice.amount, p.maxVariantPrice.currencyCode)
    ensures r.entry.featuredImage == ImageOf(p.featuredImage, p.title)
    ensures r.options == options && r.entry.selectedProductVariant == selection
    ensures Describes(r, p, shop)
  {
    var description := if p.description.Some? then p.description.value else "";
    var available := AnyAvailable(p.variants);
    var min := Money(p.minVariantPrice.amount, p.minVariantPrice.currencyCode);
    var max := Money(p.maxVariantPrice.amount, p.maxVariantPrice.currencyCode);
    ShopProduct(
      p.id, p.title, description, ProductImages(p.images, p, shop), options, PriceRange(min, max),
      Entry(p.id, p.title, description, ImageOf(p.featuredImage, p.title), p.onlineStoreUrl, min,
            available, ShopRef(shop, ShopUrl(shop), ShopGid(shop)), selection,
            Variants(p.variants, p.title)),
      available, p.tags, "shop")
  }

  /** A search result: no option list, the first variant (or null) as the selection. */
  function NormalizeSearchNode(p: ProductNode, shop: string): (r: ShopProduct)
    ensures r.scope == "shop" && r.options.None?
    ensures r.entry.selectedProductVariant == FirstVariantOf(p)
    ensures Describes(r, p, shop)
  {
    Normalize(p, shop, None, FirstVariantOf(p))
  }

  /** A detail result: the declared options, and no selection. */
  function NormalizeDetailNode(p: ProductNode, shop: string): (r: ShopProduct)
    ensures r.scope == "shop" && r.options == Some(ProductOptions(p.options))
    ensures r.entry.selectedProductVariant == NotSelected
    ensures Describes(r, p, shop)
  {
    Normalize(p, shop, Some(ProductOptions(p.options)), NotSelected)
  }

  /** `products.map(...)`: one result per node, in node order. */
  function NormalizeAll(nodes: seq<ProductNode>, shop: string): (r: seq<ShopProduct>)
    ensures |r| == |nodes|
    ensures forall i :: 0 <= i < |r| ==> r[i] == NormalizeSearchNode(nodes[i], shop)
  {
    if nodes == [] then [] else [NormalizeSearchNode(nodes[0], shop)] + NormalizeAll(nodes[1..], shop)
  }

  // ---------------------------------------------------------------------------------------
  // The two operations

  predicate HasBounds(opts: SearchOptions) {
    opts.minPrice.Some? || opts.maxPrice.Some?
  }

  /** The nodes that survive the local filter: all of them without bounds. */
  function Kept(opts: SearchOptions, nodes: seq<ProductNode>, price: string -> Option<int>): seq<ProductNode> {
    if HasBounds(opts) then FilterByPrice(nodes, opts.minPrice, opts.maxPrice, price) else nodes
  }

  lemma KeptIsSubsequence(opts: SearchOptions, nodes: seq<ProductNode>, price: string -> Option<int>)
    ensures IsSubsequence(Kept(opts, nodes, price), nodes)
    ensures !HasBounds(opts) ==> Kept(opts, nodes, price) == nodes
  {
    if !HasBounds(opts) {
      NoBoundsKeepsAll(nodes, price);
    }
  }

  /** `searchShopProducts`: session check, request, local price filter, normalisation. */
  function SearchShopProducts(opts: SearchOptions, session: Option<string>, reply: SearchReply,
                              price: string -> Option<int>): (x: Exchange<SearchRequest, seq<ShopProduct>>)
    ensures session.None? ==> x == Exchange(None, Err(ShopSearchFailed(SessionNotFound)))
    ensures session.Some? ==>
      x.sent == Some(SearchRequest(UpstreamQuery(opts), PageSize(opts.limit), SearchImages, SearchVariants))
    ensures session.Some? && reply.SearchRejected? ==> x.result == Err(ShopSearchFailed(NetworkError))
    ensures session.Some? && reply.SearchAnswered? ==>
      && x.result.Ok?
      && x.result.value == NormalizeAll(Kept(opts, reply.nodes, price), session.value)
      && IsSubsequence(Kept(opts, reply.nodes, price), reply.nodes)
      && (!HasBounds(opts) ==> |x.result.value| == |reply.nodes|)
      && forall i :: 0 <= i < |x.result.value| ==>
           x.result.value[i].scope == "shop" && x.result.value[i].entry.shop.name == session.value
  {
    if session.None? then Exchange(None, Err(ShopSearchFailed(SessionNotFound)))
    else
      var request := SearchRequest(UpstreamQuery(opts), PageSize(opts.limit), SearchImages, SearchVariants);
      if reply.SearchRejected? then Exchange(Some(request), Err(ShopSearchFailed(NetworkError)))
      else
        KeptIsSubsequence(opts, reply.nodes, price);
        Exchange(Some(request), Ok(NormalizeAll(Kept(opts, reply.nodes, price), session.value)))
  }

  /** `getShopProductDetails`: session check, lookup by id, not-found check, normalisation. */
  function GetShopProductDetails(productId: string, session: Option<string>, reply: DetailReply)
    : (x: Exchange<DetailRequest, ShopProduct>)
    ensures session.None? ==> x == Exchange(None, Err(ShopDetailsFailed(SessionNotFound)))
    ensures session.Some? ==> x.sent == Some(DetailRequest(productId, DetailImages, DetailVariants))
    ensures session.Some? && reply.DetailRejected? ==> x.result == Err(ShopDetailsFailed(NetworkError))
    ensures session.Some? && reply == DetailAnswered(None) ==> x.result == Err(ShopDetailsFailed(ProductNotFound))
    ensures session.Some? && reply.DetailAnswered? && reply.product.Some? ==>
      x.result == Ok(NormalizeDetailNode(reply.product.value, session.value))
  {
    if session.None? then Exchange(None, Err(ShopDetailsFailed(SessionNotFound)))
    else
      var request := DetailRequest(productId, DetailImages, DetailVariants);
      if reply.DetailRejected? then Exchange(Some(request), Err(ShopDetailsFailed(NetworkError)))
      else if reply.product.None? then Exchange(Some(request), Err(ShopDetailsFailed(ProductNotFound)))
      else Exchange(Some(request), Ok(NormalizeDetailNode(reply.product.value, session.value)))
  }

  // ---------------------------------------------------------------------------------------
  // Nested page caps

  /** Every node of a reply holds no more images and variants than the request asked for. */
  predicate WithinCaps(nodes: seq<ProductNode>, images: int, variants: int) {
    forall i :: 0 <= i < |nodes| ==> |nodes[i].images| <= images && |nodes[i].variants| <= variants
  }

  /** When the API honours the nested caps of the search request, each search result lists at
      most 5 images and at most 10 variants, so its `availableForSale` is decided over those
      10 variants only. */
  lemma SearchResultsWithinCaps(opts: SearchOptions, shop: string, nodes: seq<ProductNode>,
                                price: string -> Option<int>)
    requires WithinCaps(nodes, SearchImages, SearchVariants)
    ensures var x := SearchShopProducts(opts, Some(shop), SearchAnswered(nodes), price);
      var req := x.sent.value;
      && WithinCaps(nodes, req.images, req.variants)
      && forall i :: 0 <= i < |x.result.value| ==>
           |x.result.value[i].images| <= SearchImages && |x.result.value[i].entry.variants| <= SearchVariants
  {
    var kept := Kept(opts, nodes, price);
    var r := NormalizeAll(kept, shop);
    forall i | 0 <= i < |r|
      ensures |r[i].images| <= SearchImages && |r[i].entry.variants| <= SearchVariants
    {
      assert kept[i] in nodes;
    }
  }

  /** Likewise for a detail lookup: at most 10 images and 50 variants. */
  lemma DetailWithinCaps(productId: string, shop: string, p: ProductNode)
    requires WithinCaps([p], DetailImages, DetailVariants)
    ensures var x := GetShopProductDetails(productId, Some(shop), DetailAnswered(Some(p)));
      && x.sent.value.images == DetailImages && x.sent.value.variants == DetailVariants
      && |x.result.value.images| <= DetailImages && |x.result.value.entry.variants| <= DetailVariants
  {
    assert [p][0] == p;
  }
}
