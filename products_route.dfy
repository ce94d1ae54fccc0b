/** The product-detail routes of server/routes/api/products.js: `GET /:upid` and
    `POST /details`. Both reject an empty id, then look the product up in the tenant catalog
    (scope `'shop'`, with the raw id) or in the global catalog (any other scope, with the id
    passed through `extractUpid`). For a tenant product, `POST /details` also selects the first
    variant that satisfies every requested `{key, values}` constraint.

    The lookups are modelled in the Catalog and ShopProducts modules; here their outcomes are
    inputs, and each handler reports the lookup it makes. */
module ProductsRoute {
  import opened Wrappers
  import opened JsValues
  import Catalog
  import opened ShopProducts

  const DefaultScope := "global"

  datatype DetailCall =
    | ShopDetail(productId: string)
    | GlobalDetail(upid: string, options: seq<OptionFilter>)

  datatype DetailProduct = TenantProduct(product: ShopProduct) | CatalogProduct(raw: Option<JsValue>)

  /** 400, 500 with the error thrown, or 200 with the product. */
  datatype DetailResponse = BadRequest | Failed(error: Error) | Found(product: DetailProduct)

  datatype Handled = Handled(call: Option<DetailCall>, response: DetailResponse)

  // ---------------------------------------------------------------------------------------
  // Variant constraints

  /** `variant.options.find(opt => opt.name === key)` */
  function FirstOptionNamed(options: seq<SelectedOption>, key: string): (r: Option<SelectedOption>)
    ensures r.None? <==> forall i :: 0 <= i < |options| ==> options[i].name != key
    ensures r.Some? ==> exists i :: 0 <= i < |options| && options[i] == r.value && r.value.name == key
                                  && forall j :: 0 <= j < i ==> options[j].name != key
  {
    if options == [] then None
    else if options[0].name == key then Some(options[0])
    else
      var r := FirstOptionNamed(options[1..], key);
      assert r.Some? ==> exists i :: 1 <= i < |options| && options[i] == r.value
                                   && forall j :: 0 <= j < i ==> options[j].name != key by {
        if r.Some? {
          var i' :| 0 <= i' < |options[1..]| && options[1..][i'] == r.value && r.value.name == key
                    && forall j :: 0 <= j < i' ==> options[1..][j].name != key;
          assert options[i' + 1] == r.value;
          assert forall j :: 0 <= j < i' + 1 ==> options[j].name != key by {
            forall j | 0 <= j < i' + 1 ensures options[j].name != key {
              if j > 0 { assert options[j] == options[1..][j - 1]; }
            }
          }
        }
      }
      r
  }

  /** The first option of `v` named `f.key` exists and its value is one of `f.values`. */
  predicate SatisfiesFilter(v: Variant, f: OptionFilter) {
    var o := FirstOptionNamed(v.options, f.key);
    o.Some? && o.value.value in f.values
  }

  /** `product_options.every(...)`: options the constraints do not mention are ignored. */
  predicate Satisfies(v: Variant, filters: seq<OptionFilter>) {
    filters == [] || (SatisfiesFilter(v, filters[0]) && Satisfies(v, filters[1..]))
  }

  lemma {:induction false} SatisfiesEvery(v: Variant, filters: seq<OptionFilter>)
    ensures Satisfies(v, filters) <==> forall i :: 0 <= i < |filters| ==> SatisfiesFilter(v, filters[i])
  {
    if filters != [] {
      SatisfiesEvery(v, filters[1..]);
      assert forall i :: 1 <= i < |filters| ==> filters[i] == filters[1..][i - 1];
    }
  }

  /** `variants.filter(...)`: the satisfying variants in list order. */
  function MatchingVariants(vs: seq<Variant>, filters: seq<OptionFilter>): (r: seq<Variant>)
    ensures forall i :: 0 <= i < |r| ==> Satisfies(r[i], filters)
    ensures forall v :: v in r ==> v in vs
  {
    if vs == [] then []
    else if Satisfies(vs[0], filters) then [vs[0]] + MatchingVariants(vs[1..], filters)
    else MatchingVariants(vs[1..], filters)
  }

  /** The filter keeps every satisfying variant, so it is empty exactly when none satisfies,
      and its first element is the first satisfying variant of the list. */
  lemma {:induction false} MatchingHeadIsFirst(vs: seq<Variant>, filters: seq<OptionFilter>)
    ensures forall i :: 0 <= i < |vs| && Satisfies(vs[i], filters) ==> vs[i] in MatchingVariants(vs, filters)
    ensures MatchingVariants(vs, filters) == [] <==> forall i :: 0 <= i < |vs| ==> !Satisfies(vs[i], filters)
    ensures MatchingVariants(vs, filters) != [] ==>
      exists i :: 0 <= i < |vs| && vs[i] == MatchingVariants(vs, filters)[0]
                  && forall j :: 0 <= j < i ==> !Satisfies(vs[j], filters)
  {
    if vs != [] {
      var rest := vs[1..];
      MatchingHeadIsFirst(rest, filters);
      assert forall i :: 1 <= i < |vs| ==> vs[i] == rest[i - 1];
      if !Satisfies(vs[0], filters) && MatchingVariants(rest, filters) != [] {
        var i' :| 0 <= i' < |rest| && rest[i'] == MatchingVariants(rest, filters)[0]
                  && forall j :: 0 <= j < i' ==> !Satisfies(rest[j], filters);
        assert vs[i' + 1] == MatchingVariants(vs, filters)[0];
        assert forall j :: 0 <= j < i' + 1 ==> !Satisfies(vs[j], filters) by {
          forall j | 0 <= j < i' + 1 ensures !Satisfies(vs[j], filters) {
            if j > 0 { assert vs[j] == rest[j - 1]; }
          }
        }
      }
    }
  }

  /** The product `POST /details` answers with for a tenant product: with constraints and a
      satisfying variant, the first such variant is recorded as the selection together with
      the constraints; otherwise the product is unchanged. Nothing but the selection changes. */
  function SelectVariant(p: ShopProduct, filters: seq<OptionFilter>): (r: ShopProduct)
    ensures r.entry.variants == p.entry.variants
    ensures r == p.(entry := r.entry) && r.entry == p.entry.(selectedProductVariant := r.entry.selectedProductVariant)
    ensures |filters| == 0 || (forall i :: 0 <= i < |p.entry.variants| ==> !Satisfies(p.entry.variants[i], filters))
            ==> r == p
    ensures r != p ==>
      && r.entry.selectedProductVariant.Matched?
      && r.entry.selectedProductVariant.requestedFilters == filters
      && exists i :: 0 <= i < |p.entry.variants|
                     && p.entry.variants[i] == r.entry.selectedProductVariant.variant
                     && Satisfies(p.entry.variants[i], filters)
                     && forall j :: 0 <= j < i ==> !Satisfies(p.entry.variants[j], filters)
    ensures |filters| > 0 && (exists i :: 0 <= i < |p.entry.variants| && Satisfies(p.entry.variants[i], filters)) ==>
      && r.entry.selectedProductVariant.Matched?
      && r.entry.selectedProductVariant.requestedFilters == filters
      && exists i :: 0 <= i < |p.entry.variants|
                     && p.entry.variants[i] == r.entry.selectedProductVariant.variant
                     && Satisfies(p.entry.variants[i], filters)
                     && forall j :: 0 <= j < i ==> !Satisfies(p.entry.variants[j], filters)
  {
    if |filters| > 0 then
      var matching := MatchingVariants(p.entry.variants, filters);
      MatchingHeadIsFirst(p.entry.variants, filters);
      if |matching| > 0 then
        p.(entry := p.entry.(selectedProductVariant := Matched(matching[0], filters)))
      else p
    else p
  }

  /** A product whose variants are (Red, S), (Blue, M), (Red, M), asked for color Red, gets
      (Red, S) selected; asked for color Green, it is returned unchanged. */
  lemma FirstRedVariantSelected(p: ShopProduct, red: Variant, blue: Variant, redM: Variant)
    requires red.options == [SelectedOption("Color", "Red"), SelectedOption("Size", "S")]
    requires blue.options == [SelectedOption("Color", "Blue"), SelectedOption("Size", "M")]
    requires redM.options == [SelectedOption("Color", "Red"), SelectedOption("Size", "M")]
    requires p.entry.variants == [red, blue, redM]
    ensures var filters := [OptionFilter("Color", ["Red"])];
      SelectVariant(p, filters) == p.(entry := p.entry.(selectedProductVariant := Matched(red, filters)))
    ensures SelectVariant(p, [OptionFilter("Color", ["Green"])]) == p
  {
    var filters := [OptionFilter("Color", ["Red"])];
    assert FirstOptionNamed(red.options, "Color") == Some(SelectedOption("Color", "Red"));
    assert Satisfies(red, filters);
    var green := [OptionFilter("Color", ["Green"])];
    assert FirstOptionNamed(blue.options, "Color") == Some(SelectedOption("Color", "Blue"));
    assert FirstOptionNamed(redM.options, "Color") == Some(SelectedOption("Color", "Red"));
    assert !SatisfiesFilter(red, green[0]) && !SatisfiesFilter(blue, green[0]) && !SatisfiesFilter(redM, green[0]);
  }

  // ---------------------------------------------------------------------------------------
  // Handlers

  /** The lookup both handlers make for a non-empty id. */
  function DetailCallFor(upid: string, scope: string, options: seq<OptionFilter>): (c: DetailCall)
    requires upid != ""
    ensures scope == "shop" ==> c == ShopDetail(upid)
    ensures scope != "shop" ==> c.GlobalDetail? && c.options == options && c.upid != ""
                                && c.upid == Catalog.ExtractUpid(upid).value
  {
    if scope == "shop" then ShopDetail(upid) else GlobalDetail(Catalog.ExtractUpid(upid).value, options)
  }

  /** `GET /:upid` with the `scope` query parameter; the catalog lookup gets no options. */
  function GetProduct(upid: string, scope: Option<string>,
                      shopOutcome: Result<ShopProduct, Error>,
                      globalOutcome: Result<Option<JsValue>, Error>): (h: Handled)
    ensures upid == "" <==> h.response == BadRequest
    ensures upid == "" ==> h.call.None?
    ensures upid != "" ==> h.call == Some(DetailCallFor(upid, scope.GetOr(DefaultScope), []))
    ensures upid != "" && scope == Some("shop") ==>
      h.response == (if shopOutcome.Ok? then Found(TenantProduct(shopOutcome.value)) else Failed(shopOutcome.error))
    ensures upid != "" && scope != Some("shop") ==>
      h.response == (if globalOutcome.Ok? then Found(CatalogProduct(globalOutcome.value)) else Failed(globalOutcome.error))
  {
    if upid == "" then Handled(None, BadRequest)
    else
      var s := scope.GetOr(DefaultScope);
      var call := DetailCallFor(upid, s, []);
      if s == "shop" then
        Handled(Some(call), if shopOutcome.Ok? then Found(TenantProduct(shopOutcome.value)) else Failed(shopOutcome.error))
      else
        Handled(Some(call), if globalOutcome.Ok? then Found(CatalogProduct(globalOutcome.value)) else Failed(globalOutcome.error))
  }

  /** `POST /details` with `upid`, `product_options` (default `[]`) and `scope` from the body. */
  function GetProductWithOptions(upid: Option<string>, options: seq<OptionFilter>, scope: Option<string>,
                                 shopOutcome: Result<ShopProduct, Error>,
                                 globalOutcome: Result<Option<JsValue>, Error>): (h: Handled)
    ensures upid.None? || upid == Some("") <==> h.response == BadRequest
    ensures h.response == BadRequest ==> h.call.None?
    ensures upid.Some? && upid.value != "" ==>
      h.call == Some(DetailCallFor(upid.value, scope.GetOr(DefaultScope), options))
    ensures upid.Some? && upid.value != "" && scope == Some("shop") ==>
      h.response == (if shopOutcome.Ok? then Found(TenantProduct(SelectVariant(shopOutcome.value, options)))
                     else Failed(shopOutcome.error))
    ensures upid.Some? && upid.value != "" && scope != Some("shop") ==>
      h.response == (if globalOutcome.Ok? then Found(CatalogProduct(globalOutcome.value)) else Failed(globalOutcome.error))
  {
    if upid.None? || upid.value == "" then Handled(None, BadRequest)
    else
      var s := scope.GetOr(DefaultScope);
      var call := DetailCallFor(upid.value, s, options);
      if s == "shop" then
        Handled(Some(call), if shopOutcome.Ok? then Found(TenantProduct(SelectVariant(shopOutcome.value, options)))
                            else Failed(shopOutcome.error))
      else
        Handled(Some(call), if globalOutcome.Ok? then Found(CatalogProduct(globalOutcome.value)) else Failed(globalOutcome.error))
  }
}
