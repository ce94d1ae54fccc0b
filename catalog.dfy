/** The global-catalog client of server/services/catalogService.js: a cached bearer token
    obtained with the OAuth 2.0 client-credentials grant (section 4.4 of RFC 6749, lifetime from
    `expires_in`, section 5.1) and refreshed 5 minutes before it expires; JSON-RPC 2.0 request
    objects (section 4 of the JSON-RPC 2.0 specification) calling the `tools/call` method; the
    parameters of the two catalog tools; and the unwrapping of the JSON text the catalog embeds
    in `result.content[0].text`.

    The clock, both HTTP exchanges and `JSON.parse` are inputs: `now` in milliseconds, the reply
    each endpoint gives, and `parse`, which yields `None` where `JSON.parse` throws. Each
    operation reports whether it asked for a token and which catalog request it sent. */
module Catalog {
  import opened Wrappers
  import opened JsValues

  const SafetyMarginMs := 5 * 60 * 1000
  const DefaultExpiresInSeconds := 3600
  const MaxSearchLimit := 50
  const DefaultLimit := 10
  const UpidPrefix := "gid://shopify/p/"
  const SearchTool := "search_global_products"
  const DetailsTool := "get_global_product_details"

  /** An HTTP exchange: fetch rejected, or a status with a body that is JSON (`Some`) or not. */
  datatype HttpReply = Unreachable | Reply(ok: bool, status: int, body: Option<JsValue>)

  // ---------------------------------------------------------------------------------------
  // Token cache

  /** The module-level `bearerToken` and `tokenExpiry`. The token may be `undefined` (a token
      response without `access_token`); an expiry of `None` is null or NaN. */
  datatype TokenCache = TokenCache(token: Option<JsValue>, expiry: Option<int>)

  const EmptyCache := TokenCache(Some(Null), None)

  /** The cached token is used when both are set and `now` is more than the safety margin
      before the expiry. */
  predicate IsFresh(c: TokenCache, now: int) {
    Present(c.token) && c.expiry.Some? && c.expiry.value != 0 && now < c.expiry.value - SafetyMarginMs
  }

  /** `expires_in || 3600` as a number of seconds; `None` where `* 1000` gives NaN. */
  function ExpiresInSeconds(v: Option<JsValue>): (r: Option<int>)
    ensures !Present(v) ==> r == Some(DefaultExpiresInSeconds)
    ensures Present(v) && v.value.Num? ==> r == Some(v.value.n)
    ensures r.Some? ==> r.value != 0
  {
    if !Present(v) then Some(DefaultExpiresInSeconds)
    else match v.value
      case Num(n) => Some(n)
      case Bool(_) => Some(1)
      case _ => None
  }

  /** The cache a successful token response installs, or the error a failed one raises. */
  function IssueToken(reply: HttpReply, now: int): (r: Result<TokenCache, Error>)
    ensures reply.Unreachable? ==> r == Err(TokenUnavailable(NetworkError))
    ensures reply.Reply? && !reply.ok ==> r == Err(TokenUnavailable(TokenRequestFailed(reply.status)))
    ensures reply.Reply? && reply.ok && reply.body.None? ==> r == Err(TokenUnavailable(SyntaxError))
    ensures r.Ok? <==> reply.Reply? && reply.ok && reply.body.Some? && reply.body.value != Null
    ensures r.Ok? ==> var data := reply.body.value;
      && r.value.token == Member(Some(data), "access_token").value
      && var secs := ExpiresInSeconds(Member(Some(data), "expires_in").value);
         r.value.expiry == if secs.Some? then Some(now + secs.value * 1000) else None
  {
    match reply
    case Unreachable => Err(TokenUnavailable(NetworkError))
    case Reply(ok, status, body) =>
      if !ok then Err(TokenUnavailable(TokenRequestFailed(status)))
      else if body.None? then Err(TokenUnavailable(SyntaxError))
      else match Member(body, "access_token")
        case Err(e) => Err(TokenUnavailable(e))
        case Ok(token) =>
          var secs := ExpiresInSeconds(Member(body, "expires_in").value);
          Ok(TokenCache(token, if secs.Some? then Some(now + secs.value * 1000) else None))
  }

  /** The outcome of `getBearerToken`: the new cache, whether a token was requested, and the
      token returned or the error thrown. */
  datatype Acquisition = Acquisition(cache: TokenCache, fetched: bool, result: Result<Option<JsValue>, Error>)

  function Acquire(c: TokenCache, now: int, reply: HttpReply): (a: Acquisition)
    ensures a.fetched <==> !IsFresh(c, now)
    ensures !a.fetched ==> a.cache == c && a.result == Ok(c.token)
    ensures a.result.Err? ==> a.cache == c && a.fetched
    ensures a.fetched && a.result.Ok? ==> IssueToken(reply, now) == Ok(a.cache) && a.result == Ok(a.cache.token)
    ensures a.fetched && IssueToken(reply, now).Ok? ==>
      a.cache == IssueToken(reply, now).value && a.result == Ok(a.cache.token)
    ensures a.fetched && IssueToken(reply, now).Err? ==> a.result == Err(IssueToken(reply, now).error)
  {
    if IsFresh(c, now) then Acquisition(c, false, Ok(c.token))
    else match IssueToken(reply, now)
      case Err(e) => Acquisition(c, true, Err(e))
      case Ok(issued) => Acquisition(issued, true, Ok(issued.token))
  }

  /** After a successful refresh at `t1` with a non-empty token and a lifetime of `secs` seconds,
      every call before `t1 + secs * 1000 - 300000` is served from the cache without a request,
      and the first call from then on requests a new token. */
  lemma RefreshServesUntilMargin(c: TokenCache, t1: int, token: string, secs: int,
                                 t2: int, reply2: HttpReply)
    requires !IsFresh(c, t1) && t1 >= 0 && secs * 1000 > SafetyMarginMs && token != ""
    ensures var reply := Reply(true, 200, Some(Obj(map["access_token" := Str(token), "expires_in" := Num(secs)])));
      var first := Acquire(c, t1, reply);
      var second := Acquire(first.cache, t2, reply2);
      && first.fetched && first.result == Ok(Some(Str(token)))
      && (t2 < t1 + secs * 1000 - SafetyMarginMs ==> !second.fetched && second.result == first.result)
      && (t2 >= t1 + secs * 1000 - SafetyMarginMs ==> second.fetched)
  {
    var reply := Reply(true, 200, Some(Obj(map["access_token" := Str(token), "expires_in" := Num(secs)])));
    assert Member(reply.body, "access_token") == Ok(Some(Str(token)));
    assert Member(reply.body, "expires_in") == Ok(Some(Num(secs)));
    assert IssueToken(reply, t1) == Ok(TokenCache(Some(Str(token)), Some(t1 + secs * 1000)));
  }

  // ---------------------------------------------------------------------------------------
  // The JSON-RPC call

  /** The request body: `{jsonrpc: '2.0', method: 'tools/call', id, params: {name, arguments}}`,
      with the current time as the id. */
  function Envelope(name: string, args: JsValue, id: int): (r: JsValue)
    ensures r.Obj? && r.fields.Keys == {"jsonrpc", "method", "id", "params"}
    ensures r.fields["jsonrpc"] == Str("2.0") && r.fields["method"] == Str("tools/call")
    ensures r.fields["id"] == Num(id)
    ensures r.fields["params"] == Obj(map["name" := Str(name), "arguments" := args])
  {
    Obj(map["jsonrpc" := Str("2.0"), "method" := Str("tools/call"), "id" := Num(id),
            "params" := Obj(map["name" := Str(name), "arguments" := args])])
  }

  /** A catalog request as sent: the bearer token in the Authorization header, and the body. */
  datatype RpcRequest = RpcRequest(bearer: Option<JsValue>, body: JsValue)

  /** What `callCatalogMCP` makes of the catalog's reply: a non-ok status, a body that is not
      JSON, and a body with a truthy `error` field all throw; otherwise the body is returned. */
  function RpcOutcome(reply: HttpReply): (r: Result<JsValue, Error>)
    ensures reply.Unreachable? ==> r == Err(NetworkError)
    ensures reply.Reply? && !reply.ok ==> r == Err(CatalogRequestFailed(reply.status))
    ensures r.Ok? <==> && reply.Reply? && reply.ok && reply.body.Some? && reply.body.value != Null
                       && !Present(Member(reply.body, "error").value)
    ensures r.Ok? ==> r.value == reply.body.value
    ensures reply.Reply? && reply.ok && reply.body.Some? && reply.body.value != Null
            && Present(Member(reply.body, "error").value)
            ==> r == Err(CatalogApiError(Member(reply.body, "error").value.value))
  {
    match reply
    case Unreachable => Err(NetworkError)
    case Reply(ok, status, body) =>
      if !ok then Err(CatalogRequestFailed(status))
      else if body.None? then Err(SyntaxError)
      else match Member(body, "error")
        case Err(e) => Err(e)
        case Ok(error) => if Present(error) then Err(CatalogApiError(error.value)) else Ok(body.value)
  }

  /** The outcome of `callCatalogMCP`: the cache after the token step, whether a token was
      requested, the catalog request sent, and the body returned or the error thrown. */
  datatype CallOutcome = CallOutcome(cache: TokenCache, fetched: bool, sent: Option<RpcRequest>,
                                     result: Result<JsValue, Error>)

  function Call(c: TokenCache, name: string, args: JsValue, now: int,
                tokenReply: HttpReply, rpcReply: HttpReply): (o: CallOutcome)
    ensures var a := Acquire(c, now, tokenReply);
      && o.cache == a.cache && o.fetched == a.fetched
      && (a.result.Err? ==> o.sent.None? && o.result == Err(a.result.error))
      && (a.result.Ok? ==> o.sent == Some(RpcRequest(a.result.value, Envelope(name, args, now)))
                           && o.result == RpcOutcome(rpcReply))
  {
    var a := Acquire(c, now, tokenReply);
    if a.result.Err? then CallOutcome(a.cache, a.fetched, None, Err(a.result.error))
    else CallOutcome(a.cache, a.fetched, Some(RpcRequest(a.result.value, Envelope(name, args, now))),
                     RpcOutcome(rpcReply))
  }

  // ---------------------------------------------------------------------------------------
  // Tool parameters

  datatype GlobalSearchOptions = GlobalSearchOptions(
    query: string, context: Option<JsValue>, limit: Option<int>, minPrice: Option<int>,
    maxPrice: Option<int>, shipsTo: Option<JsValue>, includeSecondhand: Option<JsValue>)

  /** `Math.min(limit, 50)` with `limit` defaulting to 10. */
  function CappedLimit(limit: Option<int>): (r: int)
    ensures r <= MaxSearchLimit
    ensures limit.None? ==> r == DefaultLimit
    ensures limit.Some? ==> r == limit.value || (r == MaxSearchLimit && limit.value > MaxSearchLimit)
  {
    var l := limit.GetOr(DefaultLimit);
    if l < MaxSearchLimit then l else MaxSearchLimit
  }

  /** The arguments of `search_global_products`: `context` and `ships_to` only when truthy,
      the price bounds and `include_secondhand` only when given. */
  function SearchParams(o: GlobalSearchOptions): (p: map<string, JsValue>)
    ensures p.Keys <= {"query", "limit", "context", "min_price", "max_price", "ships_to", "include_secondhand"}
    ensures "query" in p && p["query"] == Str(o.query)
    ensures "limit" in p && p["limit"] == Num(CappedLimit(o.limit))
    ensures ("context" in p <==> Present(o.context)) && ("context" in p ==> p["context"] == o.context.value)
    ensures ("min_price" in p <==> o.minPrice.Some?) && ("min_price" in p ==> p["min_price"] == Num(o.minPrice.value))
    ensures ("max_price" in p <==> o.maxPrice.Some?) && ("max_price" in p ==> p["max_price"] == Num(o.maxPrice.value))
    ensures ("ships_to" in p <==> Present(o.shipsTo)) && ("ships_to" in p ==> p["ships_to"] == o.shipsTo.value)
    ensures ("include_secondhand" in p <==> o.includeSecondhand.Some?)
            && ("include_secondhand" in p ==> p["include_secondhand"] == o.includeSecondhand.value)
  {
    var p0 := map["query" := Str(o.query), "limit" := Num(CappedLimit(o.limit))];
    var p1 := if Present(o.context) then p0["context" := o.context.value] else p0;
    var p2 := if o.minPrice.Some? then p1["min_price" := Num(o.minPrice.value)] else p1;
    var p3 := if o.maxPrice.Some? then p2["max_price" := Num(o.maxPrice.value)] else p2;
    var p4 := if Present(o.shipsTo) then p3["ships_to" := o.shipsTo.value] else p3;
    if o.includeSecondhand.Some? then p4["include_secondhand" := o.includeSecondhand.value] else p4
  }

  /** The arguments of `get_global_product_details`: the id with its first `gid://shopify/p/`
      removed, and `product_options` only when there are some. */
  function DetailParams(upid: string, options: seq<OptionFilter>): (p: map<string, JsValue>)
    ensures p.Keys <= {"upid", "product_options"}
    ensures "upid" in p && p["upid"] == Str(ReplaceFirst(upid, UpidPrefix, ""))
    ensures ("product_options" in p <==> |options| > 0)
    ensures "product_options" in p ==> p["product_options"] == FiltersToJs(options)
  {
    var p := map["upid" := Str(ReplaceFirst(upid, UpidPrefix, ""))];
    if |options| > 0 then p["product_options" := FiltersToJs(options)] else p
  }

  // ---------------------------------------------------------------------------------------
  // Response unwrapping

  /** What `result.content[0]` holds: nothing (one link of the chain is falsy), or the value of
      its `text`, parsed when it is a string and taken as it is otherwise. */
  datatype Payload = NoContent | Content(data: Option<JsValue>)

  function Get(v: JsValue, key: string): Option<JsValue>
    requires Truthy(v)
  {
    Member(Some(v), key).value
  }

  function FirstOf(v: JsValue): Option<JsValue>
    requires Truthy(v)
  {
    ElementZero(Some(v)).value
  }

  /** The embedded content `result.content[0]` of a call's response, when `result`,
      `result.content` and `result.content[0]` are all truthy; `None` as soon as one is not. */
  function ContentItem(response: JsValue): (r: Option<JsValue>)
    requires response != Null
    ensures r.Some? ==> Truthy(r.value)
    ensures var result := Member(Some(response), "result").value;
      var content := if Present(result) then Member(result, "content").value else None;
      var first := if Present(content) then ElementZero(content).value else None;
      && (r.Some? <==> Present(result) && Present(content) && Present(first))
      && (r.Some? ==> r == first)
  {
    var result := Member(Some(response), "result").value;
    if !Present(result) then None
    else
      var content := Get(result.value, "content");
      if !Present(content) then None
      else
        var first := FirstOf(content.value);
        if Present(first) then first else None
  }

  function EmbeddedPayload(response: JsValue, parse: string -> Option<JsValue>): (r: Result<Payload, Error>)
    requires response != Null
    ensures ContentItem(response).None? <==> r == Ok(NoContent)
    ensures r.Err? ==> r == Err(SyntaxError)
    ensures ContentItem(response).Some? ==>
      var text := Get(ContentItem(response).value, "text");
      && (text.Some? && text.value.Str? ==> r == (if parse(text.value.s).Some?
                                                  then Ok(Content(parse(text.value.s))) else Err(SyntaxError)))
      && (!(text.Some? && text.value.Str?) ==> r == Ok(Content(text)))
  {
    match ContentItem(response)
    case None => Ok(NoContent)
    case Some(item) =>
      var text := Get(item, "text");
      if text.Some? && text.value.Str? then
        match parse(text.value.s)
        case None => Err(SyntaxError)
        case Some(d) => Ok(Content(Some(d)))
      else Ok(Content(text))
  }

  /** The result of `searchGlobalProducts`: `offers` (default `[]`) and `instructions`
      (default `''`). */
  datatype GlobalSearchResult = GlobalSearchResult(offers: JsValue, instructions: JsValue)

  const EmptySearchResult := GlobalSearchResult(Arr([]), Str(""))

  function UnwrapSearch(response: JsValue, parse: string -> Option<JsValue>): (r: Result<GlobalSearchResult, Error>)
    requires response != Null
    ensures EmbeddedPayload(response, parse) == Ok(NoContent) ==> r == Ok(EmptySearchResult)
    ensures r.Ok? ==> Truthy(r.value.offers) && (Truthy(r.value.instructions) || r.value.instructions == Str(""))
    ensures EmbeddedPayload(response, parse).Ok? && EmbeddedPayload(response, parse).value.Content? ==>
      var d := EmbeddedPayload(response, parse).value.data;
      && (r.Ok? <==> d.Some? && d.value != Null)
      && (r.Err? ==> r == Err(TypeError))
      && (r.Ok? ==> && r.value.offers == OrElse(Member(d, "offers").value, Arr([]))
                    && r.value.instructions == OrElse(Member(d, "instructions").value, Str("")))
    ensures EmbeddedPayload(response, parse).Err? ==> r == Err(SyntaxError)
    ensures r.Err? ==> r == Err(SyntaxError) || r == Err(TypeError)
  {
    match EmbeddedPayload(response, parse)
    case Err(e) => Err(e)
    case Ok(NoContent) => Ok(EmptySearchResult)
    case Ok(Content(d)) =>
      match Member(d, "offers")
      case Err(e) => Err(e)
      case Ok(offers) =>
        Ok(GlobalSearchResult(OrElse(offers, Arr([])), OrElse(Member(d, "instructions").value, Str(""))))
  }

  function UnwrapDetails(response: JsValue, parse: string -> Option<JsValue>): (r: Result<Option<JsValue>, Error>)
    requires response != Null
    ensures EmbeddedPayload(response, parse) == Ok(NoContent) <==> r == Err(NoProductData)
    ensures r.Ok? ==> EmbeddedPayload(response, parse) == Ok(Content(r.value))
    ensures EmbeddedPayload(response, parse).Err? ==> r == Err(SyntaxError)
    ensures EmbeddedPayload(response, parse).Ok? && EmbeddedPayload(response, parse).value.Content? ==>
      r == Ok(EmbeddedPayload(response, parse).value.data)
  {
    match EmbeddedPayload(response, parse)
    case Err(e) => Err(e)
    case Ok(NoContent) => Err(NoProductData)
    case Ok(Content(d)) => Ok(d)
  }

  /** A search response whose first content item carries its payload as JSON text yields the
      offers and instructions of the parsed text, with their defaults. */
  lemma UnwrapsEmbeddedText(text: string, payload: map<string, JsValue>, parse: string -> Option<JsValue>)
    requires parse(text) == Some(Obj(payload))
    ensures var response := Obj(map["result" := Obj(map["content" := Arr([Obj(map["text" := Str(text)])])])]);
      UnwrapSearch(response, parse) == Ok(GlobalSearchResult(
        OrElse(if "offers" in payload then Some(payload["offers"]) else None, Arr([])),
        OrElse(if "instructions" in payload then Some(payload["instructions"]) else None, Str(""))))
  {
    var item := Obj(map["text" := Str(text)]);
    var response := Obj(map["result" := Obj(map["content" := Arr([item])])]);
    assert ContentItem(response) == Some(item);
    assert Get(item, "text") == Some(Str(text));
  }

  // ---------------------------------------------------------------------------------------
  // extractUpid

  /** The regular expression /gid:\/\/shopify\/p\/(.+)/ matches at index `i`: the prefix
      occurs there and is followed by at least one character that is not a line terminator. */
  predicate UpidMatchAt(s: string, i: nat) {
    OccursAt(s, UpidPrefix, i) && i + |UpidPrefix| < |s| && !IsLineTerminator(s[i + |UpidPrefix|])
  }

  /** The leftmost match at or after `from`. */
  function FirstUpidMatch(s: string, from: nat): (r: Option<nat>)
    decreases |s| - from
    ensures r.Some? ==> from <= r.value && UpidMatchAt(s, r.value)
    ensures r.Some? ==> forall j :: from <= j < r.value ==> !UpidMatchAt(s, j)
    ensures r.None? ==> forall j :: from <= j ==> !UpidMatchAt(s, j)
  {
    if from >= |s| then None
    else if UpidMatchAt(s, from) then Some(from)
    else FirstUpidMatch(s, from + 1)
  }

  /** Where the greedy `(.+)` starting at `k` stops: the next line terminator, or the end. */
  function LineEnd(s: string, k: nat): (e: nat)
    requires k <= |s|
    decreases |s| - k
    ensures k <= e <= |s|
    ensures forall j :: k <= j < e ==> !IsLineTerminator(s[j])
    ensures e < |s| ==> IsLineTerminator(s[e])
  {
    if k == |s| || IsLineTerminator(s[k]) then k else LineEnd(s, k + 1)
  }

  /** `extractUpid`: null for an empty id, the captured group when the pattern matches, the
      id itself otherwise. */
  function ExtractUpid(gid: string): (r: Option<string>)
    ensures r.None? <==> gid == ""
    ensures r.Some? ==> r.value != ""
    ensures gid != "" && (forall i: nat :: !UpidMatchAt(gid, i)) ==> r == Some(gid)
    ensures r.Some? && r.value != gid ==> forall j :: 0 <= j < |r.value| ==> !IsLineTerminator(r.value[j])
  {
    if gid == "" then None
    else match FirstUpidMatch(gid, 0)
      case None => Some(gid)
      case Some(i) => Some(gid[i + |UpidPrefix|..LineEnd(gid, i + |UpidPrefix|)])
  }

  /** A fully qualified id yields its bare form, and a bare id is left alone, so both name
      the same catalog product. */
  lemma ExtractUpidStripsPrefix(bare: string)
    requires bare != "" && forall j :: 0 <= j < |bare| ==> !IsLineTerminator(bare[j])
    requires forall i: nat :: !OccursAt(bare, UpidPrefix, i)
    ensures ExtractUpid(UpidPrefix + bare) == Some(bare)
    ensures ExtractUpid(bare) == Some(bare)
  {
    var s := UpidPrefix + bare;
    assert s[..|UpidPrefix|] == UpidPrefix;
    assert OccursAt(s, UpidPrefix, 0);
    assert UpidMatchAt(s, 0);
    assert FirstUpidMatch(s, 0) == Some(0);
    var e := LineEnd(s, |UpidPrefix|);
    assert e == |s|;
    assert s[|UpidPrefix|..e] == bare;
  }

  // ---------------------------------------------------------------------------------------
  // The client

  /** The process-wide token cache with the operations that use it. */
  class CatalogClient {
    var bearerToken: Option<JsValue>
    var tokenExpiry: Option<int>

    function Cache(): TokenCache
      reads this
    {
      TokenCache(bearerToken, tokenExpiry)
    }

    constructor ()
      ensures Cache() == EmptyCache
    {
      bearerToken := Some(Null);
      tokenExpiry := None;
    }

    /** `getBearerToken` */
    method GetBearerToken(now: int, reply: HttpReply) returns (fetched: bool, r: Result<Option<JsValue>, Error>)
      modifies this
      ensures fetched <==> !IsFresh(old(Cache()), now)
      ensures !fetched ==> Cache() == old(Cache()) && r == Ok(bearerToken)
      ensures r.Err? ==> Cache() == old(Cache())
      ensures fetched && r.Ok? ==> IssueToken(reply, now) == Ok(Cache()) && r == Ok(bearerToken)
      ensures Acquisition(Cache(), fetched, r) == Acquire(old(Cache()), now, reply)
    {
      if Present(bearerToken) && tokenExpiry.Some? && tokenExpiry.value != 0
         && now < tokenExpiry.value - SafetyMarginMs {
        return false, Ok(bearerToken);
      }
      fetched := true;
      match IssueToken(reply, now)
      case Err(e) =>
        r := Err(e);
      case Ok(issued) =>
        bearerToken := issued.token;
        tokenExpiry := issued.expiry;
        r := Ok(bearerToken);
    }

    /** `callCatalogMCP` */
    method CallCatalog(name: string, args: JsValue, now: int, tokenReply: HttpReply, rpcReply: HttpReply)
      returns (fetched: bool, sent: Option<RpcRequest>, r: Result<JsValue, Error>)
      modifies this
      ensures CallOutcome(Cache(), fetched, sent, r) == Call(old(Cache()), name, args, now, tokenReply, rpcReply)
    {
      var token;
      fetched, token := GetBearerToken(now, tokenReply);
      if token.Err? {
        return fetched, None, Err(token.error);
      }
      sent := Some(RpcRequest(token.value, Envelope(name, args, now)));
      r := RpcOutcome(rpcReply);
    }

    /** `searchGlobalProducts`: an empty query is rejected before any request; the
        parameters are filled in one by one. */
    method SearchGlobalProducts(o: GlobalSearchOptions, now: int, tokenReply: HttpReply,
                                rpcReply: HttpReply, parse: string -> Option<JsValue>)
      returns (fetched: bool, sent: Option<RpcRequest>, r: Result<GlobalSearchResult, Error>)
      modifies this
      ensures o.query == "" ==> Cache() == old(Cache()) && !fetched && sent.None? && r == Err(QueryRequired)
      ensures o.query != "" ==>
        var c := Call(old(Cache()), SearchTool, Obj(SearchParams(o)), now, tokenReply, rpcReply);
        && Cache() == c.cache && fetched == c.fetched && sent == c.sent
        && r == (if c.result.Err? then Err(c.result.error) else UnwrapSearch(c.result.value, parse))
    {
      if o.query == "" {
        return false, None, Err(QueryRequired);
      }
      var params := map["query" := Str(o.query), "limit" := Num(CappedLimit(o.limit))];
      if Present(o.context) { params := params["context" := o.context.value]; }
      if o.minPrice.Some? { params := params["min_price" := Num(o.minPrice.value)]; }
      if o.maxPrice.Some? { params := params["max_price" := Num(o.maxPrice.value)]; }
      if Present(o.shipsTo) { params := params["ships_to" := o.shipsTo.value]; }
      if o.includeSecondhand.Some? { params := params["include_secondhand" := o.includeSecondhand.value]; }
      assert params == SearchParams(o);
      var response;
      fetched, sent, response := CallCatalog(SearchTool, Obj(params), now, tokenReply, rpcReply);
      if response.Err? {
        return fetched, sent, Err(response.error);
      }
      r := UnwrapSearch(response.value, parse);
    }

    /** `getGlobalProductDetails`: an empty id is rejected before any request; the
        response must carry content. */
    method GetGlobalProductDetails(upid: string, options: seq<OptionFilter>, now: int,
                                   tokenReply: HttpReply, rpcReply: HttpReply,
                                   parse: string -> Option<JsValue>)
      returns (fetched: bool, sent: Option<RpcRequest>, r: Result<Option<JsValue>, Error>)
      modifies this
      ensures upid == "" ==> Cache() == old(Cache()) && !fetched && sent.None? && r == Err(UpidRequired)
      ensures upid != "" ==>
        var c := Call(old(Cache()), DetailsTool, Obj(DetailParams(upid, options)), now, tokenReply, rpcReply);
        && Cache() == c.cache && fetched == c.fetched && sent == c.sent
        && r == (if c.result.Err? then Err(c.result.error) else UnwrapDetails(c.result.value, parse))
    {
      if upid == "" {
        return false, None, Err(UpidRequired);
      }
      var params := map["upid" := Str(ReplaceFirst(upid, UpidPrefix, ""))];
      if |options| > 0 {
        params := params["product_options" := FiltersToJs(options)];
      }
      var response;
      fetched, sent, response := CallCatalog(DetailsTool, Obj(params), now, tokenReply, rpcReply);
      if response.Err? {
        return fetched, sent, Err(response.error);
      }
      r := UnwrapDetails(response.value, parse);
    }
  }
}
