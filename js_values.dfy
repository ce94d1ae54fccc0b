/** The JavaScript values the services exchange with their upstreams, and the few pieces of
    JavaScript semantics the core relies on: truthiness, property reads that throw on null or
    undefined, spreading an iterable, `String.prototype.trim`, and first-occurrence search. */
module JsValues {
  import opened Wrappers

  /** A value as `JSON.parse` produces it. Numbers are integers in this model. JSON has no
      `undefined`; an absent property is `None` where an `Option<JsValue>` is expected. */
  datatype JsValue =
    | Null
    | Bool(b: bool)
    | Num(n: int)
    | Str(s: string)
    | Arr(elems: seq<JsValue>)
    | Obj(fields: map<string, JsValue>)

  /** The failures the core raises or lets through; each stands for the message prefix of the
      `Error` the source throws. */
  datatype Error =
    | TypeError                          // a property read on null or undefined, or a spread of a non-iterable
    | SyntaxError                        // a body or an embedded text that is not JSON
    | NetworkError                       // fetch or the GraphQL client rejected
    | SessionNotFound                    // no tenant session for the request
    | ProductNotFound                    // the tenant catalog has no product with that id
    | ShopSearchFailed(cause: Error)     // tenant search failed, wrapping the cause
    | ShopDetailsFailed(cause: Error)    // tenant detail lookup failed, wrapping the cause
    | TokenRequestFailed(status: int)    // the credential endpoint answered with a non-ok status
    | TokenUnavailable(cause: Error)     // getting the catalog token failed, wrapping the cause
    | CatalogRequestFailed(status: int)  // the catalog endpoint answered with a non-ok status
    | CatalogApiError(detail: JsValue)   // the catalog answered with an `error` field
    | QueryRequired                      // an empty search query reached the catalog client
    | UpidRequired                       // an empty product id reached the catalog client
    | NoProductData                      // a detail response without content

  /** JavaScript truthiness of a defined value: `false`, `0`, `""` and `null` are falsy, every
      array and object is truthy. */
  predicate Truthy(v: JsValue) {
    match v
    case Null => false
    case Bool(b) => b
    case Num(n) => n != 0
    case Str(s) => s != ""
    case _ => true
  }

  /** Truthiness of a value that may be `undefined`. */
  predicate Present(v: Option<JsValue>) {
    v.Some? && Truthy(v.value)
  }

  /** `a || b` */
  function OrElse(a: Option<JsValue>, b: JsValue): JsValue {
    if Present(a) then a.value else b
  }

  /** The property read `v.key`. It throws on `null` and `undefined`; arrays and strings have
      `length`; any other property of a primitive, array or string reads as `undefined`. */
  function Member(v: Option<JsValue>, key: string): Result<Option<JsValue>, Error> {
    match v
    case None => Err(TypeError)
    case Some(Null) => Err(TypeError)
    case Some(Obj(m)) => Ok(if key in m then Some(m[key]) else None)
    case Some(Arr(xs)) => Ok(if key == "length" then Some(Num(|xs|)) else None)
    case Some(Str(s)) => Ok(if key == "length" then Some(Num(|s|)) else None)
    case Some(_) => Ok(None)
  }

  /** The element read `v[0]`: the first element of an array, the first character of a
      string, the property "0" of an object. */
  function ElementZero(v: Option<JsValue>): Result<Option<JsValue>, Error> {
    match v
    case None => Err(TypeError)
    case Some(Null) => Err(TypeError)
    case Some(Arr(xs)) => Ok(if xs == [] then None else Some(xs[0]))
    case Some(Str(s)) => Ok(if s == "" then None else Some(Str([s[0]])))
    case Some(Obj(m)) => Ok(if "0" in m then Some(m["0"]) else None)
    case Some(_) => Ok(None)
  }

  /** The elements `[...v]` yields: an array's elements, a string's characters; spreading
      anything else throws. */
  function Spread(v: JsValue): (r: Result<seq<JsValue>, Error>)
    ensures r.Ok? <==> v.Arr? || v.Str?
    ensures v.Arr? ==> r == Ok(v.elems)
    ensures r.Ok? ==> Member(Some(v), "length") == Ok(Some(Num(|r.value|)))
  {
    match v
    case Arr(xs) => Ok(xs)
    case Str(s) => Ok(seq(|s|, i requires 0 <= i < |s| => Str([s[i]])))
    case _ => Err(TypeError)
  }

  /** The line terminators of ECMAScript: a regular expression's `.` does not match them. */
  predicate IsLineTerminator(c: char) {
    c == '\n' || c == '\r' || c == '\U{2028}' || c == '\U{2029}'
  }

  /** The characters `String.prototype.trim` removes: ECMAScript WhiteSpace (including every
      space separator) and LineTerminator. */
  predicate IsJsWhitespace(c: char) {
    || IsLineTerminator(c)
    || c == '\t' || c == '\U{B}' || c == '\U{C}' || c == ' ' || c == '\U{A0}' || c == '\U{FEFF}'
    || c == '\U{1680}' || ('\U{2000}' <= c <= '\U{200A}') || c == '\U{202F}' || c == '\U{205F}'
    || c == '\U{3000}'
  }

  predicate AllWhitespace(s: string) {
    forall i :: 0 <= i < |s| ==> IsJsWhitespace(s[i])
  }

  function TrimStart(s: string): string {
    if s != [] && IsJsWhitespace(s[0]) then TrimStart(s[1..]) else s
  }

  function TrimEnd(s: string): string {
    if s != [] && IsJsWhitespace(s[|s| - 1]) then TrimEnd(s[..|s| - 1]) else s
  }

  /** `s.trim()` */
  function Trim(s: string): string {
    TrimEnd(TrimStart(s))
  }

  lemma {:induction false} TrimStartEmpty(s: string)
    ensures TrimStart(s) == [] <==> AllWhitespace(s)
    ensures TrimStart(s) != [] ==> !IsJsWhitespace(TrimStart(s)[0])
    decreases |s|
  {
    if s != [] && IsJsWhitespace(s[0]) {
      TrimStartEmpty(s[1..]);
      assert forall i :: 1 <= i < |s| ==> s[i] == s[1..][i - 1];
    }
  }

  lemma {:induction false} TrimEndKeepsNonWhitespaceHead(s: string)
    requires s != [] && !IsJsWhitespace(s[0])
    ensures TrimEnd(s) != []
    decreases |s|
  {
    if IsJsWhitespace(s[|s| - 1]) {
      TrimEndKeepsNonWhitespaceHead(s[..|s| - 1]);
    }
  }

  /** `s.trim().length === 0` holds exactly for the strings made of whitespace only. */
  lemma TrimEmptyIffBlank(s: string)
    ensures Trim(s) == [] <==> AllWhitespace(s)
  {
    TrimStartEmpty(s);
    if TrimStart(s) != [] {
      TrimEndKeepsNonWhitespaceHead(TrimStart(s));
    }
  }

  /** `pat` occurs in `s` at index `i`. */
  predicate OccursAt(s: string, pat: string, i: nat) {
    i + |pat| <= |s| && s[i..i + |pat|] == pat
  }

  /** `s.indexOf(pat, from)` for `from <= |s|` (the core only searches from 0): the least
      index at or after `from` where `pat` occurs. JavaScript clamps a larger `from` to `|s|`;
      this function does not. */
  function IndexOf(s: string, pat: string, from: nat): (r: Option<nat>)
    decreases |s| - from
    ensures r.Some? ==> from <= r.value && OccursAt(s, pat, r.value)
    ensures r.Some? ==> forall j :: from <= j < r.value ==> !OccursAt(s, pat, j)
    ensures r.None? ==> forall j :: from <= j ==> !OccursAt(s, pat, j)
  {
    if from + |pat| > |s| then None
    else if OccursAt(s, pat, from) then Some(from)
    else IndexOf(s, pat, from + 1)
  }

  /** `s.replace(pat, rep)` with a string pattern: only the first occurrence is replaced. */
  function ReplaceFirst(s: string, pat: string, rep: string): (r: string)
    ensures (forall j: nat :: !OccursAt(s, pat, j)) ==> r == s
    ensures forall i: nat :: OccursAt(s, pat, i) && (forall j: nat :: j < i ==> !OccursAt(s, pat, j))
              ==> r == s[..i] + rep + s[i + |pat|..]
  {
    match IndexOf(s, pat, 0)
    case None => s
    case Some(i) => s[..i] + rep + s[i + |pat|..]
  }

  /** One `{key, values}` entry of a request's `product_options`: a variant satisfies it when
      its first option named `key` has one of `values`. */
  datatype OptionFilter = OptionFilter(key: string, values: seq<string>)

  /** The JSON form of `product_options`, as it is forwarded to the catalog. */
  function FiltersToJs(filters: seq<OptionFilter>): (r: JsValue)
    ensures r.Arr? && |r.elems| == |filters|
    ensures forall i :: 0 <= i < |filters| ==>
      && r.elems[i].Obj? && r.elems[i].fields.Keys == {"key", "values"}
      && r.elems[i].fields["key"] == Str(filters[i].key)
      && r.elems[i].fields["values"].Arr?
      && |r.elems[i].fields["values"].elems| == |filters[i].values|
      && forall j :: 0 <= j < |filters[i].values| ==> r.elems[i].fields["values"].elems[j] == Str(filters[i].values[j])
  {
    Arr(seq(|filters|, i requires 0 <= i < |filters| =>
      Obj(map["key" := Str(filters[i].key),
              "values" := Arr(seq(|filters[i].values|, j requires 0 <= j < |filters[i].values| =>
                                  Str(filters[i].values[j])))])))
  }
}
