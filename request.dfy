/**
 * Request preparation in `apiFetch` and the exported verb helpers
 * (`get`, `post`, `put`, `patch`, `delete`) that build its options.
 */
module Request {
  import opened Http

  /** The two twins of the interceptor: TypeScript and its JavaScript copy. */
  datatype Variant = TypeScript | JavaScript

  /** The browser's local storage, as far as the interceptor reads it. */
  type TokenStore = map<string, string>

  const AccessTokenKey: string := "accessToken"

  /** `localStorage.getItem(key)`: null when the key is absent. */
  function GetItem(store: TokenStore, key: string): Option<string> {
    if key in store then Some(store[key]) else None
  }

  /** `if (accessToken)`: neither null nor the empty string. */
  predicate HasToken(token: Option<string>) {
    token.Some? && token.value != ""
  }

  /** A token as a template literal prints it: null becomes the text `null`. */
  function TokenText(token: Option<string>): string {
    if token.Some? then token.value else "null"
  }

  /** `${AUTHORIZATION_SCHEME_TYPE} ${token}` */
  function BearerValue(token: Option<string>): string {
    AuthorizationSchemeType + " " + TokenText(token)
  }

  /**
   * The outgoing headers of `apiFetch`: the caller's headers, with the
   * bearer header set over them when a token is stored; the JavaScript twin
   * also sets `Access-Control-Allow-Origin: *` then.
   */
  function BuildHeaders(variant: Variant, callerHeaders: Headers, token: Option<string>): (h: Headers)
    ensures HasToken(token) ==>
              AuthorizationHeaderKey in h && h[AuthorizationHeaderKey] == "Bearer " + token.value
    ensures HasToken(token) && variant == JavaScript ==> AllowOriginKey in h && h[AllowOriginKey] == "*"
    ensures !HasToken(token) ==> h == callerHeaders
    ensures h.Keys == callerHeaders.Keys
                      + (if HasToken(token) then {AuthorizationHeaderKey} else {})
                      + (if HasToken(token) && variant == JavaScript then {AllowOriginKey} else {})
    ensures forall k :: k in callerHeaders && k != AuthorizationHeaderKey
                        && (HasToken(token) && variant == JavaScript ==> k != AllowOriginKey)
                        ==> h[k] == callerHeaders[k]
  {
    if !HasToken(token) then callerHeaders
    else
      var withBearer := callerHeaders[AuthorizationHeaderKey := BearerValue(token)];
      match variant
      case TypeScript => withBearer
      case JavaScript => withBearer[AllowOriginKey := "*"]
  }

  /**
   * A request as `apiFetch` issues it: the caller's path, the full URL,
   * the options with the built headers, and the token read beforehand.
   */
  datatype PreparedRequest = PreparedRequest(
    url: string,
    fetchUrl: string,
    config: RequestOptions,
    accessToken: Option<string>)

  /** Everything `apiFetch` does before its first `fetch`. */
  function Prepare(variant: Variant, baseURL: string, url: string, options: RequestOptions,
                   store: TokenStore): (r: PreparedRequest)
    ensures r.url == url
    ensures |r.fetchUrl| == |baseURL| + |url|
    ensures r.fetchUrl[..|baseURL|] == baseURL && r.fetchUrl[|baseURL|..] == url
    ensures r.accessToken.Some? <==> AccessTokenKey in store
    ensures r.accessToken.Some? ==> r.accessToken.value == store[AccessTokenKey]
    ensures r.config.httpMethod == options.httpMethod
    ensures r.config.body == options.body && r.config.rest == options.rest
    ensures r.config.headers == BuildHeaders(variant, options.headers, r.accessToken)
  {
    var token := GetItem(store, AccessTokenKey);
    PreparedRequest(url, baseURL + url, options.(headers := BuildHeaders(variant, options.headers, token)), token)
  }

  /** The headers of a request the caller made with a stored token carry exactly that token. */
  lemma PreparedAuthorization(variant: Variant, baseURL: string, url: string, options: RequestOptions,
                              store: TokenStore)
    ensures var h := Prepare(variant, baseURL, url, options, store).config.headers;
            (AccessTokenKey in store && store[AccessTokenKey] != "") ==>
              h[AuthorizationHeaderKey] == "Bearer " + store[AccessTokenKey]
    ensures var h := Prepare(variant, baseURL, url, options, store).config.headers;
            !(AccessTokenKey in store && store[AccessTokenKey] != "") ==> h == options.headers
  {
  }

  /**
   * The JavaScript twin sets the bearer header and `Access-Control-Allow-Origin: *`
   * together, and neither without a stored token; the TypeScript one never
   * adds the latter.
   */
  lemma AllowOriginOnlyInJavaScript(variant: Variant, baseURL: string, url: string, options: RequestOptions,
                                    store: TokenStore)
    requires AllowOriginKey !in options.headers && AuthorizationHeaderKey !in options.headers
    ensures var h := Prepare(variant, baseURL, url, options, store).config.headers;
            variant == JavaScript ==> (AllowOriginKey in h <==> AuthorizationHeaderKey in h)
    ensures var h := Prepare(variant, baseURL, url, options, store).config.headers;
            variant == JavaScript && AllowOriginKey in h ==> h[AllowOriginKey] == "*"
    ensures var h := Prepare(variant, baseURL, url, options, store).config.headers;
            variant == TypeScript ==> AllowOriginKey !in h
  {
  }

  /**
   * The headers a JSON-body helper hands on: the caller's headers, with
   * `Content-Type: application/json` unless the caller set one.
   */
  ghost predicate JsonContentTypeDefault(callerHeaders: Headers, h: Headers) {
    && h.Keys == callerHeaders.Keys + {ContentTypeKey}
    && h[ContentTypeKey] == (if ContentTypeKey in callerHeaders then callerHeaders[ContentTypeKey] else JsonMediaType)
    && forall k :: k in callerHeaders ==> h[k] == callerHeaders[k]
  }

  /** `{ 'Content-Type': 'application/json', ...(options.headers || {}) }` */
  function JsonHeaders(callerHeaders: Headers): (h: Headers)
    ensures JsonContentTypeDefault(callerHeaders, h)
  {
    map[ContentTypeKey := JsonMediaType] + callerHeaders
  }

  /** `get`: the caller's options with the method forced to GET. */
  function Get(options: RequestOptions): (r: RequestOptions)
    ensures r.httpMethod == Some("GET")
    ensures r.headers == options.headers && r.body == options.body && r.rest == options.rest
  {
    options.(httpMethod := Some("GET"))
  }

  /** The shared shape of `post`, `put` and `patch`. */
  function WithJsonBody(httpMethod: string, data: Json, options: RequestOptions,
                        stringify: Json -> string): (r: RequestOptions)
    ensures r.httpMethod == Some(httpMethod)
    ensures r.body == Some(stringify(data))
    ensures JsonContentTypeDefault(options.headers, r.headers)
    ensures r.rest == options.rest
  {
    RequestOptions(Some(httpMethod), JsonHeaders(options.headers), Some(stringify(data)), options.rest)
  }

  function Post(data: Json, options: RequestOptions, stringify: Json -> string): (r: RequestOptions)
    ensures r.httpMethod == Some("POST") && r.body == Some(stringify(data))
    ensures JsonContentTypeDefault(options.headers, r.headers) && r.rest == options.rest
  {
    WithJsonBody("POST", data, options, stringify)
  }

  function Put(data: Json, options: RequestOptions, stringify: Json -> string): (r: RequestOptions)
    ensures r.httpMethod == Some("PUT") && r.body == Some(stringify(data))
    ensures JsonContentTypeDefault(options.headers, r.headers) && r.rest == options.rest
  {
    WithJsonBody("PUT", data, options, stringify)
  }

  function Patch(data: Json, options: RequestOptions, stringify: Json -> string): (r: RequestOptions)
    ensures r.httpMethod == Some("PATCH") && r.body == Some(stringify(data))
    ensures JsonContentTypeDefault(options.headers, r.headers) && r.rest == options.rest
  {
    WithJsonBody("PATCH", data, options, stringify)
  }

  /**
   * `delete`: a body and the JSON Content-Type only for truthy data (the
   * default data is null). An empty encoded body is not spread in, so the
   * caller's own body, if any, stays.
   */
  function Delete(data: Json, options: RequestOptions, stringify: Json -> string): (r: RequestOptions)
    ensures r.httpMethod == Some("DELETE") && r.rest == options.rest
    ensures Truthy(data) && stringify(data) != "" ==> r.body == Some(stringify(data))
    ensures !(Truthy(data) && stringify(data) != "") ==> r.body == options.body
    ensures Truthy(data) ==> JsonContentTypeDefault(options.headers, r.headers)
    ensures !Truthy(data) ==> r.headers == options.headers
  {
    var body: Option<string> := if Truthy(data) then Some(stringify(data)) else None;
    var headers := if Truthy(data) then JsonHeaders(options.headers) else options.headers;
    var withMethod := options.(httpMethod := Some("DELETE"), headers := headers);
    if body.Some? && body.value != "" then withMethod.(body := body) else withMethod
  }
}
