/**
 * Values the interceptor exchanges with its collaborators: the request
 * options handed to `fetch`, the response it gets back, and the rule that
 * decides how a response body is read.
 */
module Http {

  datatype Option<+T> = None | Some(value: T) {
    /** `x || fallback` for a value that is either present or null. */
    function GetOr(fallback: T): T {
      if Some? then value else fallback
    }
  }

  /** A JSON value, as given to `JSON.stringify` or produced by `response.json()`. */
  datatype Json =
    | JNull
    | JBool(b: bool)
    | JNumber(n: int)
    | JString(s: string)
    | JArray(items: seq<Json>)
    | JObject(fields: seq<(string, Json)>)

  /** JavaScript truthiness of a JSON value, as tested by `data ? … : …`. */
  predicate Truthy(v: Json) {
    match v
    case JNull => false
    case JBool(b) => b
    case JNumber(n) => n != 0
    case JString(s) => s != ""
    case JArray(_) => true
    case JObject(_) => true
  }

  /** Header names and values; names are taken as already normalised. */
  type Headers = map<string, string>

  const AuthorizationHeaderKey: string := "Authorization"
  const AuthorizationSchemeType: string := "Bearer"
  const ContentTypeKey: string := "Content-Type"
  const AllowOriginKey: string := "Access-Control-Allow-Origin"
  const JsonMediaType: string := "application/json"

  /**
   * The options record handed to `fetch`: the method, the headers, the body
   * and every other field the caller passed, which the spreads carry along.
   */
  datatype RequestOptions = RequestOptions(
    httpMethod: Option<string>,
    headers: Headers,
    body: Option<string>,
    rest: map<string, string>)

  /**
   * What `fetch` resolves to, as far as the interceptor looks at it:
   * `json` is the outcome of `response.json()` (None when it throws),
   * `text` the outcome of `response.text()`.
   */
  datatype Response = Response(
    ok: bool,
    status: int,
    contentType: Option<string>,
    text: string,
    json: Option<Json>)

  /** A parsed response body. */
  datatype Body = JsonBody(json: Json) | TextBody(text: string)

  datatype BodyKind = ParseJson | ParseText

  /** `fragment` occurs in `s` starting at index `i`. */
  predicate OccursAt(s: string, fragment: string, i: int) {
    0 <= i && i + |fragment| <= |s| && s[i..i + |fragment|] == fragment
  }

  /** `s.includes(fragment)`, scanning from the left. */
  function Includes(s: string, fragment: string): bool
    decreases |s|
  {
    if |fragment| > |s| then false
    else if s[..|fragment|] == fragment then true
    else Includes(s[1..], fragment)
  }

  lemma {:induction false} IncludesIff(s: string, fragment: string)
    ensures Includes(s, fragment) <==> exists i :: OccursAt(s, fragment, i)
    decreases |s|
  {
    if |fragment| > |s| {
    } else if s[..|fragment|] == fragment {
      assert OccursAt(s, fragment, 0);
    } else {
      IncludesIff(s[1..], fragment);
      if i :| OccursAt(s[1..], fragment, i) {
        assert s[1..][i..i + |fragment|] == s[i + 1..i + 1 + |fragment|];
        assert OccursAt(s, fragment, i + 1);
      }
      if i :| OccursAt(s, fragment, i) {
        assert i != 0;
        assert s[1..][i - 1..i - 1 + |fragment|] == s[i..i + |fragment|];
        assert OccursAt(s[1..], fragment, i - 1);
      }
    }
  }

  /** The empty fragment occurs in every string, as with `"".includes`. */
  lemma IncludesEmpty(s: string)
    ensures Includes(s, "")
  {
    assert s[..0] == "";
  }

  /** The decision of `_parseResponseBody`, on a missing header read as ''. */
  function ParseKind(contentType: Option<string>): BodyKind {
    if Includes(contentType.GetOr(""), JsonMediaType) then ParseJson else ParseText
  }

  /** `_parseResponseBody`: None when `response.json()` throws. */
  function ParseResponseBody(r: Response): Option<Body> {
    match ParseKind(r.contentType)
    case ParseJson => if r.json.Some? then Some(JsonBody(r.json.value)) else None
    case ParseText => Some(TextBody(r.text))
  }

  /** JSON is chosen exactly when the Content-Type header contains `application/json`. */
  lemma ParseKindIsJsonIffMediaType(contentType: Option<string>)
    ensures ParseKind(contentType) == ParseJson
        <==> contentType.Some? && exists i :: OccursAt(contentType.value, JsonMediaType, i)
  {
    IncludesIff(contentType.GetOr(""), JsonMediaType);
  }

  /**
   * Reading a body: a JSON media type yields the parsed JSON or a parse
   * failure; every other header value, or none, yields the text.
   */
  lemma ParseResponseBodyChoice(r: Response)
    ensures (exists i :: OccursAt(r.contentType.GetOr(""), JsonMediaType, i)) ==>
              ParseResponseBody(r) == (if r.json.Some? then Some(JsonBody(r.json.value)) else None)
    ensures !(exists i :: OccursAt(r.contentType.GetOr(""), JsonMediaType, i)) ==>
              ParseResponseBody(r) == Some(TextBody(r.text))
    ensures ParseResponseBody(r) == None <==> ParseKind(r.contentType) == ParseJson && r.json == None
  {
    IncludesIff(r.contentType.GetOr(""), JsonMediaType);
  }

  /** A missing header and a `text/plain` header both select text. */
  lemma ParseKindDefaults()
    ensures ParseKind(None) == ParseText
    ensures ParseKind(Some("text/plain")) == ParseText
    ensures ParseKind(Some("application/json")) == ParseJson
    ensures ParseKind(Some("application/json; charset=utf-8")) == ParseJson
  {
    assert "application/json; charset=utf-8"[..|JsonMediaType|] == JsonMediaType;
  }
}
