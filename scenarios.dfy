/**
 * The cases of the interceptor's unit tests, plus two boundary cases of
 * the code, stated over the model: base URL `http://localhost:3000`, a
 * fresh interceptor state.
 */
module Scenarios {
  import opened Http
  import opened Request
  import opened Outcome
  import opened Refresh
  import opened Exclusion

  const TestBaseURL: string := "http://localhost:3000"
  const NoOptions: RequestOptions := RequestOptions(None, map[], None, map[])

  function JsonOk(json: Json): Response {
    Response(true, 200, Some(JsonMediaType), "", Some(json))
  }

  /** With `test-token-123` stored, a GET goes to the full URL with the bearer header, and resolves to the JSON body. */
  lemma GetWithStoredToken(variant: Variant)
    ensures var req := Prepare(variant, TestBaseURL, "/api/test", Get(NoOptions), map[AccessTokenKey := "test-token-123"]);
            && req.fetchUrl == "http://localhost:3000/api/test"
            && req.config.httpMethod == Some("GET")
            && req.config.headers[AuthorizationHeaderKey] == "Bearer test-token-123"
            && var data := JObject([("data", JString("test"))]);
               OnResponse(Idle, req, JsonOk(data)) == (Idle, Settles(Resolved(JsonBody(data))))
  {
    var req := Prepare(variant, TestBaseURL, "/api/test", Get(NoOptions), map[AccessTokenKey := "test-token-123"]);
    var data := JObject([("data", JString("test"))]);
    assert req.fetchUrl == TestBaseURL + "/api/test";
    assert req.accessToken == Some("test-token-123");
    assert req.config.headers == BuildHeaders(variant, map[], Some("test-token-123"));
    assert BearerValue(Some("test-token-123")) == "Bearer test-token-123";
    DefaultListsExcludeOnlyLogin("/api/test");
    assert !Eligible401(req.url, JsonOk(data));
    assert ParseKind(Some(JsonMediaType)) == ParseJson by {
      assert JsonMediaType[..|JsonMediaType|] == JsonMediaType;
    }
    assert ParseResponseBody(JsonOk(data)) == Some(JsonBody(data));
  }

  /** With no token stored, no Authorization header is added. */
  lemma GetWithoutToken(variant: Variant)
    ensures var req := Prepare(variant, TestBaseURL, "/api/test", Get(NoOptions), map[]);
            AuthorizationHeaderKey !in req.config.headers && req.accessToken == None
  {
  }

  /** A POST sends the encoded payload as its body, with method POST and a JSON Content-Type. */
  lemma PostEncodesBody(variant: Variant, stringify: Json -> string)
    ensures var data := JObject([("name", JString("test"))]);
            var req := Prepare(variant, TestBaseURL, "/api/test", Post(data, NoOptions, stringify), map[]);
            && req.config.httpMethod == Some("POST")
            && req.config.body == Some(stringify(data))
            && req.config.headers == map[ContentTypeKey := JsonMediaType]
  {
  }

  /** A DELETE with data sends the encoded data as its body. */
  lemma DeleteWithDataHasBody(variant: Variant, stringify: Json -> string)
    requires stringify(JObject([("id", JNumber(1))])) != ""
    ensures var data := JObject([("id", JNumber(1))]);
            var req := Prepare(variant, TestBaseURL, "/api/test/1", Delete(data, NoOptions, stringify), map[]);
            req.config.httpMethod == Some("DELETE") && req.config.body == Some(stringify(data))
  {
  }

  /** A DELETE without data (null) sends neither a body nor a Content-Type. */
  lemma DeleteWithoutDataHasNoBody(stringify: Json -> string)
    ensures var o := Delete(JNull, NoOptions, stringify);
            o.body == None && ContentTypeKey !in o.headers
  {
  }

  /** A 400 with a JSON body rejects with a Fetch error carrying 400 and that body. */
  lemma BadRequestIsFetchError(variant: Variant)
    ensures var req := Prepare(variant, TestBaseURL, "/api/test", Get(NoOptions), map[]);
            var body := JObject([("error", JString("Bad Request"))]);
            var r := Response(false, 400, Some(JsonMediaType), "", Some(body));
            OnResponse(Idle, req, r)
              == (Idle, Settles(Rejected(Fetch(FetchError("Fetch error", 400, Some(JsonBody(body)))))))
  {
    ParseKindDefaults();
  }

  /** A `text/plain` response resolves to its text. */
  lemma PlainTextResolvesToText(variant: Variant)
    ensures var req := Prepare(variant, TestBaseURL, "/api/test", Get(NoOptions), map[]);
            var r := Response(true, 200, Some("text/plain"), "Hello World", None);
            OnResponse(Idle, req, r) == (Idle, Settles(Resolved(TextBody("Hello World"))))
  {
    ParseKindDefaults();
  }

  /** A 401 from the login endpoint does not start a refresh: it rejects at once. */
  lemma LoginUnauthorizedDoesNotRefresh(variant: Variant)
    ensures var req := Prepare(variant, TestBaseURL, "/auth/login", Post(JNull, NoOptions, (_: Json) => "null"), map[]);
            var r := Response(false, 401, None, "Unauthorized", None);
            OnResponse(Idle, req, r)
              == (Idle, Settles(Rejected(Fetch(FetchError("Fetch error", 401, Some(TextBody("Unauthorized")))))))
  {
    ParseKindDefaults();
    LoginUnauthorizedIsFetchError(Response(false, 401, None, "Unauthorized", None));
  }
}
