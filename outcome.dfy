/**
 * How `apiFetch` settles once a response is in hand: the first response
 * that is not a refresh-eligible 401, the retry after a refresh, and the
 * replay of a queued waiter.
 */
module Outcome {
  import opened Http
  import opened Exclusion

  /** `new Error('Fetch error')` with `status` and `response` (None is null). */
  datatype FetchError = FetchError(message: string, status: int, response: Option<Body>)

  /** The error the token refresh fails with (taken to be a truthy value). */
  datatype RefreshError = RefreshError(message: string)

  /** Why a call to `apiFetch` rejects. */
  datatype Reason =
    | Fetch(error: FetchError)          // non-ok response outside the refresh path
    | Unparsable                        // `response.json()` threw on a body that had to be read
    | RawResponse(response: Response)   // the retry after a refresh was not ok
    | Refresh(refreshError: RefreshError) // the refresh itself failed

  datatype Settled = Resolved(body: Body) | Rejected(reason: Reason)

  /** A 401 on a path `_shouldProcessRequest` lets through. */
  predicate Eligible401(url: string, r: Response) {
    r.status == 401 && ShouldProcessRequest(url, ShouldNotEqualUrls, ShouldNotIncludeUrls)
  }

  /** `return await _parseResponseBody(response)`: a parse failure rejects. */
  function Returned(parsed: Option<Body>): Settled {
    if parsed.Some? then Resolved(parsed.value) else Rejected(Unparsable)
  }

  /**
   * The first response when it does not enter the refresh path: a non-ok
   * response is a Fetch error carrying the status and the best-effort body,
   * an ok one is parsed.
   */
  function SettleResponse(r: Response): Settled {
    if !r.ok then
      Rejected(Fetch(FetchError("Fetch error", r.status, ParseResponseBody(r))))
    else
      Returned(ParseResponseBody(r))
  }

  /** `if (!response.ok) throw response;` then the body, after a refresh. */
  function RetryOutcome(r: Response): Settled {
    if !r.ok then Rejected(RawResponse(r)) else Returned(ParseResponseBody(r))
  }

  /**
   * A waiter's replay: the body is parsed without looking at `ok`. None:
   * the parse threw inside the waiter's own callback, nothing forwards it,
   * and the caller's promise never settles.
   */
  function ReplayOutcome(r: Response): (s: Option<Settled>)
    ensures s.Some? ==> s.value.Resolved?
    ensures s.Some? <==> ParseResponseBody(r).Some?
    ensures s.Some? ==> s.value == Resolved(ParseResponseBody(r).value)
  {
    var parsed := ParseResponseBody(r);
    if parsed.Some? then Some(Resolved(parsed.value)) else None
  }

  /**
   * A non-ok response rejects with a Fetch error whose status is the
   * response's; its body is null exactly when reading the body failed.
   */
  lemma FetchErrorCarriesStatusAndBody(r: Response)
    requires !r.ok
    ensures SettleResponse(r).Rejected? && SettleResponse(r).reason.Fetch?
    ensures var e := SettleResponse(r).reason.error;
            e.message == "Fetch error" && e.status == r.status
            && (e.response.None? <==> ParseKind(r.contentType) == ParseJson && r.json.None?)
            && (ParseKind(r.contentType) == ParseText ==> e.response == Some(TextBody(r.text)))
  {
    ParseResponseBodyChoice(r);
  }

  /** An ok response resolves with its parsed body, JSON or text by its Content-Type. */
  lemma OkResponseResolvesWithBody(r: Response)
    requires r.ok
    ensures ParseKind(r.contentType) == ParseText ==> SettleResponse(r) == Resolved(TextBody(r.text))
    ensures ParseKind(r.contentType) == ParseJson && r.json.Some? ==>
              SettleResponse(r) == Resolved(JsonBody(r.json.value))
    ensures ParseKind(r.contentType) == ParseJson && r.json.None? ==> SettleResponse(r) == Rejected(Unparsable)
  {
  }

  /** A 401 on `/auth/login` is never eligible: it settles as a Fetch error with status 401. */
  lemma LoginUnauthorizedIsFetchError(r: Response)
    requires r.status == 401 && !r.ok
    ensures !Eligible401("/auth/login", r)
    ensures SettleResponse(r).Rejected? && SettleResponse(r).reason.Fetch?
    ensures SettleResponse(r).reason.error.status == 401
  {
    DefaultListsExcludeOnlyLogin("/auth/login");
  }

  /**
   * After a refresh the retry rejects with the raw response exactly when it is
   * not ok; the same body rule applies to it as to the first response.
   */
  lemma RetryOutcomeSpec(r: Response)
    ensures RetryOutcome(r) == Rejected(RawResponse(r)) <==> !r.ok
    ensures r.ok ==> RetryOutcome(r) == SettleResponse(r)
  {
  }

  /**
   * A replay settles as the plain body even on a non-ok response, where the
   * first response would have rejected.
   */
  lemma ReplayIgnoresStatus(r: Response)
    requires !r.ok && ParseKind(r.contentType) == ParseText
    ensures ReplayOutcome(r) == Some(Resolved(TextBody(r.text)))
    ensures SettleResponse(r).Rejected?
  {
  }

  /**
   * The replay against the first response, for every response: an ok one
   * whose body parses ends the same way; a non-ok one whose body parses
   * resolves where the first response rejects; a body that does not parse
   * rejects a first response and never settles a replay.
   */
  lemma ReplayVersusFirstResponse(r: Response)
    ensures r.ok && ParseResponseBody(r).Some? ==> ReplayOutcome(r) == Some(SettleResponse(r))
    ensures !r.ok && ParseResponseBody(r).Some? ==>
              ReplayOutcome(r) == Some(Resolved(ParseResponseBody(r).value)) && SettleResponse(r).Rejected?
    ensures ParseResponseBody(r).None? ==> ReplayOutcome(r).None? && SettleResponse(r).Rejected?
  {
  }
}
