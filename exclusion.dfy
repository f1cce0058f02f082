/**
 * `_shouldProcessRequest`: whether a 401 on a path may start the token
 * refresh. A path is excluded when it equals an entry of the exact list or
 * contains an entry of the substring list.
 */
module Exclusion {
  import opened Http

  /** Paths excluded when they contain one of these (SHOULD_NOT_INCLUDE_URLS). */
  const ShouldNotIncludeUrls: seq<string> := []
  /** Paths excluded when they equal one of these (SHOULD_NOT_EQUAL_URLS). */
  const ShouldNotEqualUrls: seq<string> := ["/auth/login"]

  /** `blocked.some(b => url === b)` */
  function AnyEqual(blocked: seq<string>, url: string): (r: bool)
    ensures r <==> url in blocked
  {
    if blocked == [] then false
    else blocked[0] == url || AnyEqual(blocked[1..], url)
  }

  /** `fragments.some(f => url.includes(f))` */
  function AnyIncluded(fragments: seq<string>, url: string): (r: bool)
    ensures r <==> exists k :: 0 <= k < |fragments| && Includes(url, fragments[k])
  {
    if fragments == [] then false
    else Includes(url, fragments[0]) || AnyIncluded(fragments[1..], url)
  }

  /** `_shouldProcessRequest(url)` over the two given lists. */
  function ShouldProcessRequest(url: string, equalUrls: seq<string>, includeUrls: seq<string>): (r: bool)
    ensures r <==> url !in equalUrls && forall k :: 0 <= k < |includeUrls| ==> !Includes(url, includeUrls[k])
  {
    !AnyEqual(equalUrls, url) && !AnyIncluded(includeUrls, url)
  }

  /**
   * A path is eligible exactly when no exact entry equals it and no
   * substring entry occurs anywhere in it.
   */
  lemma ShouldProcessRequestIff(url: string, equalUrls: seq<string>, includeUrls: seq<string>)
    ensures ShouldProcessRequest(url, equalUrls, includeUrls)
        <==> url !in equalUrls
             && forall k :: 0 <= k < |includeUrls| ==> !exists i :: OccursAt(url, includeUrls[k], i)
  {
    forall k | 0 <= k < |includeUrls| {
      IncludesIff(url, includeUrls[k]);
    }
  }

  /** With the configured lists, only `/auth/login` is excluded. */
  lemma DefaultListsExcludeOnlyLogin(url: string)
    ensures ShouldProcessRequest(url, ShouldNotEqualUrls, ShouldNotIncludeUrls) <==> url != "/auth/login"
  {
  }

  /** An empty substring entry would exclude every path. */
  lemma EmptyFragmentExcludesAll(url: string, equalUrls: seq<string>, includeUrls: seq<string>)
    requires "" in includeUrls
    ensures !ShouldProcessRequest(url, equalUrls, includeUrls)
  {
    var k :| 0 <= k < |includeUrls| && includeUrls[k] == "";
    IncludesEmpty(url);
  }
}
