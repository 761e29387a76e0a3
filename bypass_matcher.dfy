/**
  The bypass test at the top of PreGatewayFilter's filter lambda: the paths
  that reach the backends without any token check. The decision reads the
  path only; the HTTP method the filter also reads plays no part in it.
 */
module BypassMatcher {
  import opened JavaLang

  /** The paths that bypass when equal to the request path. */
  const ExactPaths: set<string> := {
    "/auths/login", "/auths/join", "/auths/login/oauth", "/auths/logout",
    "/auths/refresh", "/auths/re/tokens", "/orders/prepare",
    "/orders/update-fail", "/orders/update-success"
  }

  /** The paths that bypass when the request path starts with them. */
  const PrefixPaths: seq<string> := ["/auths/email", "/api/geocode", "/auths/check-id"]

  /** The source's chain of tests, in the source's order. Every path it
      lets through lies under /auths/, /orders/ or /api/. */
  predicate ShouldBypass(path: string): (b: bool)
    ensures b ==> StartsWith(path, "/auths/") || StartsWith(path, "/orders/") || StartsWith(path, "/api/")
  {
    || path == "/auths/login"
    || path == "/auths/join"
    || path == "/auths/login/oauth"
    || path == "/auths/logout"
    || path == "/auths/refresh"
    || path == "/auths/re/tokens"
    || StartsWith(path, "/auths/email")
    || StartsWith(path, "/api/geocode")
    || path == "/orders/prepare"
    || path == "/orders/update-fail"
    || path == "/orders/update-success"
    || StartsWith(path, "/auths/check-id")
  }

  /** A path bypasses exactly when it is one of the nine exact paths or
      begins with one of the three prefixes. */
  lemma ShouldBypassIffListed(path: string)
    ensures ShouldBypass(path)
        <==> path in ExactPaths || exists p :: p in PrefixPaths && StartsWith(path, p)
  {
  }

  /** Prefix matching is on raw characters with no segment boundary: every
      extension of a listed prefix bypasses. */
  lemma PrefixExtensionsBypass(p: string, rest: string)
    requires p in PrefixPaths
    ensures ShouldBypass(p + rest)
  {
  }

  /** Raw prefixes let through paths that are not sub-paths of the prefix. */
  lemma RawPrefixExamples()
    ensures ShouldBypass("/auths/emailfoo")
    ensures ShouldBypass("/api/geocodeX")
    ensures ShouldBypass("/auths/check-idx")
  {
  }

  /** Exact paths match only exactly and case-sensitively: a trailing slash,
      a sub-path or a change of case needs a token. */
  lemma ExactPathsAreStrict()
    ensures !ShouldBypass("/auths/login/")
    ensures !ShouldBypass("/auths/Login")
    ensures !ShouldBypass("/orders/prepare/1")
    ensures !ShouldBypass("/orders/list")
  {
    NoPrefixAt("/auths/login/", "/auths/email", 7);
    NoPrefixAt("/auths/login/", "/api/geocode", 2);
    NoPrefixAt("/auths/login/", "/auths/check-id", 7);
    NoPrefixAt("/auths/Login", "/auths/email", 7);
    NoPrefixAt("/auths/Login", "/api/geocode", 2);
    NoPrefixAt("/auths/Login", "/auths/check-id", 7);
    assert "/auths/Login"[7] != "/auths/login"[7];
    NoPrefixAt("/orders/prepare/1", "/auths/email", 1);
    NoPrefixAt("/orders/prepare/1", "/api/geocode", 2);
    NoPrefixAt("/orders/prepare/1", "/auths/check-id", 1);
  }

  /** A string whose i-th character differs from the prefix's does not
      start with it. */
  lemma NoPrefixAt(s: string, prefix: string, i: nat)
    requires i < |prefix| && (i >= |s| || s[i] != prefix[i])
    ensures !StartsWith(s, prefix)
  {
  }
}
