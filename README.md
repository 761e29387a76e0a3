# Authentication gate of the edge service, in Dafny

This project models the authentication gate of the edge service's API gateway:
the filter `PreGatewayFilter` that runs for every inbound request, and the
client `AuthServiceClient.validToken` it uses to ask the auth service whether
a token is good.

For one request the gate does the following:

1. If the path is one of nine exact paths, or starts with one of three raw
   prefixes, the request proceeds. The header is not read, and the HTTP method
   plays no part (`BypassMatcher.ShouldBypass`).
2. If the `Authorization` header is present but does not start with the
   configured `tokenPrefix` (case-sensitive), the gate answers 401 itself.
3. Otherwise the client removes one leading `Bearer `, in any ASCII case
   (`AuthServiceClient.CleanToken`), and POSTs the rest to `/auths/validToken`.
   It passes the returned `statusNum` on unchanged, or `-1` on any failure
   (`AuthServiceClient.Normalise`).
4. The gate maps the status: 2 gives the configured `authenticationTimeoutCode`
   (419 by default), 3 and -1 give 500, 0 gives 401, and everything else
   proceeds (`PreGatewayFilter.OnValidation`). An exception inside this step
   gives 500.

The HTTP exchange with the auth service is the parameter
`remote: string -> Reply`. It maps the body sent to the way the exchange
ended. `PreGatewayFilter.Evaluate` returns the decision and the list of bodies
sent, so the lemmas can state when the auth service is never consulted.
`PreGatewayFilter.Exchange` and `PreGatewayFilter.Apply` reproduce the
filter's step-by-step mutation of the response: set the status code and
complete, or call the chain. `Apply` is proved to agree with `Evaluate` and
never to do both.

Files:
- `java_lang.dfy`: the Java behaviour the gate relies on. It holds nullable
  references, `String.startsWith`, and the ASCII-only case folding that
  `java.util.regex` applies under `(?i)`.
- `bypass_matcher.dfy`: the bypass list.
- `auth_service_client.dfy`: `validToken`.
- `pre_gateway_filter.dfy`: the configuration, the decision, and the response
  mutation.

### Where the code and its design description differ (the model follows the code)

- A request to a guarded path without an `Authorization` header is described
  as being sent on with an empty token, so that the auth service can answer
  "missing". In the code the null header passes the prefix check
  (`PreGatewayFilter.java:59`). `token.replaceFirst` then throws a
  NullPointerException (`AuthServiceClient.java:17`) before any request is
  built, and outside the `onErrorResume`. The model gives `Decision.Thrown`
  and sends nothing (`PreGatewayFilter.NullHeaderThrows`).
- The design says every request ends in exactly one decision. If the auth
  service answers with a status outside 4xx/5xx and no body, `bodyToMono` completes empty, the
  `flatMap` never runs, and the `onErrorResume` is not triggered. The filter
  then neither sets a status nor calls the chain. The model gives
  `Decision.Unanswered` (`PreGatewayFilter.EmptyReplyLeavesRequestUnanswered`).
- The design lists statuses 0 to 3 and -1 as the only outcomes. The code lets
  every other status proceed (fail open), and so does the model
  (`PreGatewayFilter.StatusTable`).
- The design asks for a timeout on the validator call. The code sets none, and
  the model has none. An auth service that never answers therefore leaves the
  request pending for ever (see "Left out").
- The gate checks the configured prefix, but the client always strips
  `Bearer `. With another prefix configured, the header goes to the auth
  service with its prefix still on (`PreGatewayFilter.CustomPrefixIsNotStripped`).
- A configured timeout code outside 100..999 makes `HttpStatusCode.valueOf`
  throw inside the `flatMap`. The `onErrorResume` then answers 500, and the
  model does the same.

## Model

| member | source | states |
|---|---|---|
| `BypassMatcher.ShouldBypass` | src/main/java/com/example/edgeservice/config/filter/PreGatewayFilter.java:39-51 | the source's chain of twelve tests in order; every path it lets through lies under `/auths/`, `/orders/` or `/api/` |
| `BypassMatcher.ShouldBypassIffListed` | src/main/java/com/example/edgeservice/config/filter/PreGatewayFilter.java:39-51 | a path bypasses if and only if it equals one of the nine exact paths or starts with one of the three prefixes |
| `BypassMatcher.PrefixExtensionsBypass` | src/main/java/com/example/edgeservice/config/filter/PreGatewayFilter.java:45-50 | every string that extends a listed prefix bypasses, because prefix matching is raw and has no segment boundary |
| `BypassMatcher.RawPrefixExamples` | src/main/java/com/example/edgeservice/config/filter/PreGatewayFilter.java:45-50 | `/auths/emailfoo`, `/api/geocodeX` and `/auths/check-idx` bypass |
| `BypassMatcher.ExactPathsAreStrict` | src/main/java/com/example/edgeservice/config/filter/PreGatewayFilter.java:39-49 | a trailing slash, a sub-path or a change of case on an exact path does not bypass, and `/orders/list` does not bypass |
| `JavaLang.AsciiLower` | src/main/java/com/example/edgeservice/config/client/AuthServiceClient.java:17 | the `(?i)` folding never yields an upper-case ASCII letter and changes only `A`..`Z`, each by +32 |
| `JavaLang.PrefixMatchesIgnoreCaseIsFolding` | src/main/java/com/example/edgeservice/config/client/AuthServiceClient.java:17 | `PrefixMatchesIgnoreCase`, the anchored character-by-character `(?i)` match of a literal, holds if and only if the text's first \|pattern\| characters equal the pattern once both are ASCII-folded |
| `JavaLang.StartsWithImpliesPrefixMatchesIgnoreCase` | src/main/java/com/example/edgeservice/config/client/AuthServiceClient.java:17 | a token that passes the case-sensitive prefix test also matches the case-insensitive pattern |
| `AuthServiceClient.CleanToken` | src/main/java/com/example/edgeservice/config/client/AuthServiceClient.java:17 | the cleaned token is a suffix of the token, either as long as the token or 7 shorter, and it is shorter exactly when the token begins with `Bearer ` in any ASCII case |
| `AuthServiceClient.CleanTokenIffFoldedPrefix` | src/main/java/com/example/edgeservice/config/client/AuthServiceClient.java:17 | the cleaned token is `t[7..]` if `t`'s first seven characters fold to `bearer `, and `t` otherwise |
| `AuthServiceClient.CleanTokenOnlyAtStart` | src/main/java/com/example/edgeservice/config/client/AuthServiceClient.java:17 | for any non-empty head, cleaning `head + "Bearer " + tail` cleans only the head and keeps the later `Bearer ` and the tail in place (so `"bob Bearer x"` and the second `Bearer ` of `"Bearer Bearer x"` are untouched) |
| `AuthServiceClient.CleanTokenIgnoresCase` | src/main/java/com/example/edgeservice/config/client/AuthServiceClient.java:17 | `bEaReR abc` is cleaned to `abc` |
| `AuthServiceClient.CleanTokenNotIdempotent` | src/main/java/com/example/edgeservice/config/client/AuthServiceClient.java:17 | only one prefix is removed: `Bearer Bearer x` becomes `Bearer x`, and cleaning again gives `x` |
| `AuthServiceClient.CleanTokenNeedsTheSpace` | src/main/java/com/example/edgeservice/config/client/AuthServiceClient.java:17 | `Bearerabc` is left unchanged, because the space is part of the pattern |
| `AuthServiceClient.CleanTokenDropsExactBearer` | src/main/java/com/example/edgeservice/config/client/AuthServiceClient.java:17 | a token that starts with exactly `Bearer ` loses exactly its first seven characters |
| `AuthServiceClient.Normalise` | src/main/java/com/example/edgeservice/config/client/AuthServiceClient.java:26-28 | a decoded `statusNum` is emitted unchanged, any failure becomes -1, and the stream is empty exactly when the reply had no body |
| `AuthServiceClient.NormaliseKeepsStatusOrMinusOne` | src/main/java/com/example/edgeservice/config/client/AuthServiceClient.java:27-28 | every emitted status is -1 or the service's own `statusNum`, and a remote -1 cannot be told apart from a failure |
| `AuthServiceClient.ValidToken` | src/main/java/com/example/edgeservice/config/client/AuthServiceClient.java:16-29 | a null token gives a NullPointerException and nothing else does; the body sent is exactly `CleanToken(token)`, a suffix of the token that is seven characters shorter exactly when the token begins with `Bearer ` in any ASCII case; a failed call gives -1, a decoded `statusNum` is emitted unchanged, nothing is emitted exactly when the reply had no body, and any status other than -1 is what the service answered to that body |
| `AuthServiceClient.NullTokenSendsNothing` | src/main/java/com/example/edgeservice/config/client/AuthServiceClient.java:17 | `validToken(null)` throws before any request is sent |
| `PreGatewayFilter.OnValidation` | src/main/java/com/example/edgeservice/config/filter/PreGatewayFilter.java:64-86 | a rejection is 401, 500 or the configured timeout code, and always a code `HttpStatusCode` accepts; the request proceeds if and only if the status is outside {0, 2, 3, -1}; it is unanswered if and only if the stream was empty |
| `PreGatewayFilter.StatusTable` | src/main/java/com/example/edgeservice/config/filter/PreGatewayFilter.java:66-80 | for every configuration: 2 gives the configured code (500 if `HttpStatusCode.valueOf` refuses it), 3 and -1 give 500, 0 gives 401, and every other status proceeds |
| `PreGatewayFilter.Evaluate` | src/main/java/com/example/edgeservice/config/filter/PreGatewayFilter.java:32-88 | at most one body is sent to the auth service, and none when an exception escapes |
| `PreGatewayFilter.HttpStatusCodeRange` | src/main/java/com/example/edgeservice/config/filter/PreGatewayFilter.java:68-76 | the fixed codes 401 and 500 lie in the range `HttpStatusCode.valueOf` accepts (100..999), so only the configured timeout code can make it throw |
| `PreGatewayFilter.DefaultConfigIsConsistent` | src/main/java/com/example/edgeservice/config/filter/PreGatewayFilter.java:94-95 | the defaults are prefix `Bearer `, the same string the client strips, and timeout code 419, which `valueOf` accepts |
| `PreGatewayFilter.BypassProceedsUnchecked` | src/main/java/com/example/edgeservice/config/filter/PreGatewayFilter.java:39-54 | a bypassed path proceeds whatever its header, and nothing is sent |
| `PreGatewayFilter.MethodIsIgnored` | src/main/java/com/example/edgeservice/config/filter/PreGatewayFilter.java:35-86 | changing the HTTP method changes neither the decision nor what is sent |
| `PreGatewayFilter.WrongPrefixRejectedLocally` | src/main/java/com/example/edgeservice/config/filter/PreGatewayFilter.java:59-62 | a present header without the configured prefix (case-sensitive) on a guarded path gives 401, and nothing is sent |
| `PreGatewayFilter.EmptyAndLowerCaseHeadersRejected` | src/main/java/com/example/edgeservice/config/filter/PreGatewayFilter.java:59-62 | with the default configuration, headers `""` and `"bearer x"` give 401 without a call |
| `PreGatewayFilter.NullHeaderThrows` | src/main/java/com/example/edgeservice/config/filter/PreGatewayFilter.java:56-64 | a missing header on a guarded path ends in an escaped exception, with nothing sent |
| `PreGatewayFilter.AcceptedHeaderConsultsService` | src/main/java/com/example/edgeservice/config/filter/PreGatewayFilter.java:64-86 | a header that passes the prefix check is cleaned and sent exactly once, and the normalised answer alone decides |
| `PreGatewayFilter.TransportFailureRejects500` | src/main/java/com/example/edgeservice/config/filter/PreGatewayFilter.java:70-73 | a failed call to the auth service gives 500 |
| `PreGatewayFilter.EmptyReplyLeavesRequestUnanswered` | src/main/java/com/example/edgeservice/config/filter/PreGatewayFilter.java:64-86 | a bodiless answer with a status outside 4xx/5xx leaves the request neither forwarded nor rejected |
| `PreGatewayFilter.RejectCodesAreKnown` | src/main/java/com/example/edgeservice/config/filter/PreGatewayFilter.java:59-86 | every rejection is 401, 500 or the configured timeout code, and always a valid HTTP status code |
| `PreGatewayFilter.DefaultGateSendsTokenWithoutPrefix` | src/main/java/com/example/edgeservice/config/client/AuthServiceClient.java:17 | with the default configuration, a header that passed the gate is sent without exactly its first seven characters |
| `PreGatewayFilter.CustomPrefixIsNotStripped` | src/main/java/com/example/edgeservice/config/filter/PreGatewayFilter.java:59-64 | with prefix `Token `, the header `Token abc` passes the gate and is sent unchanged |
| `PreGatewayFilter.DefaultExpiredGives419` | src/main/java/com/example/edgeservice/config/filter/PreGatewayFilter.java:94-95 | under the default configuration (`Bearer `, 419), an expired token gives 419 |
| `PreGatewayFilter.ScenarioLoginWithoutHeader` | src/main/java/com/example/edgeservice/config/filter/PreGatewayFilter.java:39-54 | `/auths/login` without a header proceeds; the bypass comes before the null header can throw |
| `PreGatewayFilter.ScenarioBasicHeader` | src/main/java/com/example/edgeservice/config/filter/PreGatewayFilter.java:59-62 | `/orders/list` with `Basic xyz` gives 401 without a call |
| `PreGatewayFilter.ScenarioBearerHeader` | src/main/java/com/example/edgeservice/config/filter/PreGatewayFilter.java:64-86 | `/orders/list` with `Bearer abc` sends `abc`; the answers 1, 2 and a failure give Proceed, 419 and 500 |
| `PreGatewayFilter.Exchange.Respond` | src/main/java/com/example/edgeservice/config/filter/PreGatewayFilter.java:60-61 | sets the status code and completes the response, leaving the chain untouched |
| `PreGatewayFilter.Exchange.Forward` | src/main/java/com/example/edgeservice/config/filter/PreGatewayFilter.java:53 | hands the exchange to the chain, leaving the response untouched |
| `PreGatewayFilter.Apply` | src/main/java/com/example/edgeservice/config/filter/PreGatewayFilter.java:32-88 | the filter's mutation of the exchange agrees with `Evaluate`: forwarded exactly on Proceed, completed with that code exactly on Reject, untouched otherwise, and never both forwarded and completed |

## Left out

- The HTTP exchange with the auth service (the POST, body serialisation, `retrieve`, `bodyToMono`) is network I/O through a library. Its outcome is the `remote` parameter. `ValidTokenRequestDTO` and `ValidTokenResponseDTO` are not part of this model, so what a missing or null `statusNum` decodes to is folded into `Reply`.
- No timeout is set on the call to the auth service. A service that accepts the POST and never answers leaves the request pending for ever. `Reply` has no variant for this outcome, so the model does not capture it.
- `WebClientConfig.java` is bean construction from the `sandit.auth-service-url` property and has no logic.
- Reactor scheduling, asynchrony, cancellation and backpressure are left out. Each request is one synchronous evaluation.
- Errors raised by the downstream chain after `chain.filter` also reach this filter's `onErrorResume` and would become 500. The backends are not modelled.
- What happens to `Decision.Thrown` and `Decision.Unanswered` after the filter (the framework's error handler, or the default 200 on completion) is outside the filter and not modelled.
- Logging, Spring registration (`@Component`, `@Order`, the filter factory) and writing the response (`setComplete`) are left out. The response is the `Exchange` fields, or a `Decision` value.
- A null `tokenPrefix` set through the configuration setter is not modelled. The prefix is always a string.
- Strings are sequences of characters, not UTF-16 code units. Every literal the gate compares against is ASCII, so the comparisons agree.
- Only the first `Authorization` value is modelled. How the framework picks it (`getFirst`) is not.
