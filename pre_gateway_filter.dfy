/**
  The gateway filter PreGatewayFilter.apply returns: bypass listed paths,
  reject a malformed Authorization header locally, otherwise ask the auth
  service through validToken and turn its status into a response.

  The pure function Evaluate states the outcome of one request; the class
  Exchange and the method Apply reproduce the filter's mutation of the
  response and are proved to agree with Evaluate.
 */
module PreGatewayFilter {
  import opened JavaLang
  import opened BypassMatcher
  import opened AuthServiceClient

  const Unauthorized: int := 401
  const InternalServerError: int := 500

  /** PreGatewayFilter.Config. */
  datatype Config = Config(tokenPrefix: string, authenticationTimeoutCode: int)

  /** The values Config's field initialisers give. */
  const DefaultConfig: Config := Config("Bearer ", 419)

  /** What the filter reads of an inbound request: the path, the method,
      and the first Authorization header value (null when there is none). */
  datatype Request = Request(path: string, httpMethod: string, authorization: Nullable<string>)

  /** How the filter leaves the exchange. */
  datatype Decision =
    | Proceed            // chain.filter(exchange): the request goes on to the backend
    | Reject(code: int)  // setStatusCode(code) then setComplete()
    | Unanswered         // the validation completed empty: neither of the above happened
    | Thrown             // a NullPointerException escaped the filter

  /** The decision and the bodies sent to /auths/validToken on the way. */
  datatype Evaluation = Evaluation(decision: Decision, sent: seq<string>)

  /** HttpStatusCode.valueOf accepts exactly the three-digit codes; any
      other configured code makes it throw. */
  predicate IsHttpStatusCode(code: int)
  {
    100 <= code <= 999
  }

  /** The flatMap on validToken's result together with the onErrorResume
      after it. An exception inside the flatMap (an unacceptable configured
      timeout code) becomes 500. */
  function OnValidation(cfg: Config, v: Validation): (d: Decision)
    ensures d.Reject? ==>
              && d.code in {Unauthorized, InternalServerError, cfg.authenticationTimeoutCode}
              && IsHttpStatusCode(d.code)
    ensures d == Proceed <==> v.Status? && v.n !in {0, 2, 3, TransportError}
    ensures d == Unanswered <==> v == NoValue
    ensures d != Thrown
  {
    match v
    case NoValue => Unanswered
    case Status(n) =>
      if n == 2 then
        if IsHttpStatusCode(cfg.authenticationTimeoutCode)
        then Reject(cfg.authenticationTimeoutCode)
        else Reject(InternalServerError)
      else if n == 3 || n == TransportError then Reject(InternalServerError)
      else if n == 0 then Reject(Unauthorized)
      else Proceed
  }

  /** One pass of the filter over a request, with the auth service's
      answers given by `remote`. */
  function Evaluate(cfg: Config, req: Request, remote: string -> Reply): (e: Evaluation)
    ensures |e.sent| <= 1
    ensures e.decision == Thrown ==> e.sent == []
  {
    if ShouldBypass(req.path) then
      Evaluation(Proceed, [])
    else if req.authorization.NonNull? && !StartsWith(req.authorization.value, cfg.tokenPrefix) then
      Evaluation(Reject(Unauthorized), [])
    else
      match ValidToken(req.authorization, remote)
      case NullPointer => Evaluation(Thrown, [])
      case Sent(body, v) => Evaluation(OnValidation(cfg, v), [body])
  }

  /** The fixed codes the gate answers with are ones HttpStatusCode.valueOf
      accepts, so only the configured timeout code can make it throw. */
  lemma HttpStatusCodeRange()
    ensures IsHttpStatusCode(Unauthorized) && IsHttpStatusCode(InternalServerError)
  {
  }

  /** The default configuration is consistent: the prefix the gate checks
      is the one the client strips, and HttpStatusCode accepts 419. */
  lemma DefaultConfigIsConsistent()
    ensures DefaultConfig.tokenPrefix == BearerPattern
    ensures DefaultConfig.authenticationTimeoutCode == 419
    ensures IsHttpStatusCode(DefaultConfig.authenticationTimeoutCode)
  {
  }

  /** A bypassed path proceeds without a look at the header, and the auth
      service is never asked. */
  lemma BypassProceedsUnchecked(cfg: Config, req: Request, remote: string -> Reply)
    requires ShouldBypass(req.path)
    ensures Evaluate(cfg, req, remote) == Evaluation(Proceed, [])
  {
  }

  /** The HTTP method is read but has no effect on anything. */
  lemma MethodIsIgnored(cfg: Config, req: Request, m: string, remote: string -> Reply)
    ensures Evaluate(cfg, req.(httpMethod := m), remote) == Evaluate(cfg, req, remote)
  {
  }

  /** A header that does not start with the configured prefix, compared
      case-sensitively, is rejected with 401 and never sent. */
  lemma WrongPrefixRejectedLocally(cfg: Config, req: Request, remote: string -> Reply)
    requires !ShouldBypass(req.path)
    requires req.authorization.NonNull?
    requires !StartsWith(req.authorization.value, cfg.tokenPrefix)
    ensures Evaluate(cfg, req, remote) == Evaluation(Reject(Unauthorized), [])
  {
  }

  /** With the default prefix, an empty header and a lower-case "bearer"
      are both malformed. */
  lemma EmptyAndLowerCaseHeadersRejected(path: string, remote: string -> Reply)
    requires !ShouldBypass(path)
    ensures Evaluate(DefaultConfig, Request(path, "GET", NonNull("")), remote)
         == Evaluation(Reject(Unauthorized), [])
    ensures Evaluate(DefaultConfig, Request(path, "GET", NonNull("bearer x")), remote)
         == Evaluation(Reject(Unauthorized), [])
  {
  }

  /** A missing header on a guarded path is not treated as a "missing
      token" answer: validToken throws before any request is sent. */
  lemma NullHeaderThrows(cfg: Config, req: Request, remote: string -> Reply)
    requires !ShouldBypass(req.path)
    requires req.authorization == Null
    ensures Evaluate(cfg, req, remote) == Evaluation(Thrown, [])
  {
  }

  /** A header that passes the prefix check is cleaned, sent exactly once,
      and the answer alone decides. */
  lemma AcceptedHeaderConsultsService(cfg: Config, req: Request, remote: string -> Reply)
    requires !ShouldBypass(req.path)
    requires req.authorization.NonNull?
    requires StartsWith(req.authorization.value, cfg.tokenPrefix)
    ensures var body := CleanToken(req.authorization.value);
            Evaluate(cfg, req, remote)
              == Evaluation(OnValidation(cfg, Normalise(remote(body))), [body])
  {
  }

  /** The status-to-response table, for every configuration: 2 gives the
      configured timeout code (500 if HttpStatusCode refuses it), 3 and -1
      give 500, 0 gives 401, and every other status proceeds. */
  lemma StatusTable(cfg: Config, n: int)
    ensures n == 2 && IsHttpStatusCode(cfg.authenticationTimeoutCode) ==>
              OnValidation(cfg, Status(n)) == Reject(cfg.authenticationTimeoutCode)
    ensures n == 2 && !IsHttpStatusCode(cfg.authenticationTimeoutCode) ==>
              OnValidation(cfg, Status(n)) == Reject(InternalServerError)
    ensures n == 3 || n == -1 ==> OnValidation(cfg, Status(n)) == Reject(InternalServerError)
    ensures n == 0 ==> OnValidation(cfg, Status(n)) == Reject(Unauthorized)
    ensures n !in {0, 2, 3, -1} ==> OnValidation(cfg, Status(n)) == Proceed
  {
  }

  /** Any failure of the call to the auth service ends in 500. */
  lemma TransportFailureRejects500(cfg: Config, req: Request, remote: string -> Reply)
    requires !ShouldBypass(req.path)
    requires req.authorization.NonNull?
    requires StartsWith(req.authorization.value, cfg.tokenPrefix)
    requires remote(CleanToken(req.authorization.value)) == Failed
    ensures Evaluate(cfg, req, remote).decision == Reject(InternalServerError)
  {
  }

  /** A bodiless answer outside 4xx/5xx leaves the request neither forwarded nor
      rejected. */
  lemma EmptyReplyLeavesRequestUnanswered(cfg: Config, req: Request, remote: string -> Reply)
    requires !ShouldBypass(req.path)
    requires req.authorization.NonNull?
    requires StartsWith(req.authorization.value, cfg.tokenPrefix)
    requires remote(CleanToken(req.authorization.value)) == EmptyBody
    ensures Evaluate(cfg, req, remote).decision == Unanswered
  {
  }

  /** Clients only ever see 401, 500 or the configured timeout code, and
      that code only when HttpStatusCode accepts it. */
  lemma RejectCodesAreKnown(cfg: Config, req: Request, remote: string -> Reply)
    ensures var d := Evaluate(cfg, req, remote).decision;
            d.Reject? ==>
              && d.code in {Unauthorized, InternalServerError, cfg.authenticationTimeoutCode}
              && IsHttpStatusCode(d.code)
  {
  }

  /** With the default configuration, the body sent is the header without
      its first seven characters. */
  lemma DefaultGateSendsTokenWithoutPrefix(req: Request, remote: string -> Reply)
    requires !ShouldBypass(req.path)
    requires req.authorization.NonNull?
    requires StartsWith(req.authorization.value, DefaultConfig.tokenPrefix)
    ensures Evaluate(DefaultConfig, req, remote).sent == [req.authorization.value[7..]]
  {
    CleanTokenDropsExactBearer(req.authorization.value);
  }

  /** The gate checks the configured prefix but the client strips "Bearer ":
      with another prefix the header is sent with its prefix on. */
  lemma CustomPrefixIsNotStripped(remote: string -> Reply)
    ensures Evaluate(Config("Token ", 419), Request("/orders/list", "GET", NonNull("Token abc")), remote).sent
         == ["Token abc"]
  {
    ExactPathsAreStrict();
    CleanTokenIffFoldedPrefix("Token abc");
  }

  /** The default configuration answers an expired token with 419. */
  lemma DefaultExpiredGives419(req: Request, remote: string -> Reply)
    requires !ShouldBypass(req.path)
    requires req.authorization.NonNull?
    requires StartsWith(req.authorization.value, DefaultConfig.tokenPrefix)
    requires remote(CleanToken(req.authorization.value)) == Decoded(2)
    ensures Evaluate(DefaultConfig, req, remote).decision == Reject(419)
  {
  }

  /** A login without any Authorization header proceeds. */
  lemma ScenarioLoginWithoutHeader(remote: string -> Reply)
    ensures Evaluate(DefaultConfig, Request("/auths/login", "POST", Null), remote)
         == Evaluation(Proceed, [])
  {
  }

  /** A Basic header on a guarded path is refused locally with 401. */
  lemma ScenarioBasicHeader(remote: string -> Reply)
    ensures Evaluate(DefaultConfig, Request("/orders/list", "GET", NonNull("Basic xyz")), remote)
         == Evaluation(Reject(Unauthorized), [])
  {
    ExactPathsAreStrict();
    NoPrefixAt("Basic xyz", "Bearer ", 1);
  }

  /** "Bearer abc" on a guarded path sends "abc"; the answers 1, 2 and a
      failed call give Proceed, 419 and 500. */
  lemma ScenarioBearerHeader(remote: string -> Reply)
    ensures var e := Evaluate(DefaultConfig, Request("/orders/list", "GET", NonNull("Bearer abc")), remote);
            && e.sent == ["abc"]
            && (remote("abc") == Decoded(1) ==> e.decision == Proceed)
            && (remote("abc") == Decoded(2) ==> e.decision == Reject(419))
            && (remote("abc") == Failed ==> e.decision == Reject(InternalServerError))
  {
    ExactPathsAreStrict();
    CleanTokenDropsExactBearer("Bearer abc");
    assert "Bearer abc"[7..] == "abc";
  }

  /** The part of a ServerWebExchange the filter changes. */
  class Exchange {
    var status: Nullable<int>  // the response's status code; Null until set
    var completed: bool        // response.setComplete() was called
    var forwarded: bool        // chain.filter(exchange) was called

    constructor ()
      ensures Untouched()
    {
      status, completed, forwarded := Null, false, false;
    }

    predicate Untouched()
      reads this
    {
      status == Null && !completed && !forwarded
    }

    /** response.setStatusCode(code) followed by response.setComplete(). */
    method Respond(code: int)
      modifies this
      ensures status == NonNull(code) && completed && forwarded == old(forwarded)
    {
      status := NonNull(code);
      completed := true;
    }

    /** chain.filter(exchange). */
    method Forward()
      modifies this
      ensures forwarded && status == old(status) && completed == old(completed)
    {
      forwarded := true;
    }
  }

  /** The filter lambda, step by step on the exchange. It returns whether an
      exception escaped it and the bodies sent to the auth service. */
  method Apply(cfg: Config, req: Request, remote: string -> Reply, ex: Exchange)
    returns (thrown: bool, sent: seq<string>)
    requires ex.Untouched()
    modifies ex
    ensures var e := Evaluate(cfg, req, remote);
            && sent == e.sent
            && (thrown <==> e.decision == Thrown)
            && (ex.forwarded <==> e.decision == Proceed)
            && (ex.completed <==> e.decision.Reject?)
            && (e.decision.Reject? ==> ex.status == NonNull(e.decision.code))
            && (!e.decision.Reject? ==> ex.status == Null)
    ensures !(ex.forwarded && ex.completed)
  {
    thrown, sent := false, [];
    if ShouldBypass(req.path) {
      ex.Forward();
      return;
    }
    var token := req.authorization;
    if token.NonNull? && !StartsWith(token.value, cfg.tokenPrefix) {
      ex.Respond(Unauthorized);
      return;
    }
    var call := ValidToken(token, remote);
    if call.NullPointer? {
      thrown := true;
      return;
    }
    sent := [call.body];
    match call.result
    case NoValue =>
    case Status(n) =>
      if n == 2 {
        if IsHttpStatusCode(cfg.authenticationTimeoutCode) {
          ex.Respond(cfg.authenticationTimeoutCode);
        } else {
          // HttpStatusCode.valueOf threw; onErrorResume answers 500
          ex.Respond(InternalServerError);
        }
      } else if n == 3 || n == TransportError {
        ex.Respond(InternalServerError);
      } else if n == 0 {
        ex.Respond(Unauthorized);
      } else {
        ex.Forward();
      }
  }
}
