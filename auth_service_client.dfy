/**
  AuthServiceClient.validToken: clean the token, POST it to the auth
  service's /auths/validToken endpoint, and reduce the outcome to one integer
  status. The HTTP exchange itself is a parameter, `remote`, from the body
  that is sent to the way the exchange ended.
 */
module AuthServiceClient {
  import opened JavaLang

  /** The literal part of the pattern "(?i)^Bearer " that replaceFirst removes. */
  const BearerPattern: string := "Bearer "

  /** The status the client substitutes for any failed exchange. */
  const TransportError: int := -1

  /** How the POST to /auths/validToken ended, once the body was decoded. */
  datatype Reply =
    | Decoded(statusNum: int)  // a response outside 4xx/5xx whose body gave statusNum
    | EmptyBody                // a response outside 4xx/5xx with no body: bodyToMono completes empty
    | Failed                   // no connection, a 4xx/5xx status, or a body that does not decode

  /** What the Mono<Integer> returned by validToken emits: one status, or
      nothing at all when it completes empty. */
  datatype Validation = Status(n: int) | NoValue

  /** The outcome of calling validToken: a NullPointerException when the
      token is null, otherwise the body sent and the validation it led to. */
  datatype Call = NullPointer | Sent(body: string, result: Validation)

  /** token.replaceFirst("(?i)^Bearer ", ""): one leading "Bearer ", in any
      ASCII case, is removed; nothing else is. */
  function CleanToken(token: string): (r: string)
    ensures |r| == |token| || |r| == |token| - |BearerPattern|
    ensures r == token[|token| - |r|..]
    ensures |r| < |token| <==> PrefixMatchesIgnoreCase(token, BearerPattern)
  {
    if PrefixMatchesIgnoreCase(token, BearerPattern) then token[|BearerPattern|..] else token
  }

  /** .map(getStatusNum).onErrorResume(e -> Mono.just(-1)) */
  function Normalise(reply: Reply): (v: Validation)
    ensures reply.Decoded? ==> v == Status(reply.statusNum)
    ensures reply.Failed? ==> v == Status(TransportError)
    ensures v == NoValue <==> reply == EmptyBody
  {
    match reply
    case Decoded(n) => Status(n)
    case EmptyBody => NoValue
    case Failed => Status(TransportError)
  }

  /** validToken(token): a null token throws before any request is built;
      otherwise the cleaned token is the one body sent. */
  function ValidToken(token: Nullable<string>, remote: string -> Reply): (c: Call)
    ensures c == NullPointer <==> token == Null
    ensures c.Sent? ==> c.body == CleanToken(token.value)
    ensures c.Sent? ==> |c.body| <= |token.value| && c.body == token.value[|token.value| - |c.body|..]
    ensures c.Sent? ==> (|c.body| < |token.value| <==> PrefixMatchesIgnoreCase(token.value, BearerPattern))
    ensures c.Sent? && c.result.Status? ==>
              c.result.n == TransportError || remote(c.body) == Decoded(c.result.n)
    ensures c.Sent? ==> (remote(c.body).Failed? ==> c.result == Status(TransportError))
    ensures c.Sent? ==> (remote(c.body).Decoded? ==> c.result == Status(remote(c.body).statusNum))
    ensures c.Sent? ==> (c.result == NoValue <==> remote(c.body) == EmptyBody)
  {
    match token
    case Null => NullPointer
    case NonNull(t) =>
      var body := CleanToken(t);
      Sent(body, Normalise(remote(body)))
  }

  /** CleanToken agrees with its reference reading: the first seven
      characters, folded to lower case, spell "bearer ". */
  lemma CleanTokenIffFoldedPrefix(token: string)
    ensures CleanToken(token)
         == if |token| >= 7 && LowerAscii(token[..7]) == "bearer " then token[7..] else token
  {
    PrefixMatchesIgnoreCaseIsFolding(token, BearerPattern);
    assert LowerAscii(BearerPattern) == "bearer ";
  }

  /** Only a leading occurrence is removed: a "Bearer " that comes after
      at least one character is left in place, whatever comes before it. */
  lemma CleanTokenOnlyAtStart(head: string, tail: string)
    requires head != []
    ensures CleanToken(head + BearerPattern + tail) == CleanToken(head) + BearerPattern + tail
  {
    assert head + BearerPattern + tail == head + (BearerPattern + tail);
    if |head| >= 7 {
      LongHeadDecidesMatch(head, BearerPattern + tail);
      assert CleanToken(head) + (BearerPattern + tail) == CleanToken(head) + BearerPattern + tail;
    } else {
      ShortHeadNeverMatches(head, tail);
    }
  }

  /** With seven or more characters before it, the rest of the token has no
      say in whether the prefix is removed. */
  lemma LongHeadDecidesMatch(head: string, rest: string)
    requires |head| >= 7
    ensures CleanToken(head + rest) == CleanToken(head) + rest
  {
    var token := head + rest;
    CleanTokenIffFoldedPrefix(token);
    CleanTokenIffFoldedPrefix(head);
    assert token[..7] == head[..7];
    assert token[7..] == head[7..] + rest;
  }

  /** A "Bearer " starting at position 1 to 6 cannot be part of a match:
      its 'B' folds to 'b' where "bearer " has another character. */
  lemma ShortHeadNeverMatches(head: string, tail: string)
    requires 0 < |head| < 7
    ensures CleanToken(head + BearerPattern + tail) == head + BearerPattern + tail
    ensures CleanToken(head) == head
  {
    CleanTokenIffFoldedPrefix(head);
    var token := head + BearerPattern + tail;
    var k := |head|;
    CleanTokenIffFoldedPrefix(token);
    assert token[k] == 'B';
    LowerAsciiAt(token[..7], k);
    assert "bearer "[k] != 'b';
  }

  /** The prefix is matched regardless of ASCII case. */
  lemma CleanTokenIgnoresCase()
    ensures CleanToken("bEaReR abc") == "abc"
  {
    CleanTokenIffFoldedPrefix("bEaReR abc");
  }

  /** At most one prefix is removed, so cleaning is not idempotent. */
  lemma CleanTokenNotIdempotent()
    ensures CleanToken("Bearer Bearer x") == "Bearer x"
    ensures CleanToken(CleanToken("Bearer Bearer x")) == "x"
  {
    CleanTokenDropsExactBearer("Bearer Bearer x");
    CleanTokenDropsExactBearer("Bearer x");
  }

  /** The space is part of the pattern: without it nothing is removed. */
  lemma CleanTokenNeedsTheSpace()
    ensures CleanToken("Bearerabc") == "Bearerabc"
  {
  }

  /** A token carrying the exact, case-sensitive "Bearer " loses exactly
      those seven characters. */
  lemma CleanTokenDropsExactBearer(token: string)
    requires StartsWith(token, BearerPattern)
    ensures CleanToken(token) == token[7..]
  {
    StartsWithImpliesPrefixMatchesIgnoreCase(token, BearerPattern);
  }

  /** The service's statusNum is passed on unchanged, every failure becomes
      exactly -1, and a remote -1 cannot be told apart from a failure. */
  lemma NormaliseKeepsStatusOrMinusOne(reply: Reply)
    ensures Normalise(reply).Status? ==>
              Normalise(reply).n == TransportError || reply == Decoded(Normalise(reply).n)
    ensures Normalise(Decoded(TransportError)) == Normalise(Failed)
  {
  }

  /** A null token is refused before anything is sent. */
  lemma NullTokenSendsNothing(remote: string -> Reply)
    ensures ValidToken(Null, remote) == NullPointer
  {
  }
}
