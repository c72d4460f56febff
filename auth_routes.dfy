/** The token routes of the auth service: the list of refresh tokens it has
    issued and the four POST handlers (/generate, /verify, /renew, /revoke)
    that check the request body, call the token service and update the list.

    The token service itself is not modelled: each call into it is whatever
    the `AuthService` value passed to a route answers. */
module AuthRoutes {

  type Token = string

  /** A field of a JSON request body as a handler destructures it: absent
      (undefined or null) or a string. */
  datatype Field = Absent | Text(s: string)

  /** JavaScript truthiness of a field: `!field` is false exactly when this holds. */
  predicate Truthy(f: Field)
  {
    f.Text? && f.s != ""
  }

  /** The response-message constants the handlers raise `MalformedRequest` with. */
  datatype Message =
    | MissingUserIdField
    | MissingAccessTokenField
    | MissingRefreshTokenField
    | InvalidRefreshToken

  /** An exception thrown by the token service, passed on to the error handler. */
  datatype ServiceError = ServiceError(reason: string)

  /** What one call into the token service produced. */
  datatype Outcome<T> = Done(value: T) | Threw(error: ServiceError)

  datatype TokenPair = TokenPair(accessToken: Token, refreshToken: Token)

  /** The token service as the routes see it: generateTokens(userId),
      verifyAccessToken(accessToken, userId) and renewAccessToken(refreshToken). */
  datatype AuthService = AuthService(
    generateTokens: string -> Outcome<TokenPair>,
    verifyAccessToken: (string, string) -> Outcome<()>,
    renewAccessToken: string -> Outcome<Token>)

  /** What a route sends back. */
  datatype Response =
    | Issued(accessToken: Token, refreshToken: Token)  // 200 with both tokens
    | Renewed(accessToken: Token)                       // 200 with a new access token
    | Ok                                                // bare 200
    | Malformed(message: Message)                       // MalformedRequest thrown
    | Failed(error: ServiceError)                       // the token service threw

  /** A route's answer together with the refresh-token list it leaves behind. */
  datatype Reply = Reply(response: Response, refreshTokens: seq<Token>)

  /** `tokens.filter(token => token != t)`: every occurrence of `t` dropped,
      the other tokens kept with their multiplicities and in their order. */
  function WithoutToken(tokens: seq<Token>, t: Token): (r: seq<Token>)
    ensures forall x :: x in r <==> x in tokens && x != t
    ensures forall x :: x != t ==> multiset(r)[x] == multiset(tokens)[x]
    ensures |r| == |tokens| - multiset(tokens)[t]
  {
    if tokens == [] then []
    else
      assert tokens == [tokens[0]] + tokens[1..];
      if tokens[0] == t then WithoutToken(tokens[1..], t)
      else [tokens[0]] + WithoutToken(tokens[1..], t)
  }

  /** POST /generate. */
  function GenerateReply(tokens: seq<Token>, userId: Field, svc: AuthService): (r: Reply)
    ensures r.response.Malformed? <==> !Truthy(userId)
    ensures r.response.Malformed? ==> r.response.message == MissingUserIdField
    ensures r.response.Issued? ==>
              Truthy(userId) &&
              svc.generateTokens(userId.s) == Done(TokenPair(r.response.accessToken, r.response.refreshToken))
    ensures r.response.Failed? ==>
              Truthy(userId) && svc.generateTokens(userId.s) == Threw(r.response.error)
    ensures r.response.Issued? || r.response.Failed? || r.response.Malformed?
    ensures r.refreshTokens == if r.response.Issued? then tokens + [r.response.refreshToken] else tokens
  {
    if !Truthy(userId) then Reply(Malformed(MissingUserIdField), tokens)
    else
      match svc.generateTokens(userId.s)
      case Done(pair) => Reply(Issued(pair.accessToken, pair.refreshToken), tokens + [pair.refreshToken])
      case Threw(e) => Reply(Failed(e), tokens)
  }

  /** POST /verify. It does not look at the refresh-token list at all. */
  function VerifyResponse(accessToken: Field, userId: Field, svc: AuthService): (r: Response)
    ensures !Truthy(accessToken) ==> r == Malformed(MissingAccessTokenField)
    ensures Truthy(accessToken) && !Truthy(userId) ==> r == Malformed(MissingUserIdField)
    ensures r == Ok <==>
              Truthy(accessToken) && Truthy(userId) && svc.verifyAccessToken(accessToken.s, userId.s).Done?
    ensures r.Failed? ==>
              Truthy(accessToken) && Truthy(userId) &&
              svc.verifyAccessToken(accessToken.s, userId.s) == Threw(r.error)
    ensures r.Malformed? ==> !Truthy(accessToken) || !Truthy(userId)
    ensures r == Ok || r.Failed? || r.Malformed?
  {
    if !Truthy(accessToken) then Malformed(MissingAccessTokenField)
    else if !Truthy(userId) then Malformed(MissingUserIdField)
    else
      match svc.verifyAccessToken(accessToken.s, userId.s)
      case Done(_) => Ok
      case Threw(e) => Failed(e)
  }

  /** POST /renew. It only reads the refresh-token list. */
  function RenewResponse(tokens: seq<Token>, refreshToken: Field, svc: AuthService): (r: Response)
    ensures !Truthy(refreshToken) ==> r == Malformed(MissingRefreshTokenField)
    ensures Truthy(refreshToken) && refreshToken.s !in tokens ==> r == Malformed(InvalidRefreshToken)
    ensures r.Renewed? <==>
              Truthy(refreshToken) && refreshToken.s in tokens && svc.renewAccessToken(refreshToken.s).Done?
    ensures r.Renewed? ==> svc.renewAccessToken(refreshToken.s) == Done(r.accessToken)
    ensures r.Failed? ==>
              Truthy(refreshToken) && refreshToken.s in tokens &&
              svc.renewAccessToken(refreshToken.s) == Threw(r.error)
    ensures r.Malformed? ==> !Truthy(refreshToken) || refreshToken.s !in tokens
    ensures r.Renewed? || r.Failed? || r.Malformed?
  {
    if !Truthy(refreshToken) then Malformed(MissingRefreshTokenField)
    else if refreshToken.s !in tokens then Malformed(InvalidRefreshToken)
    else
      match svc.renewAccessToken(refreshToken.s)
      case Done(access) => Renewed(access)
      case Threw(e) => Failed(e)
  }

  /** POST /revoke. It never reaches the token service. */
  function RevokeReply(tokens: seq<Token>, refreshToken: Field): (r: Reply)
    ensures r.response == Ok <==> Truthy(refreshToken)
    ensures r.response != Ok ==> r == Reply(Malformed(MissingRefreshTokenField), tokens)
    ensures r.response == Ok ==> r.refreshTokens == WithoutToken(tokens, refreshToken.s)
  {
    if !Truthy(refreshToken) then Reply(Malformed(MissingRefreshTokenField), tokens)
    else Reply(Ok, WithoutToken(tokens, refreshToken.s))
  }

  /** Filtering distributes over concatenation: together with the one-token case
      this pins WithoutToken down as an order-preserving filter. */
  lemma {:induction false} WithoutTokenAppend(a: seq<Token>, b: seq<Token>, t: Token)
    ensures WithoutToken(a + b, t) == WithoutToken(a, t) + WithoutToken(b, t)
  {
    if a == [] {
      assert a + b == b;
    } else {
      assert (a + b)[0] == a[0];
      assert (a + b)[1..] == a[1..] + b;
      WithoutTokenAppend(a[1..], b, t);
    }
  }

  lemma WithoutTokenSingle(x: Token, t: Token)
    ensures WithoutToken([x], t) == if x == t then [] else [x]
  {
    assert [x][1..] == [];
  }

  /** Filtering out a token that is not there changes nothing. */
  lemma {:induction false} WithoutAbsentToken(tokens: seq<Token>, t: Token)
    requires t !in tokens
    ensures WithoutToken(tokens, t) == tokens
  {
    if tokens != [] {
      assert t !in tokens[1..];
      WithoutAbsentToken(tokens[1..], t);
      assert tokens == [tokens[0]] + tokens[1..];
    }
  }

  /** Revoking twice is the same as revoking once. */
  lemma RevokeIdempotent(tokens: seq<Token>, t: Field)
    ensures RevokeReply(RevokeReply(tokens, t).refreshTokens, t) == RevokeReply(tokens, t)
  {
    if Truthy(t) {
      WithoutAbsentToken(WithoutToken(tokens, t.s), t.s);
    }
  }

  /** Revoking a token that was never issued still answers OK and changes nothing. */
  lemma RevokeAbsentIsNoOp(tokens: seq<Token>, t: Field)
    requires Truthy(t) && t.s !in tokens
    ensures RevokeReply(tokens, t) == Reply(Ok, tokens)
  {
    WithoutAbsentToken(tokens, t.s);
  }

  /** Revoking one token leaves every other token renewable exactly as before. */
  lemma RevokeKeepsOtherTokens(tokens: seq<Token>, t: Field, other: Field, svc: AuthService)
    requires Truthy(t) && other != t
    ensures RenewResponse(RevokeReply(tokens, t).refreshTokens, other, svc) == RenewResponse(tokens, other, svc)
  {
  }

  /** Once a token is revoked, renewing with it is refused as invalid, whatever the token service would say. */
  lemma RenewAfterRevokeFails(tokens: seq<Token>, t: Field, svc: AuthService)
    requires Truthy(t)
    ensures RenewResponse(RevokeReply(tokens, t).refreshTokens, t, svc) == Malformed(InvalidRefreshToken)
  {
  }

  /** A renew that succeeded can be repeated: the same refresh token passes
      both checks again and the answer is up to the token service alone. */
  lemma RenewRepeatable(tokens: seq<Token>, t: Field, svc: AuthService, later: AuthService)
    requires RenewResponse(tokens, t, svc).Renewed?
    ensures RenewResponse(tokens, t, later) ==
              match later.renewAccessToken(t.s)
              case Done(a) => Renewed(a)
              case Threw(e) => Failed(e)
  {
  }

  /** A refresh token just issued by /generate is accepted by /renew, unless the
      token service issued the empty string, which /renew reads as missing. */
  lemma GeneratedTokenRenewable(tokens: seq<Token>, userId: Field, svc: AuthService, later: AuthService)
    requires GenerateReply(tokens, userId, svc).response.Issued?
    ensures var g := GenerateReply(tokens, userId, svc);
            var t := g.response.refreshToken;
            RenewResponse(g.refreshTokens, Text(t), later) ==
              if t == "" then Malformed(MissingRefreshTokenField)
              else match later.renewAccessToken(t)
                   case Done(a) => Renewed(a)
                   case Threw(e) => Failed(e)
  {
  }

  /** The router module: its state is the module-level `refreshTokens` list. */
  class AuthRoute {
    var refreshTokens: seq<Token>

    constructor ()
      ensures refreshTokens == []
    {
      refreshTokens := [];
    }

    /** POST /generate: on success the issued refresh token is pushed onto the list. */
    method Generate(userId: Field, svc: AuthService) returns (r: Response)
      modifies this
      ensures Reply(r, refreshTokens) == GenerateReply(old(refreshTokens), userId, svc)
    {
      if !Truthy(userId) {
        return Malformed(MissingUserIdField);
      }
      var tokens := svc.generateTokens(userId.s);
      match tokens
      case Threw(e) =>
        r := Failed(e);
      case Done(pair) =>
        refreshTokens := refreshTokens + [pair.refreshToken];
        r := Issued(pair.accessToken, pair.refreshToken);
    }

    /** POST /verify: reads nothing of the router's state. */
    method Verify(accessToken: Field, userId: Field, svc: AuthService) returns (r: Response)
      ensures r == VerifyResponse(accessToken, userId, svc)
    {
      if !Truthy(accessToken) {
        return Malformed(MissingAccessTokenField);
      }
      if !Truthy(userId) {
        return Malformed(MissingUserIdField);
      }
      var verdict := svc.verifyAccessToken(accessToken.s, userId.s);
      r := if verdict.Threw? then Failed(verdict.error) else Ok;
    }

    /** POST /renew: a membership test on the list, which it never changes. */
    method Renew(refreshToken: Field, svc: AuthService) returns (r: Response)
      ensures r == RenewResponse(refreshTokens, refreshToken, svc)
    {
      if !Truthy(refreshToken) {
        return Malformed(MissingRefreshTokenField);
      }
      if refreshToken.s !in refreshTokens {
        return Malformed(InvalidRefreshToken);
      }
      var renewed := svc.renewAccessToken(refreshToken.s);
      r := if renewed.Threw? then Failed(renewed.error) else Renewed(renewed.value);
    }

    /** POST /revoke: the list is replaced by its filtered copy. */
    method Revoke(refreshToken: Field) returns (r: Response)
      modifies this
      ensures Reply(r, refreshTokens) == RevokeReply(old(refreshTokens), refreshToken)
    {
      if !Truthy(refreshToken) {
        return Malformed(MissingRefreshTokenField);
      }
      refreshTokens := WithoutToken(refreshTokens, refreshToken.s);
      r := Ok;
    }
  }
}
