/** JwtCredentialsProvider: hands out an IAM token, requesting a new one
    from the IAM token service with the JWT it was built with and caching
    the response. Time is the Unix time in seconds passed to each call. */
module JwtCredentials {
  import opened Wrappers
  import opened Failures

  datatype CreateIamTokenRequest = CreateIamTokenRequest(jwt: string)

  /** The service's answer: the token and its expiry, in Unix seconds. */
  datatype CreateIamTokenResponse = CreateIamTokenResponse(iamToken: string, expiresAt: int)

  /** IamTokenService.Create: the response, or the RPC failure it raises. */
  type IamTokenService = CreateIamTokenRequest -> Result<CreateIamTokenResponse, Error>

  /** The five minutes GetToken adds to the current time. */
  const ExpirationMargin: int := 300

  /** The refresh test GetToken applies, as written: no token cached, or the
      cached one expires more than five minutes from now. */
  predicate RequestsNewTokenAsWritten(cached: Option<CreateIamTokenResponse>, now: int) {
    cached.None? || cached.value.expiresAt > now + ExpirationMargin
  }

  /** The evidently intended test: no token cached, or the cached one
      expires within five minutes (or already has). */
  predicate NeedsRefresh(cached: Option<CreateIamTokenResponse>, now: int) {
    cached.None? || cached.value.expiresAt <= now + ExpirationMargin
  }

  /** As written, a token that has already expired is handed out again
      without a request, and one with an hour left is thrown away. */
  lemma ExpiredTokenIsReused(now: int)
    ensures var expired := Some(CreateIamTokenResponse("t", now - 1));
      !RequestsNewTokenAsWritten(expired, now) && expired.value.expiresAt < now
    ensures var live := Some(CreateIamTokenResponse("t", now + 3600));
      RequestsNewTokenAsWritten(live, now)
  {
  }

  /** With the intended test a cached token is reused only while it has more
      than five minutes left, and a refresh happens exactly when it has not. */
  lemma NeedsRefreshServesLiveTokens(cached: Option<CreateIamTokenResponse>, now: int)
    ensures !NeedsRefresh(cached, now) ==> cached.Some? && cached.value.expiresAt > now + ExpirationMargin
    ensures cached.Some? ==> (NeedsRefresh(cached, now) <==> !RequestsNewTokenAsWritten(cached, now))
  {
  }

  class JwtCredentialsProvider {
    /** The JWT every request carries, fixed at construction. */
    const jwtToken: string
    /** The IAM token service client. */
    const tokenService: IamTokenService
    /** The cached response, null until the first successful request. */
    var iamToken: Option<CreateIamTokenResponse>
    /** The requests sent to the token service so far. */
    ghost var requests: seq<CreateIamTokenRequest>

    constructor (tokenService: IamTokenService, jwtToken: string)
      ensures this.jwtToken == jwtToken && this.tokenService == tokenService
      ensures iamToken.None? && requests == []
    {
      this.jwtToken := jwtToken;
      this.tokenService := tokenService;
      iamToken := None;
      requests := [];
    }

    /** GetToken as written. A request carrying the construction-time JWT is
        sent exactly when RequestsNewTokenAsWritten holds; its response
        replaces the cache, and the token returned is the cached one after
        the update. The call succeeds unless that request fails; a failed
        request propagates and leaves the cache. */
    method GetToken(now: int) returns (r: Result<string, Error>)
      modifies this`iamToken, this`requests
      ensures RequestsNewTokenAsWritten(old(iamToken), now) ==>
        && requests == old(requests) + [CreateIamTokenRequest(jwtToken)]
        && (tokenService(CreateIamTokenRequest(jwtToken)).Success? ==>
              iamToken == Some(tokenService(CreateIamTokenRequest(jwtToken)).value))
        && (tokenService(CreateIamTokenRequest(jwtToken)).Failure? ==>
              iamToken == old(iamToken) && r == Failure(tokenService(CreateIamTokenRequest(jwtToken)).error))
      ensures !RequestsNewTokenAsWritten(old(iamToken), now) ==> requests == old(requests) && iamToken == old(iamToken)
      ensures r.Success? <==>
        !(RequestsNewTokenAsWritten(old(iamToken), now) && tokenService(CreateIamTokenRequest(jwtToken)).Failure?)
      ensures r.Success? ==> iamToken.Some? && r.value == iamToken.value.iamToken
    {
      var expiration := now + ExpirationMargin;
      if iamToken.None? || iamToken.value.expiresAt > expiration {
        var request := CreateIamTokenRequest(jwtToken);
        requests := requests + [request];
        var response := tokenService(request);
        if response.Failure? {
          return Failure(response.error);
        }
        iamToken := Some(response.value);
      }
      return Success(iamToken.value.iamToken);
    }

    /** GetToken with the refresh test corrected: the token returned has more
        than five minutes left, unless it is the one just received. */
    method GetTokenRefreshingBeforeExpiry(now: int) returns (r: Result<string, Error>)
      modifies this`iamToken, this`requests
      ensures NeedsRefresh(old(iamToken), now) ==>
        && requests == old(requests) + [CreateIamTokenRequest(jwtToken)]
        && (tokenService(CreateIamTokenRequest(jwtToken)).Success? ==>
              iamToken == Some(tokenService(CreateIamTokenRequest(jwtToken)).value))
        && (tokenService(CreateIamTokenRequest(jwtToken)).Failure? ==>
              iamToken == old(iamToken) && r == Failure(tokenService(CreateIamTokenRequest(jwtToken)).error))
      ensures !NeedsRefresh(old(iamToken), now) ==>
        requests == old(requests) && iamToken == old(iamToken) && iamToken.value.expiresAt > now + ExpirationMargin
      ensures r.Success? <==>
        !(NeedsRefresh(old(iamToken), now) && tokenService(CreateIamTokenRequest(jwtToken)).Failure?)
      ensures r.Success? ==> iamToken.Some? && r.value == iamToken.value.iamToken
    {
      if NeedsRefresh(iamToken, now) {
        var request := CreateIamTokenRequest(jwtToken);
        requests := requests + [request];
        var response := tokenService(request);
        if response.Failure? {
          return Failure(response.error);
        }
        iamToken := Some(response.value);
      }
      return Success(iamToken.value.iamToken);
    }
  }
}
