/** The server's OAuth token bookkeeping: the module-level `user_tokens` dict, filled by the
    authorization callback, read (and refreshed in place) by every playback route, and emptied
    by `clear_user_token`. The token endpoint and the clock are inputs: each operation takes
    the decoded response it would receive and the current time `now`, and returns the requests
    it posts. */
module TokenStore {
  import opened PyBuiltins
  import opened PyDict
  import opened Http
  import AuthorizationUrl

  /** Keys of `user_tokens` are access tokens, which `response.get` may have left as `None`. */
  type Key = Option<string>

  /** One entry of `user_tokens`. */
  datatype TokenRecord = TokenRecord(accessToken: Option<string>, refreshToken: Option<string>, expiresAt: int)

  /** The decoded body of a token-endpoint response: whether it has an "error" member, and the
      members the server reads from it (absent ones are `None`, as `dict.get` gives them). */
  datatype TokenResponse = TokenResponse(
    hasError: bool,
    accessToken: Option<string>,
    refreshToken: Option<string>,
    expiresIn: Option<int>)

  /** The form bodies posted to the token endpoint. */
  datatype TokenRequest =
    | ExchangeCode(code: Option<string>, redirectUri: string, clientId: Option<string>, clientSecret: Option<string>)
    | RefreshGrant(refreshToken: Option<string>, clientId: Option<string>, clientSecret: Option<string>)

  /** The `code` and `error` query parameters of the redirect back to `/callback`. */
  datatype CallbackQuery = CallbackQuery(code: Option<string>, error: Option<string>)

  /** Where the callback sends the browser: the success page, the failure page, or nowhere,
      because the handler raised and Flask answered 500. */
  datatype CallbackOutcome = SuccessPage | FailedPage | ServerError

  /** What `get_valid_token` ends in: a token (possibly `None`), `StopIteration` on an empty
      store, or the `TypeError` of a refresh response without `expires_in`. */
  datatype TokenOutcome = Issued(token: Option<string>) | NoToken | RefreshFailed

  /** The effect of one `get_valid_token` call on the store, as a value. */
  datatype TokenStep = TokenStep(outcome: TokenOutcome, tokens: Dict<Key, TokenRecord>, requests: seq<TokenRequest>)

  /** Python truthiness of a query parameter: present and not the empty string. */
  predicate Truthy(param: Option<string>)
  {
    param.Some? && param.value != ""
  }

  /** The entry a successful code exchange adds, keyed by the new access token. */
  function Login(tokens: Dict<Key, TokenRecord>, response: TokenResponse, now: int): (d: Dict<Key, TokenRecord>)
    requires tokens.Valid() && response.expiresIn.Some?
    ensures d.Valid()
    ensures d.values.Keys == tokens.values.Keys + {response.accessToken}
    ensures d.values[response.accessToken]
            == TokenRecord(response.accessToken, response.refreshToken, now + response.expiresIn.value)
    ensures forall k :: k in tokens.values && k != response.accessToken ==> d.values[k] == tokens.values[k]
  {
    tokens.Set(response.accessToken,
               TokenRecord(response.accessToken, response.refreshToken, now + response.expiresIn.value))
  }

  /** `get_valid_token`: take the oldest entry; if `now` is past its expiry, post one refresh
      grant with that entry's refresh token and rewrite the entry's access token and then its
      expiry in place, under the same key. A response without `expires_in` fails between the
      two writes, so the access token is already overwritten. */
  function ValidToken(tokens: Dict<Key, TokenRecord>, now: int, response: TokenResponse,
                      clientId: Option<string>, clientSecret: Option<string>): (s: TokenStep)
    requires tokens.Valid()
    ensures s.tokens.Valid() && s.tokens.keys == tokens.keys && s.tokens.values.Keys == tokens.values.Keys
    ensures s.outcome == NoToken <==> tokens.IsEmpty()
    ensures tokens.IsEmpty() ==> s.tokens == tokens && s.requests == []
    ensures !tokens.IsEmpty() ==>
              var k := tokens.First();
              var info := tokens.values[k];
              && (forall j :: j in tokens.values && j != k ==> s.tokens.values[j] == tokens.values[j])
              && (now <= info.expiresAt ==>
                    s.outcome == Issued(info.accessToken) && s.tokens == tokens && s.requests == [])
              && (now > info.expiresAt ==>
                    && s.requests == [RefreshGrant(info.refreshToken, clientId, clientSecret)]
                    && s.tokens.values[k].accessToken == response.accessToken
                    && s.tokens.values[k].refreshToken == info.refreshToken
                    && (response.expiresIn.Some? ==>
                          s.tokens.values[k].expiresAt == now + response.expiresIn.value
                          && s.outcome == Issued(response.accessToken))
                    && (response.expiresIn.None? ==>
                          s.tokens.values[k].expiresAt == info.expiresAt && s.outcome == RefreshFailed))
  {
    if tokens.IsEmpty() then TokenStep(NoToken, tokens, [])
    else
      var k := tokens.First();
      var info := tokens.values[k];
      if now > info.expiresAt then
        var request := RefreshGrant(info.refreshToken, clientId, clientSecret);
        var renamed := tokens.Set(k, info.(accessToken := response.accessToken));
        match response.expiresIn
        case None => TokenStep(RefreshFailed, renamed, [request])
        case Some(e) =>
          var renewed := renamed.Set(k, renamed.values[k].(expiresAt := now + e));
          TokenStep(Issued(response.accessToken), renewed, [request])
      else TokenStep(Issued(info.accessToken), tokens, [])
  }

  /** After a refresh that hands out a different token, the entry is still filed under the old
      access token: the key no longer names the token it holds. */
  lemma RefreshLeavesStaleKey(tokens: Dict<Key, TokenRecord>, now: int, response: TokenResponse,
                              clientId: Option<string>, clientSecret: Option<string>)
    requires tokens.Valid() && !tokens.IsEmpty()
    requires now > tokens.values[tokens.First()].expiresAt
    requires response.accessToken != tokens.First()
    ensures var s := ValidToken(tokens, now, response, clientId, clientSecret);
            var k := tokens.First();
            k in s.tokens.values && s.tokens.values[k].accessToken != k
  {
  }

  /** Right after logging in on an empty store, any request made before the new token expires
      gets that token back without contacting the token endpoint. */
  lemma LoginThenValidToken(tokens: Dict<Key, TokenRecord>, response: TokenResponse, now: int,
                                               later: int, refresh: TokenResponse,
                                               clientId: Option<string>, clientSecret: Option<string>)
    requires tokens.Valid() && tokens.IsEmpty() && response.expiresIn.Some?
    requires later <= now + response.expiresIn.value
    ensures var s := ValidToken(Login(tokens, response, now), later, refresh, clientId, clientSecret);
            s.outcome == Issued(response.accessToken) && s.requests == []
  {
    var d := Login(tokens, response, now);
    assert d.keys == [response.accessToken];
  }

  /** A second login never displaces the first: the oldest entry, which `get_valid_token` uses,
      is unchanged. */
  lemma SecondLoginKeepsFirst(tokens: Dict<Key, TokenRecord>, response: TokenResponse, now: int)
    requires tokens.Valid() && !tokens.IsEmpty() && response.expiresIn.Some?
    ensures var d := Login(tokens, response, now);
            !d.IsEmpty() && d.First() == tokens.First()
  {
  }

  /** The server's global state: the API credentials handed over by the credentials window and
      the `user_tokens` dict. */
  class TokenServer {
    var clientId: Option<string>
    var clientSecret: Option<string>
    var userTokens: Dict<Key, TokenRecord>

    ghost predicate Valid()
      reads this
    {
      userTokens.Valid()
    }

    /** The state at import time: no credentials, no tokens. */
    constructor ()
      ensures Valid()
      ensures clientId == None && clientSecret == None && userTokens == Empty()
    {
      clientId, clientSecret := None, None;
      userTokens := Empty();
    }

    /** `update_api_credentials`: replace the client id and secret, tokens untouched. */
    method UpdateApiCredentials(id: string, secret: string)
      requires Valid()
      modifies this
      ensures Valid()
      ensures clientId == Some(id) && clientSecret == Some(secret) && userTokens == old(userTokens)
    {
      clientId, clientSecret := Some(id), Some(secret);
    }

    /** `callback`: a truthy `error` parameter fails at once, without posting anything; otherwise
        the code is exchanged once, an `error` member in the answer fails, a missing
        `expires_in` raises before the store is touched, and anything else adds one entry. */
    method Callback(query: CallbackQuery, response: TokenResponse, now: int)
      returns (outcome: CallbackOutcome, requests: seq<TokenRequest>)
      requires Valid()
      modifies this
      ensures Valid()
      ensures clientId == old(clientId) && clientSecret == old(clientSecret)
      ensures Truthy(query.error) ==> outcome == FailedPage && requests == [] && userTokens == old(userTokens)
      ensures !Truthy(query.error) ==>
                requests == [ExchangeCode(query.code, AuthorizationUrl.REDIRECT_URI, clientId, clientSecret)]
      ensures !Truthy(query.error) && response.hasError ==>
                outcome == FailedPage && userTokens == old(userTokens)
      ensures !Truthy(query.error) && !response.hasError && response.expiresIn.None? ==>
                outcome == ServerError && userTokens == old(userTokens)
      ensures !Truthy(query.error) && !response.hasError && response.expiresIn.Some? ==>
                outcome == SuccessPage && userTokens == Login(old(userTokens), response, now)
    {
      if Truthy(query.error) {
        return FailedPage, [];
      }
      requests := [ExchangeCode(query.code, AuthorizationUrl.REDIRECT_URI, clientId, clientSecret)];
      if response.hasError {
        return FailedPage, requests;
      }
      if response.expiresIn.None? {
        return ServerError, requests;
      }
      userTokens := Login(userTokens, response, now);
      outcome := SuccessPage;
    }

    /** `get_valid_token`, with the refresh response it would receive. */
    method GetValidToken(now: int, response: TokenResponse) returns (outcome: TokenOutcome, requests: seq<TokenRequest>)
      requires Valid()
      modifies this
      ensures Valid()
      ensures clientId == old(clientId) && clientSecret == old(clientSecret)
      ensures var s := ValidToken(old(userTokens), now, response, clientId, clientSecret);
              outcome == s.outcome && userTokens == s.tokens && requests == s.requests
    {
      var s := ValidToken(userTokens, now, response, clientId, clientSecret);
      outcome, requests := s.outcome, s.requests;
      userTokens := s.tokens;
    }

    /** `clear_user_token`. */
    method ClearUserToken()
      requires Valid()
      modifies this
      ensures Valid()
      ensures clientId == old(clientId) && clientSecret == old(clientSecret)
      ensures userTokens.values == map[] && userTokens.IsEmpty()
    {
      userTokens := Empty();
    }

    /** `check_authentication`: `{"success": true}` exactly when some token is stored. */
    method CheckAuthentication() returns (reply: Reply)
      requires Valid()
      ensures reply == JsonBody(JObj(map["success" := JBool(userTokens.values != map[])]))
      ensures reply.value.fields["success"] == JBool(!userTokens.IsEmpty())
    {
      EmptyIffNoEntries(userTokens);
      reply := JsonBody(JObj(map["success" := JBool(!userTokens.IsEmpty())]));
    }
  }

  /** Logging out and then asking whether anyone is logged in answers no. */
  method ClearThenCheck(server: TokenServer) returns (reply: Reply)
    requires server.Valid()
    modifies server
    ensures reply == JsonBody(JObj(map["success" := JBool(false)]))
  {
    server.ClearUserToken();
    reply := server.CheckAuthentication();
  }
}
