/**
  The HubSpot proxy's OAuth 2.0 client: the authorization-code grant
  (section 4.1.3 of RFC 6749), the refresh-token grant (section 6 of RFC 6749)
  and the "refresh at most once, clear the store on failure" policy of
  `getValidAccessToken`. Each POST to the token endpoint is an input outcome;
  the service records the requests it sends, so the contracts can say which
  calls happen.
*/
module Auth {
  import opened Wrappers
  import opened Js
  import opened Http
  import opened TokenStorage

  const MissingCredentialsMessage: string := "OAuth credentials missing in .env file"
  const CodeRequiredMessage: string := "Authorization code required"
  const ExchangeFailedMessage: string := "Failed to exchange code"
  const NoRefreshTokenMessage: string := "No refresh token. Please login at /auth/login"
  const RefreshFailedMessage: string := "Token refresh failed. Please re-authenticate at /auth/login"
  const NotAuthenticatedMessage: string := "Not authenticated. Please login at /auth/login"

  /** The scopes requested at the authorization endpoint. */
  const Scopes: string := "crm.objects.contacts.read crm.objects.companies.read crm.objects.deals.read"

  /** The five `hubspot.*` settings the service reads at construction. */
  datatype OAuthConfig = OAuthConfig(
    clientId: string, clientSecret: string, redirectUri: string, authUrl: string, tokenUrl: string)

  predicate Complete(c: OAuthConfig) {
    c.clientId != "" && c.clientSecret != "" && c.redirectUri != "" && c.authUrl != "" && c.tokenUrl != ""
  }

  /** `configService.get(key) || ''` */
  function Setting(v: Option<string>): string {
    v.GetOr("")
  }

  /**
    The constructor's configuration step: each setting defaults to `''`, and
    the service refuses to exist unless all five are non-empty.
  */
  function LoadConfig(clientId: Option<string>, clientSecret: Option<string>, redirectUri: Option<string>,
                      authUrl: Option<string>, tokenUrl: Option<string>): (r: Result<OAuthConfig, string>)
    ensures r.Success? <==>
              Setting(clientId) != "" && Setting(clientSecret) != "" && Setting(redirectUri) != "" &&
              Setting(authUrl) != "" && Setting(tokenUrl) != ""
    ensures r.Success? ==> Complete(r.value)
    ensures r.Success? ==> r.value.clientId == clientId.value && r.value.clientSecret == clientSecret.value &&
                           r.value.redirectUri == redirectUri.value && r.value.authUrl == authUrl.value &&
                           r.value.tokenUrl == tokenUrl.value
    ensures r.Failure? ==> r.error == MissingCredentialsMessage
  {
    var c := OAuthConfig(Setting(clientId), Setting(clientSecret), Setting(redirectUri),
                         Setting(authUrl), Setting(tokenUrl));
    if Complete(c) then Success(c) else Failure(MissingCredentialsMessage)
  }

  /** The query parameters of the authorization URL, in insertion order. */
  function AuthorizationParams(c: OAuthConfig): seq<(string, string)> {
    [("client_id", c.clientId), ("redirect_uri", c.redirectUri), ("scope", Scopes)]
  }

  /**
    `getAuthorizationUrl`: the authorization endpoint, `?`, then the encoded
    parameters. `encode` stands for `URLSearchParams.toString()`.
  */
  function AuthorizationUrl(c: OAuthConfig, encode: seq<(string, string)> -> string): (url: string)
    ensures |url| > |c.authUrl| && url[..|c.authUrl| + 1] == c.authUrl + "?"
    ensures url[|c.authUrl| + 1..] == encode(AuthorizationParams(c))
  {
    c.authUrl + "?" + encode(AuthorizationParams(c))
  }

  /** A form-encoded POST to the token endpoint. */
  datatype TokenRequest = TokenRequest(url: string, form: seq<(string, string)>)

  /** The form of the authorization-code grant. */
  function CodeGrantForm(c: OAuthConfig, code: string): seq<(string, string)> {
    [("grant_type", "authorization_code"), ("client_id", c.clientId), ("client_secret", c.clientSecret),
     ("redirect_uri", c.redirectUri), ("code", code)]
  }

  /** The form of the refresh-token grant. */
  function RefreshGrantForm(c: OAuthConfig, refreshToken: string): seq<(string, string)> {
    [("grant_type", "refresh_token"), ("client_id", c.clientId), ("client_secret", c.clientSecret),
     ("refresh_token", refreshToken)]
  }

  /** The fields of a token endpoint response the service uses. */
  datatype TokenPayload = TokenPayload(accessToken: string, refreshToken: string, expiresIn: int)

  /** `!code || code.trim() === ''` */
  predicate CodeMissing(code: Option<string>) {
    code.None? || Trim(code.value) == ""
  }

  /** The store after one service call, what the call returns or throws, and what it posted. */
  datatype Step<T> = Step(state: TokenState, result: Result<T, HttpError>, posted: seq<TokenRequest>)

  /**
    `exchangeCodeForTokens` on a store in state `s`. A missing or blank code is
    a 400 before any request; otherwise exactly one request carries the trimmed
    code. A successful response is stored with `setTokens` and returned; any
    failure is a 400 (never the upstream status) that leaves the store as it was.
  */
  function Exchange(c: OAuthConfig, s: TokenState, code: Option<string>, response: Upstream<TokenPayload>,
                    now: nat): (r: Step<TokenPayload>)
    ensures CodeMissing(code) ==> r == Step(s, Failure(HttpError(BadRequest, CodeRequiredMessage)), [])
    ensures !CodeMissing(code) ==> r.posted == [TokenRequest(c.tokenUrl, CodeGrantForm(c, Trim(code.value)))]
    ensures r.result.Success? <==> !CodeMissing(code) && response.Ok?
    ensures r.result.Success? ==>
              r.result.value == response.data &&
              r.state == Stored(response.data.accessToken, response.data.refreshToken, response.data.expiresIn, now)
    ensures r.result.Failure? ==> r.state == s && r.result.error.status == BadRequest
    ensures !CodeMissing(code) && response.Err? ==>
              r.result.error.message == Rethrow(response.failure, ExchangeFailedMessage).message
  {
    if CodeMissing(code) then
      Step(s, Failure(HttpError(BadRequest, CodeRequiredMessage)), [])
    else
      var request := TokenRequest(c.tokenUrl, CodeGrantForm(c, Trim(code.value)));
      match response
      case Ok(p) => Step(Stored(p.accessToken, p.refreshToken, p.expiresIn, now), Success(p), [request])
      case Err(e) =>
        Step(s, Failure(HttpError(BadRequest, Rethrow(e, ExchangeFailedMessage).message)), [request])
  }

  /**
    `refreshAccessToken` on a store in state `s`. Without a refresh token it is
    a 401 before any request. Otherwise exactly one request carries the stored
    refresh token; success stores the new pair (including the rotated refresh
    token) and returns the new access token; failure clears the store, so the
    user is no longer authenticated, and is a 401.
  */
  function Refresh(c: OAuthConfig, s: TokenState, response: Upstream<TokenPayload>, now: nat): (r: Step<string>)
    ensures s.refreshToken == "" ==> r == Step(s, Failure(HttpError(Unauthorized, NoRefreshTokenMessage)), [])
    ensures s.refreshToken != "" ==> r.posted == [TokenRequest(c.tokenUrl, RefreshGrantForm(c, s.refreshToken))]
    ensures r.result.Success? <==> s.refreshToken != "" && response.Ok?
    ensures r.result.Success? ==>
              r.result.value == response.data.accessToken &&
              r.state == Stored(response.data.accessToken, response.data.refreshToken, response.data.expiresIn, now)
    ensures s.refreshToken != "" && response.Err? ==>
              r.state == Empty() && !Authenticated(r.state) &&
              r.result == Failure(HttpError(Unauthorized, RefreshFailedMessage))
    ensures r.result.Failure? ==> r.result.error.status == Unauthorized
  {
    if s.refreshToken == "" then
      Step(s, Failure(HttpError(Unauthorized, NoRefreshTokenMessage)), [])
    else
      var request := TokenRequest(c.tokenUrl, RefreshGrantForm(c, s.refreshToken));
      match response
      case Ok(p) =>
        Step(Stored(p.accessToken, p.refreshToken, p.expiresIn, now), Success(p.accessToken), [request])
      case Err(_) =>
        Step(Empty(), Failure(HttpError(Unauthorized, RefreshFailedMessage)), [request])
  }

  /**
    `getValidAccessToken` at time `now`: a cached, unexpired token is returned
    with no request and no change; otherwise the store is refreshed once, with
    `response` as the outcome of that one POST. It never returns an empty token
    and every failure is a 401.
  */
  function ValidAccessToken(c: OAuthConfig, s: TokenState, response: Upstream<TokenPayload>, now: nat)
    : (r: Step<string>)
    ensures AccessTokenAt(s, now) != "" ==> r == Step(s, Success(AccessTokenAt(s, now)), [])
    ensures AccessTokenAt(s, now) == "" ==>
              r.state == Refresh(c, s, response, now).state && r.posted == Refresh(c, s, response, now).posted
    ensures |r.posted| <= 1
    ensures r.result.Success? ==> r.result.value != ""
    ensures AccessTokenAt(s, now) == "" ==>
              var refreshed := Refresh(c, s, response, now).result;
              r.result == if refreshed.Success? && refreshed.value == ""
                          then Failure(HttpError(Unauthorized, NotAuthenticatedMessage))
                          else refreshed
    ensures r.result.Failure? ==> r.result.error.status == Unauthorized
  {
    var cached := AccessTokenAt(s, now);
    if cached != "" then Step(s, Success(cached), [])
    else
      var refreshed := Refresh(c, s, response, now);
      if refreshed.result.Failure? then refreshed
      else if refreshed.result.value == "" then
        Step(refreshed.state, Failure(HttpError(Unauthorized, NotAuthenticatedMessage)), refreshed.posted)
      else refreshed
  }

  /**
    After a successful exchange that granted a non-empty access token for more
    than the 300-second buffer, `getValidAccessToken` hands that token out with
    no further request at every instant before the buffered expiry.
  */
  lemma ExchangedTokenIsServedUntilExpiry(c: OAuthConfig, s: TokenState, code: string, p: TokenPayload,
                                          refresh: Upstream<TokenPayload>, now: nat, t: nat)
    requires Trim(code) != "" && p.accessToken != ""
    requires t < now + (p.expiresIn - ExpiryBufferSeconds) * 1000
    ensures var exchanged := Exchange(c, s, Some(code), Ok(p), now);
            ValidAccessToken(c, exchanged.state, refresh, t) == Step(exchanged.state, Success(p.accessToken), [])
  {
    var exchanged := Exchange(c, s, Some(code), Ok(p), now);
    assert AccessTokenAt(exchanged.state, t) == p.accessToken;
  }

  /**
    Once a refresh has failed, every later `getValidAccessToken` fails with a
    401 without sending anything: the cleared store holds no refresh token.
  */
  lemma FailedRefreshIsFinal(c: OAuthConfig, s: TokenState, e: Caught, later: Upstream<TokenPayload>,
                             now: nat, t: nat)
    requires AccessTokenAt(s, now) == "" && s.refreshToken != ""
    ensures var first := ValidAccessToken(c, s, Err(e), now);
            first.result.Failure? && !Authenticated(first.state) &&
            ValidAccessToken(c, first.state, later, t) ==
              Step(Empty(), Failure(HttpError(Unauthorized, NoRefreshTokenMessage)), [])
  {
    var first := ValidAccessToken(c, s, Err(e), now);
    assert first.state == Empty();
    assert AccessTokenAt(Empty(), t) == "";
  }

  /** `AuthService`: the token-endpoint client, driving a shared token store. */
  class AuthService {
    const config: OAuthConfig
    const tokenStorage: TokenStorageService
    /** The POSTs sent to the token endpoint so far, oldest first. */
    var sent: seq<TokenRequest>

    /** Built only from a configuration `LoadConfig` accepted. */
    constructor (config: OAuthConfig, tokenStorage: TokenStorageService)
      requires Complete(config)
      ensures this.config == config && this.tokenStorage == tokenStorage && sent == []
    {
      this.config := config;
      this.tokenStorage := tokenStorage;
      sent := [];
    }

    /** `getAuthorizationUrl` */
    method GetAuthorizationUrl(encode: seq<(string, string)> -> string) returns (url: string)
      ensures url == AuthorizationUrl(config, encode)
      ensures url[..|config.authUrl| + 1] == config.authUrl + "?"
    {
      url := config.authUrl + "?" + encode(AuthorizationParams(config));
    }

    /** `exchangeCodeForTokens`, with `response` the outcome of its POST. */
    method ExchangeCodeForTokens(code: Option<string>, response: Upstream<TokenPayload>, now: nat)
      returns (r: Result<TokenPayload, HttpError>)
      modifies this, tokenStorage
      ensures var step := Exchange(config, old(tokenStorage.State()), code, response, now);
              tokenStorage.State() == step.state && r == step.result && sent == old(sent) + step.posted
    {
      if code.None? || Trim(code.value) == "" {
        return Failure(HttpError(BadRequest, CodeRequiredMessage));
      }
      sent := sent + [TokenRequest(config.tokenUrl, CodeGrantForm(config, Trim(code.value)))];
      match response {
        case Ok(p) =>
          tokenStorage.SetTokens(p.accessToken, p.refreshToken, p.expiresIn, now);
          r := Success(p);
        case Err(e) =>
          r := Failure(HttpError(BadRequest, Rethrow(e, ExchangeFailedMessage).message));
      }
    }

    /** `refreshAccessToken`, with `response` the outcome of its POST. */
    method RefreshAccessToken(response: Upstream<TokenPayload>, now: nat) returns (r: Result<string, HttpError>)
      modifies this, tokenStorage
      ensures var step := Refresh(config, old(tokenStorage.State()), response, now);
              tokenStorage.State() == step.state && r == step.result && sent == old(sent) + step.posted
    {
      var refreshToken := tokenStorage.GetRefreshToken();
      if refreshToken == "" {
        return Failure(HttpError(Unauthorized, NoRefreshTokenMessage));
      }
      sent := sent + [TokenRequest(config.tokenUrl, RefreshGrantForm(config, refreshToken))];
      match response {
        case Ok(p) =>
          tokenStorage.SetTokens(p.accessToken, p.refreshToken, p.expiresIn, now);
          r := Success(p.accessToken);
        case Err(_) =>
          tokenStorage.Clear();
          r := Failure(HttpError(Unauthorized, RefreshFailedMessage));
      }
    }

    /** `getValidAccessToken`, with `response` the outcome of the refresh POST should one be needed. */
    method GetValidAccessToken(response: Upstream<TokenPayload>, now: nat) returns (r: Result<string, HttpError>)
      modifies this, tokenStorage
      ensures var step := ValidAccessToken(config, old(tokenStorage.State()), response, now);
              tokenStorage.State() == step.state && r == step.result && sent == old(sent) + step.posted
    {
      var token := tokenStorage.GetAccessToken(now);
      if token == "" {
        var refreshed := RefreshAccessToken(response, now);
        if refreshed.Failure? {
          return refreshed;
        }
        token := refreshed.value;
      }
      if token == "" {
        return Failure(HttpError(Unauthorized, NotAuthenticatedMessage));
      }
      return Success(token);
    }

    /** `isAuthenticated`: delegates to the store; reads only. */
    method IsAuthenticated() returns (authenticated: bool)
      ensures authenticated <==> Authenticated(tokenStorage.State())
    {
      authenticated := tokenStorage.IsAuthenticated();
    }

    /** `logout`: the store is cleared; nothing is sent. */
    method Logout()
      modifies tokenStorage
      ensures tokenStorage.State() == Empty() && !Authenticated(tokenStorage.State())
    {
      tokenStorage.Clear();
    }
  }
}
