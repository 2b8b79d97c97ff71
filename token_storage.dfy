/**
  The HubSpot proxy's in-memory OAuth token store: an access token, a refresh
  token and an absolute expiry instant (milliseconds since the epoch) that is
  set 300 seconds before the real expiry. The clock (`Date.now()`) is a
  parameter `now` of the operations that read it.
*/
module TokenStorage {

  /** The safety margin, in seconds, subtracted from the lifetime the provider grants. */
  const ExpiryBufferSeconds: int := 300

  /** The three fields of the store; an `expiresAt` of 0 means "no expiry recorded". */
  datatype TokenState = TokenState(accessToken: string, refreshToken: string, expiresAt: int)

  /** The state of a fresh store and of a cleared one. */
  function Empty(): (s: TokenState)
    ensures !Authenticated(s)
    ensures forall now: nat :: Expired(s, now) && AccessTokenAt(s, now) == ""
  {
    TokenState("", "", 0)
  }

  /** `isExpired()`: no expiry recorded, or the expiry instant has been reached. */
  predicate Expired(s: TokenState, now: nat) {
    s.expiresAt == 0 || now >= s.expiresAt
  }

  /** `getAccessToken()`: the stored access token while it is not expired, `''` otherwise. */
  function AccessTokenAt(s: TokenState, now: nat): string {
    if Expired(s, now) then "" else s.accessToken
  }

  /** `isAuthenticated()`: a refresh token is held, whatever the access token's expiry. */
  predicate Authenticated(s: TokenState) {
    s.refreshToken != ""
  }

  /**
    The state `setTokens(accessToken, refreshToken, expiresIn)` leaves at time
    `now`, whatever the state was before (last write wins). The access token is
    handed out exactly while the clock is below
    `now + (expiresIn - 300) * 1000`; with a lifetime of 300 seconds or less it
    counts as expired at once. Authentication depends only on the refresh token.
  */
  function Stored(accessToken: string, refreshToken: string, expiresIn: int, now: nat): (s: TokenState)
    ensures s.accessToken == accessToken && s.refreshToken == refreshToken
    ensures Authenticated(s) <==> refreshToken != ""
    ensures forall t: nat :: AccessTokenAt(s, t) ==
              (if t < now + (expiresIn - ExpiryBufferSeconds) * 1000 then accessToken else "")
    ensures expiresIn <= ExpiryBufferSeconds ==> Expired(s, now)
  {
    TokenState(accessToken, refreshToken, now + (expiresIn - ExpiryBufferSeconds) * 1000)
  }

  /** `TokenStorageService` */
  class TokenStorageService {
    var accessToken: string
    var refreshToken: string
    var expiresAt: int

    /** The store's fields as one value. */
    function State(): TokenState
      reads this
    {
      TokenState(accessToken, refreshToken, expiresAt)
    }

    constructor ()
      ensures State() == Empty()
    {
      accessToken := "";
      refreshToken := "";
      expiresAt := 0;
    }

    /** `setTokens`: overwrite all three fields. */
    method SetTokens(accessToken: string, refreshToken: string, expiresIn: int, now: nat)
      modifies this
      ensures State() == Stored(accessToken, refreshToken, expiresIn, now)
    {
      this.accessToken := accessToken;
      this.refreshToken := refreshToken;
      this.expiresAt := now + (expiresIn - ExpiryBufferSeconds) * 1000;
    }

    /** `getAccessToken`: reads the store without changing it. */
    method GetAccessToken(now: nat) returns (token: string)
      ensures token == AccessTokenAt(State(), now)
      ensures token != "" ==> token == accessToken && now < expiresAt
    {
      var expired := IsExpired(now);
      if expired {
        return "";
      }
      return accessToken;
    }

    /** `getRefreshToken` */
    method GetRefreshToken() returns (token: string)
      ensures token == refreshToken
    {
      return refreshToken;
    }

    /** `isExpired` */
    method IsExpired(now: nat) returns (expired: bool)
      ensures expired == Expired(State(), now)
      ensures !expired ==> now < expiresAt
    {
      if expiresAt == 0 {
        return true;
      }
      return now >= expiresAt;
    }

    /** `isAuthenticated` */
    method IsAuthenticated() returns (authenticated: bool)
      ensures authenticated <==> refreshToken != ""
    {
      return refreshToken != "";
    }

    /** `clear`: back to the fresh state. */
    method Clear()
      modifies this
      ensures State() == Empty()
    {
      accessToken := "";
      refreshToken := "";
      expiresAt := 0;
    }
  }

  /** A store that has never been written is unauthenticated and hands out no token. */
  method FreshStoreIsEmpty(now: nat) returns (token: string, authenticated: bool)
    ensures token == "" && !authenticated
  {
    var store := new TokenStorageService();
    token := store.GetAccessToken(now);
    authenticated := store.IsAuthenticated();
  }

  /**
    Writing tokens twice keeps only the second write, and refresh-token
    presence alone decides authentication after a write and after `clear`.
  */
  method LastWriteWins(a1: string, r1: string, e1: int, a2: string, r2: string, e2: int,
                       t1: nat, t2: nat, now: nat)
    returns (token: string, authenticated: bool, clearedAuthenticated: bool)
    ensures token == AccessTokenAt(Stored(a2, r2, e2, t2), now)
    ensures authenticated <==> r2 != ""
    ensures !clearedAuthenticated
  {
    var store := new TokenStorageService();
    store.SetTokens(a1, r1, e1, t1);
    store.SetTokens(a2, r2, e2, t2);
    token := store.GetAccessToken(now);
    authenticated := store.IsAuthenticated();
    store.Clear();
    clearedAuthenticated := store.IsAuthenticated();
  }
}
