/**
 * The token cache of the numeric-code revision: the token and its
 * expiration string live in `localStorage` under two keys, and a new one is
 * fetched from `/getToken` whenever the stored one is missing or expired.
 */
module TokenService {
  import opened Wrappers
  import opened Js
  import opened Http
  import opened Storage

  const TOKEN_STORAGE_KEY: string := "portal_empleos_token"
  const TOKEN_EXPIRATION_KEY: string := "portal_empleos_token_expiration"
  const FETCH_ERROR: string := "Failed to get token"

  /** The body of `/getToken`'s reply; its `code` is never looked at. */
  datatype TokenResponse = TokenResponse(token: string, token_expiration: string, code: JsonCode, description: string)

  /**
   * `isTokenExpired()` on a snapshot of the storage: a missing or empty
   * expiration counts as expired; otherwise the token is expired from the
   * parsed instant on. An unparsable expiration compares false, so it never
   * expires.
   */
  predicate Expired(items: map<string, string>, now: int, parseDate: string -> Date) {
    var expiration := Lookup(items, TOKEN_EXPIRATION_KEY);
    !Truthy(expiration) || NotBefore(now, parseDate(expiration.value))
  }

  /** `getToken()` returns the stored token without a request. */
  predicate Reusable(items: map<string, string>, now: int, parseDate: string -> Date) {
    Truthy(Lookup(items, TOKEN_STORAGE_KEY)) && !Expired(items, now, parseDate)
  }

  /** What one call does: its outcome, the storage afterwards, and whether it fetched. */
  datatype TokenStep = TokenStep(result: Result<string, Thrown>, items: map<string, string>, fetched: bool)

  /** `fetchNewToken()`: any 2xx JSON body is stored and its token returned, whatever its code. */
  function Fetch(items: map<string, string>, reply: Reply<TokenResponse>): TokenStep {
    match reply
    case FetchFailed(e) => TokenStep(Err(e), items, true)
    case NotOk(_) => TokenStep(Err(Error(FETCH_ERROR)), items, true)
    case BadJson(e) => TokenStep(Err(e), items, true)
    case Json(data) =>
      TokenStep(Ok(data.token), items[TOKEN_STORAGE_KEY := data.token][TOKEN_EXPIRATION_KEY := data.token_expiration], true)
  }

  /** `getToken()` as a function of the storage, the clock and the reply `/getToken` would give. */
  function NextToken(items: map<string, string>, now: int, parseDate: string -> Date,
                     reply: Reply<TokenResponse>): TokenStep
  {
    if Reusable(items, now, parseDate) then TokenStep(Ok(items[TOKEN_STORAGE_KEY]), items, false)
    else Fetch(items, reply)
  }

  /** A usable stored token is returned as it is, with no request and no write. */
  lemma StoredTokenReused(items: map<string, string>, now: int, parseDate: string -> Date, reply: Reply<TokenResponse>)
    requires Reusable(items, now, parseDate)
    ensures NextToken(items, now, parseDate, reply) == TokenStep(Ok(items[TOKEN_STORAGE_KEY]), items, false)
  {
  }

  /** Without a usable stored token, every call asks the token endpoint. */
  lemma UnusableTokenFetches(items: map<string, string>, now: int, parseDate: string -> Date, reply: Reply<TokenResponse>)
    requires !Reusable(items, now, parseDate)
    ensures NextToken(items, now, parseDate, reply).fetched
  {
  }

  /** A missing expiration means expired, and the expiration instant itself is already expired. */
  lemma ExpirationBoundary(items: map<string, string>, parseDate: string -> Date, t: int)
    ensures TOKEN_EXPIRATION_KEY !in items ==> Expired(items, t, parseDate)
    ensures TOKEN_EXPIRATION_KEY in items && items[TOKEN_EXPIRATION_KEY] != "" && parseDate(items[TOKEN_EXPIRATION_KEY]) == At(t)
      ==> Expired(items, t, parseDate) && !Expired(items, t - 1, parseDate)
  {
  }

  /** A non-empty expiration that does not parse as a date never expires. */
  lemma UnparsableExpirationNeverExpires(items: map<string, string>, parseDate: string -> Date, now: int)
    requires TOKEN_EXPIRATION_KEY in items && items[TOKEN_EXPIRATION_KEY] != ""
    requires parseDate(items[TOKEN_EXPIRATION_KEY]) == InvalidDate
    ensures !Expired(items, now, parseDate)
  {
  }

  /** A failed request throws and writes nothing. */
  lemma FailedFetchWritesNothing(items: map<string, string>, reply: Reply<TokenResponse>)
    requires !reply.Json?
    ensures Fetch(items, reply).result.Err? && Fetch(items, reply).items == items
    ensures reply.NotOk? ==> Fetch(items, reply).result == Err(Error(FETCH_ERROR))
  {
  }

  /**
   * Any 2xx JSON reply is stored, even one whose code reports an error, and
   * while its expiration is ahead the next call reuses the fetched token.
   */
  lemma FetchedTokenReused(items: map<string, string>, now: int, later: int, parseDate: string -> Date,
                           data: TokenResponse, next: Reply<TokenResponse>)
    requires !Reusable(items, now, parseDate)
    requires data.token != "" && data.token_expiration != "" && Before(later, parseDate(data.token_expiration))
    ensures var step := NextToken(items, now, parseDate, Json(data));
      && step.result == Ok(data.token) && step.fetched
      && NextToken(step.items, later, parseDate, next) == TokenStep(Ok(data.token), step.items, false)
  {
  }

  /** After `clearToken()` the next call must fetch; no other key is touched. */
  lemma ClearForcesFetch(items: map<string, string>, now: int, parseDate: string -> Date)
    ensures var cleared := items - {TOKEN_STORAGE_KEY, TOKEN_EXPIRATION_KEY};
      && !Reusable(cleared, now, parseDate)
      && (forall k :: k in items && k != TOKEN_STORAGE_KEY && k != TOKEN_EXPIRATION_KEY ==> k in cleared && cleared[k] == items[k])
  {
  }

  /** `storeToken(token, expiration)`. */
  method StoreToken(store: LocalStorage, token: string, expiration: string)
    modifies store
    ensures store.items == old(store.items)[TOKEN_STORAGE_KEY := token][TOKEN_EXPIRATION_KEY := expiration]
  {
    store.SetItem(TOKEN_STORAGE_KEY, token);
    store.SetItem(TOKEN_EXPIRATION_KEY, expiration);
  }

  /** `isTokenExpired()`; reads the storage and changes nothing. */
  method IsTokenExpired(store: LocalStorage, now: int, parseDate: string -> Date) returns (expired: bool)
    ensures expired == Expired(store.items, now, parseDate)
  {
    var expiration := store.GetItem(TOKEN_EXPIRATION_KEY);
    if expiration.None? || expiration.value == "" {
      return true;
    }
    var expirationDate := parseDate(expiration.value);
    expired := expirationDate.At? && now >= expirationDate.ms;
  }

  /** `fetchNewToken()`; `reply` is what `/getToken` answers. */
  method FetchNewToken(store: LocalStorage, reply: Reply<TokenResponse>) returns (result: Result<string, Thrown>)
    modifies store
    ensures var step := Fetch(old(store.items), reply); result == step.result && store.items == step.items
  {
    match reply {
      case FetchFailed(e) =>
        return Err(e);
      case NotOk(_) =>
        return Err(Error(FETCH_ERROR));
      case BadJson(e) =>
        return Err(e);
      case Json(data) =>
        StoreToken(store, data.token, data.token_expiration);
        return Ok(data.token);
    }
  }

  /** `getToken()`. */
  method GetToken(store: LocalStorage, now: int, parseDate: string -> Date, reply: Reply<TokenResponse>)
    returns (result: Result<string, Thrown>, ghost fetched: bool)
    modifies store
    ensures TokenStep(result, store.items, fetched) == NextToken(old(store.items), now, parseDate, reply)
  {
    var storedToken := store.GetItem(TOKEN_STORAGE_KEY);
    var expired := IsTokenExpired(store, now, parseDate);
    if storedToken.Some? && storedToken.value != "" && !expired {
      return Ok(storedToken.value), false;
    }
    result := FetchNewToken(store, reply);
    fetched := true;
  }

  /** `clearToken()`. */
  method ClearToken(store: LocalStorage)
    modifies store
    ensures store.items == old(store.items) - {TOKEN_STORAGE_KEY, TOKEN_EXPIRATION_KEY}
  {
    store.RemoveItem(TOKEN_STORAGE_KEY);
    store.RemoveItem(TOKEN_EXPIRATION_KEY);
  }
}
