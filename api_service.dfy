/**
 * The shared API client: a token cache held in two fields, refreshed from
 * the token endpoint or short-circuited by a statically configured token,
 * and an authenticated POST.
 */
module Api {
  import opened Wrappers
  import opened Js
  import opened Http

  /** `API_CONFIG.BASE_URL`. */
  const BASE_URL: string := "http://localhost:5000"
  /** `API_CONFIG.TOKEN`, the static token as configured in the repository. */
  const CONFIGURED_TOKEN: string := "token_test1234"
  const TOKEN_ERROR: string := "Error al obtener el token"
  const HTTP_ERROR_PREFIX: string := "HTTP error! status: "

  /** The body of the token endpoint's reply. */
  datatype TokenResponse = TokenResponse(code: string, description: Option<string>, token: string, token_expiration: string)

  /** The two cache fields `token` and `tokenExpiration`. */
  datatype Cache = Cache(token: Option<string>, tokenExpiration: Option<Date>)

  /** The cached token may be reused: it is non-empty and its expiration is still ahead of `now`. */
  predicate Fresh(c: Cache, now: int) {
    Truthy(c.token) && c.tokenExpiration.Some? && Before(now, c.tokenExpiration.value)
  }

  /** What one call of `getToken` does: its outcome, the cache afterwards, and whether it fetched. */
  datatype TokenStep = TokenStep(result: Result<string, Thrown>, cache: Cache, fetched: bool)

  /**
   * `getToken` as a function of the cache, the configuration, the clock and
   * the reply the token endpoint would give.
   */
  function NextToken(c: Cache, staticToken: string, parseDate: string -> Date, now: int,
                     reply: Reply<TokenResponse>): TokenStep
  {
    if Fresh(c, now) then
      TokenStep(Ok(c.token.value), c, false)
    else if staticToken != "" then
      TokenStep(Ok(staticToken), c.(token := Some(staticToken)), false)
    else
      match reply
      case FetchFailed(e) => TokenStep(Err(e), c, true)
      case NotOk(_) => TokenStep(Err(Error(TOKEN_ERROR)), c, true)
      case BadJson(e) => TokenStep(Err(e), c, true)
      case Json(data) =>
        if data.code != "0200" then
          TokenStep(Err(Error(OrElse(data.description, TOKEN_ERROR))), c, true)
        else
          TokenStep(Ok(data.token), Cache(Some(data.token), Some(parseDate(data.token_expiration))), true)
  }

  /** A fresh cached token is returned as it is, with no fetch and no change to the cache. */
  lemma FreshTokenReused(c: Cache, staticToken: string, parseDate: string -> Date, now: int,
                         reply: Reply<TokenResponse>)
    requires Fresh(c, now)
    ensures NextToken(c, staticToken, parseDate, now, reply) == TokenStep(Ok(c.token.value), c, false)
  {
  }

  /** With a static token configured, `getToken` returns it, never fetches and never sets an expiration. */
  lemma StaticTokenShortCircuits(c: Cache, staticToken: string, parseDate: string -> Date, now: int,
                                 reply: Reply<TokenResponse>)
    requires staticToken != "" && c.tokenExpiration.None?
    ensures var step := NextToken(c, staticToken, parseDate, now, reply);
      step.result == Ok(staticToken) && !step.fetched && step.cache.tokenExpiration.None?
      && step.cache.token == Some(staticToken)
  {
  }

  /** A fetch that does not succeed throws and leaves both cache fields as they were. */
  lemma FailedFetchKeepsCache(c: Cache, parseDate: string -> Date, now: int, reply: Reply<TokenResponse>)
    requires !Fresh(c, now)
    requires !(reply.Json? && reply.body.code == "0200")
    ensures var step := NextToken(c, "", parseDate, now, reply);
      step.fetched && step.result.Err? && step.cache == c
    ensures reply.NotOk? ==> NextToken(c, "", parseDate, now, reply).result == Err(Error(TOKEN_ERROR))
    ensures reply.Json? ==>
      NextToken(c, "", parseDate, now, reply).result == Err(Error(OrElse(reply.body.description, TOKEN_ERROR)))
  {
  }

  /**
   * A successful fetch stores the token and its expiration and returns
   * exactly the stored token; while that expiration is ahead, the next call
   * reuses it without fetching.
   */
  lemma SuccessfulFetchIsCached(c: Cache, parseDate: string -> Date, now: int, later: int,
                                data: TokenResponse, next: Reply<TokenResponse>)
    requires !Fresh(c, now) && data.code == "0200"
    requires data.token != "" && Before(later, parseDate(data.token_expiration))
    ensures var step := NextToken(c, "", parseDate, now, Json(data));
      step.fetched && step.result == Ok(data.token) && step.cache.token == Some(data.token)
      && step.cache.tokenExpiration == Some(parseDate(data.token_expiration))
      && NextToken(step.cache, "", parseDate, later, next) == TokenStep(Ok(data.token), step.cache, false)
  {
  }

  /** `post`'s handling of the reply: a non-2xx status throws with the status, a 2xx body is returned verbatim. */
  function PostResult<E>(reply: Reply<E>): (r: Result<E, Thrown>)
    ensures r.Ok? <==> reply.Json?
    ensures reply.Json? ==> r.value == reply.body
    ensures reply.NotOk? ==> r == Err(Error(HTTP_ERROR_PREFIX + Decimal(reply.status)))
    ensures reply.FetchFailed? ==> r == Err(reply.cause)
    ensures reply.BadJson? ==> r == Err(reply.cause)
  {
    match reply
    case FetchFailed(e) => Err(e)
    case NotOk(status) => Err(Error(HTTP_ERROR_PREFIX + Decimal(status)))
    case BadJson(e) => Err(e)
    case Json(body) => Ok(body)
  }

  /** The status can be read back from the message `post` throws. */
  lemma HttpErrorCarriesStatus(status: nat)
    ensures var m := PostResult<int>(NotOk(status)).error.message;
      m[..|HTTP_ERROR_PREFIX|] == HTTP_ERROR_PREFIX && ParseInt(m[|HTTP_ERROR_PREFIX|..]) == Number.Num(status)
  {
    var m := PostResult<int>(NotOk(status)).error.message;
    assert m[|HTTP_ERROR_PREFIX|..] == Decimal(status);
    ParseIntDecimal(status);
  }

  /** The API client object with its two cache fields. */
  class ApiService {
    /** `API_CONFIG.TOKEN`; "" stands for no static token. */
    const staticToken: string
    /** `new Date(s)`, left abstract. */
    const parseDate: string -> Date
    var token: Option<string>
    var tokenExpiration: Option<Date>

    /** With a static token configured the expiration is never set. */
    ghost predicate Valid()
      reads this
    {
      staticToken != "" ==> tokenExpiration.None?
    }

    function CacheOf(): Cache
      reads this
    {
      Cache(token, tokenExpiration)
    }

    constructor (staticToken: string, parseDate: string -> Date)
      ensures Valid()
      ensures this.staticToken == staticToken && this.parseDate == parseDate
      ensures token.None? && tokenExpiration.None?
    {
      this.staticToken := staticToken;
      this.parseDate := parseDate;
      token := None;
      tokenExpiration := None;
    }

    /** `getToken()`; `reply` is what the token endpoint answers if it is asked. */
    method GetToken(now: int, reply: Reply<TokenResponse>) returns (result: Result<string, Thrown>, ghost fetched: bool)
      requires Valid()
      modifies this
      ensures Valid()
      ensures TokenStep(result, CacheOf(), fetched) == NextToken(old(CacheOf()), staticToken, parseDate, now, reply)
    {
      if token.Some? && token.value != "" && tokenExpiration.Some? && Before(now, tokenExpiration.value) {
        return Ok(token.value), false;
      }
      if staticToken != "" {
        token := Some(staticToken);
        return Ok(staticToken), false;
      }
      fetched := true;
      match reply {
        case FetchFailed(e) =>
          result := Err(e);
        case NotOk(_) =>
          result := Err(Error(TOKEN_ERROR));
        case BadJson(e) =>
          result := Err(e);
        case Json(data) =>
          if data.code != "0200" {
            result := Err(Error(OrElse(data.description, TOKEN_ERROR)));
          } else {
            token := Some(data.token);
            tokenExpiration := Some(parseDate(data.token_expiration));
            result := Ok(data.token);
          }
      }
    }

    /**
     * `post(endpoint, body)`: obtains a token first and, only if that
     * succeeds, sends the request with the token as `x-access-token`.
     */
    method Post<B, E>(endpoint: string, body: B, now: int, tokenReply: Reply<TokenResponse>, reply: Reply<E>)
      returns (sent: Option<Request<B>>, result: Result<E, Thrown>)
      requires Valid()
      modifies this
      ensures Valid()
      ensures var step := NextToken(old(CacheOf()), staticToken, parseDate, now, tokenReply);
        && CacheOf() == step.cache
        && (step.result.Err? ==> sent.None? && result == Err(step.result.error))
        && (step.result.Ok? ==>
              sent == Some(Request(BASE_URL + endpoint, step.result.value, body)) && result == PostResult(reply))
    {
      var token, fetched := GetToken(now, tokenReply);
      if token.Err? {
        return None, Err(token.error);
      }
      sent := Some(Request(BASE_URL + endpoint, token.value, body));
      result := PostResult(reply);
    }
  }
}
