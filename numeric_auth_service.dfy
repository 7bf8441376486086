/**
 * The login service of the numeric-code revision: a token from the
 * storage-backed token cache, a POST to `/login`, a check of the numeric
 * code and of the user, and the user kept as JSON under `current_user`.
 */
module NumericAuthService {
  import opened Wrappers
  import opened Js
  import opened Http
  import opened Storage
  import TokenService

  const CURRENT_USER_KEY: string := "current_user"
  const LOGIN_FAILED: string := "Login failed"

  datatype LoginRequest = LoginRequest(email: string, password: string)

  /** The `user` record of a login reply. */
  datatype User = User(id: int, name: string, last_name: string, email: string, user_type: string,
                       company_id: Option<int>, resume_url: Option<string>, skill_list: Option<seq<string>>)

  /** The login reply: `code` is compared with the number 200. */
  datatype LoginResponse = LoginResponse(code: JsonCode, description: Option<string>, user: Option<User>)

  /** The whole reply is accepted only with the number 200 and a user. */
  predicate Accepted(data: LoginResponse) {
    data.code == Int(200) && data.user.Some?
  }

  /** What `login` makes of the `/login` reply. */
  function ClassifyLoginReply(reply: Reply<LoginResponse>): (r: Result<LoginResponse, Thrown>)
    ensures r.Ok? <==> reply.Json? && Accepted(reply.body)
    ensures r.Ok? ==> r.value == reply.body
    ensures reply.NotOk? ==> r == Err(Error(LOGIN_FAILED))
    ensures reply.Json? && !Accepted(reply.body) ==> r == Err(Error(OrElse(reply.body.description, LOGIN_FAILED)))
    ensures reply.FetchFailed? || reply.BadJson? ==> r == Err(reply.cause)
  {
    match reply
    case FetchFailed(e) => Err(e)
    case NotOk(_) => Err(Error(LOGIN_FAILED))
    case BadJson(e) => Err(e)
    case Json(data) =>
      if data.code != Int(200) || data.user.None? then Err(Error(OrElse(data.description, LOGIN_FAILED)))
      else Ok(data)
  }

  /** A string code, even "200" or "0200", is never accepted. */
  lemma StringCodeRejected(s: string, description: Option<string>, user: Option<User>)
    ensures ClassifyLoginReply(Json(LoginResponse(Text(s), description, user))).Err?
  {
  }

  /** What `getCurrentUser()` yields for a storage snapshot: the parsed user, or null on absence or bad JSON. */
  function CurrentUser(items: map<string, string>, codec: Codec<User>): Option<User> {
    var userStr := Lookup(items, CURRENT_USER_KEY);
    if !Truthy(userStr) then None
    else match codec.parse(userStr.value)
      case Ok(user) => Some(user)
      case Err(_) => None
  }

  /** Saving a user and reading it back gives that user. */
  lemma SaveThenCurrent(items: map<string, string>, codec: Codec<User>, user: User)
    requires Lawful(codec)
    ensures CurrentUser(items[CURRENT_USER_KEY := codec.stringify(user)], codec) == Some(user)
  {
    assert codec.parse(codec.stringify(user)) == Ok(user) && codec.stringify(user) != "";
  }

  /** A malformed stored value reads as no user. */
  lemma MalformedIsNoUser(items: map<string, string>, codec: Codec<User>)
    requires CURRENT_USER_KEY in items && codec.parse(items[CURRENT_USER_KEY]).Err?
    ensures CurrentUser(items, codec).None?
  {
  }

  /** After `logout()` there is no user and the next token request must fetch. */
  lemma LogoutForgetsAll(items: map<string, string>, codec: Codec<User>, now: int, parseDate: string -> Date)
    ensures var cleared := items - {TokenService.TOKEN_STORAGE_KEY, TokenService.TOKEN_EXPIRATION_KEY} - {CURRENT_USER_KEY};
      CurrentUser(cleared, codec).None? && !TokenService.Reusable(cleared, now, parseDate)
  {
  }

  /**
   * `login(email, password)`: `tokenReply` is what `/getToken` answers if
   * the token cache asks, `reply` what `/login` answers.
   */
  method Login(store: LocalStorage, now: int, parseDate: string -> Date, tokenReply: Reply<TokenService.TokenResponse>,
               baseUrl: string, email: string, password: string, reply: Reply<LoginResponse>)
    returns (sent: Option<Request<LoginRequest>>, result: Result<LoginResponse, Thrown>)
    modifies store
    ensures var step := TokenService.NextToken(old(store.items), now, parseDate, tokenReply);
      && store.items == step.items
      && (step.result.Err? ==> sent.None? && result == Err(step.result.error))
      && (step.result.Ok? ==>
            sent == Some(Request(baseUrl + "/login", step.result.value, LoginRequest(email, password)))
            && result == ClassifyLoginReply(reply))
  {
    var token, fetched := TokenService.GetToken(store, now, parseDate, tokenReply);
    if token.Err? {
      return None, Err(token.error);
    }
    sent := Some(Request(baseUrl + "/login", token.value, LoginRequest(email, password)));
    result := ClassifyLoginReply(reply);
  }

  /** `logout()`: both token keys and the user go. */
  method Logout(store: LocalStorage)
    modifies store
    ensures store.items == old(store.items) - {TokenService.TOKEN_STORAGE_KEY, TokenService.TOKEN_EXPIRATION_KEY} - {CURRENT_USER_KEY}
  {
    TokenService.ClearToken(store);
    store.RemoveItem(CURRENT_USER_KEY);
  }

  /** `saveUser(user)`: an absent user writes nothing. */
  method SaveUser(store: LocalStorage, codec: Codec<User>, user: Option<User>)
    modifies store
    ensures user.None? ==> store.items == old(store.items)
    ensures user.Some? ==> store.items == old(store.items)[CURRENT_USER_KEY := codec.stringify(user.value)]
  {
    if user.Some? {
      store.SetItem(CURRENT_USER_KEY, codec.stringify(user.value));
    }
  }

  /** `getCurrentUser()`; never throws and reads only. */
  method GetCurrentUser(store: LocalStorage, codec: Codec<User>) returns (user: Option<User>)
    ensures user == CurrentUser(store.items, codec)
  {
    var userStr := store.GetItem(CURRENT_USER_KEY);
    if userStr.None? || userStr.value == "" {
      return None;
    }
    var parsed := codec.parse(userStr.value);
    user := if parsed.Ok? then Some(parsed.value) else None;
  }
}
