/**
 * The login service of the error-handler revision and its session store:
 * length guards, a POST through the shared API client, LOGIN code mapping,
 * and the logged-in user kept as JSON under one storage key.
 */
module AuthService {
  import opened Wrappers
  import opened Js
  import opened Http
  import opened Storage
  import opened ErrorCodes
  import opened ErrorHandler
  import opened ApiTypes
  import opened Guards

  const USER_STORAGE_KEY: string := "portal_empleos_user"
  /** `API_CONFIG.ENDPOINTS.LOGIN`. */
  const LOGIN_ENDPOINT: string := "/portalEmpleos/v1/login"
  const EMAIL_LIMIT_MESSAGE: string := "El correo electrónico no puede exceder 50 caracteres"
  const PASSWORD_LIMIT_MESSAGE: string := "La contraseña no puede exceder 30 caracteres"

  /** The two guards of `login`, email first. */
  function LoginChecks(email: string, password: string): seq<Limit> {
    [Limit(email, 50, EMAIL_LIMIT_MESSAGE), Limit(password, 30, PASSWORD_LIMIT_MESSAGE)]
  }

  /**
   * What `login` makes of the outcome of `apiService.post`: the data of a
   * "0200" envelope, otherwise an `Error` with a non-empty message.
   */
  function ClassifyLogin(posted: Result<LoginResponse, Thrown>): (r: Result<UserData, Thrown>)
    ensures r.Ok? <==> posted.Ok? && posted.value.code == SUCCESS
    ensures r.Ok? ==> r.value == posted.value.data
    ensures r.Err? ==> r.error.Error?
    ensures posted.Ok? && r.Err? ==> r.error.message != ""
    ensures posted.Err? && posted.error.Error? ==> r == Err(posted.error)
  {
    match posted
    case Err(e) => Err(WrapConnectionError(e))
    case Ok(response) =>
      if IsSuccess(response.code) then Ok(response.data)
      else Err(WrapConnectionError(HandleApiError(ApiResponse(response.code, response.description), LOGIN)))
  }

  /** `login(email, password)`; `posted` is how `apiService.post` settles if it is called. */
  function Login(email: string, password: string, posted: Result<LoginResponse, Thrown>): (run: Run<LoginRequest, UserData>)
    ensures run.call.Some? <==> |email| <= 50 && |password| <= 30
    ensures |email| > 50 ==> run == Rejected(EMAIL_LIMIT_MESSAGE)
    ensures |email| <= 50 && |password| > 30 ==> run == Rejected(PASSWORD_LIMIT_MESSAGE)
    ensures run.call.Some? ==> run.call.value == Call(LOGIN_ENDPOINT, LoginRequest(email, password))
                               && run.result == ClassifyLogin(posted)
  {
    var checks := LoginChecks(email, password);
    match FirstViolation(checks)
    case Some(message) => Rejected(message)
    case None =>
      assert Within(checks[0]) && Within(checks[1]);
      Run(Some(Call(LOGIN_ENDPOINT, LoginRequest(email, password))), ClassifyLogin(posted))
  }

  /** A "0404" reply is reported as wrong credentials, whatever the server's description. */
  lemma LoginNotFound(email: string, password: string, description: Option<string>, data: UserData)
    requires |email| <= 50 && |password| <= 30
    ensures Login(email, password, Ok(LoginResponse(NOT_FOUND, description, data))).result
            == Err(Error("Usuario o contraseña incorrectos"))
  {
  }

  /** A code the LOGIN table does not map reports the server's description when it has one. */
  lemma LoginUnmappedCode(email: string, password: string, response: LoginResponse)
    requires |email| <= 50 && |password| <= 30
    requires response.code !in EndpointMessages(LOGIN) && Truthy(response.description)
    ensures Login(email, password, Ok(response)).result == Err(Error(response.description.value))
  {
  }

  /** What `getUser()` yields for a storage snapshot: no user, the parsed user, or the parse error it throws. */
  function StoredUser(items: map<string, string>, codec: Codec<UserData>): Result<Option<UserData>, Thrown> {
    var userData := Lookup(items, USER_STORAGE_KEY);
    if !Truthy(userData) then Ok(None)
    else match codec.parse(userData.value)
      case Ok(user) => Ok(Some(user))
      case Err(message) => Err(Error(message))
  }

  /** `saveUser(u)` then `getUser()` gives `u` back. */
  lemma SaveThenGet(items: map<string, string>, codec: Codec<UserData>, user: UserData)
    requires Lawful(codec)
    ensures StoredUser(items[USER_STORAGE_KEY := codec.stringify(user)], codec) == Ok(Some(user))
  {
    assert codec.parse(codec.stringify(user)) == Ok(user) && codec.stringify(user) != "";
  }

  /** After `logout()`, or with nothing stored, there is no user and nobody is authenticated. */
  lemma LogoutThenGet(items: map<string, string>, codec: Codec<UserData>)
    ensures StoredUser(items - {USER_STORAGE_KEY}, codec) == Ok(None)
    ensures USER_STORAGE_KEY !in items ==> StoredUser(items, codec) == Ok(None)
  {
  }

  /** A malformed stored value makes `getUser()` throw instead of answering null. */
  lemma MalformedUserThrows(items: map<string, string>, codec: Codec<UserData>)
    requires USER_STORAGE_KEY in items && items[USER_STORAGE_KEY] != ""
    requires codec.parse(items[USER_STORAGE_KEY]).Err?
    ensures StoredUser(items, codec).Err?
  {
  }

  /** `saveUser(userData)`. */
  method SaveUser(store: LocalStorage, codec: Codec<UserData>, userData: UserData)
    modifies store
    ensures store.items == old(store.items)[USER_STORAGE_KEY := codec.stringify(userData)]
  {
    store.SetItem(USER_STORAGE_KEY, codec.stringify(userData));
  }

  /** `getUser()`; reads only. */
  method GetUser(store: LocalStorage, codec: Codec<UserData>) returns (r: Result<Option<UserData>, Thrown>)
    ensures r == StoredUser(store.items, codec)
  {
    var userData := store.GetItem(USER_STORAGE_KEY);
    if userData.None? || userData.value == "" {
      return Ok(None);
    }
    var parsed := codec.parse(userData.value);
    r := if parsed.Ok? then Ok(Some(parsed.value)) else Err(Error(parsed.error));
  }

  /** `logout()`. */
  method Logout(store: LocalStorage)
    modifies store
    ensures store.items == old(store.items) - {USER_STORAGE_KEY}
  {
    store.RemoveItem(USER_STORAGE_KEY);
  }

  /** `isAuthenticated()`: whether `getUser()` found a user; its parse error propagates. */
  method IsAuthenticated(store: LocalStorage, codec: Codec<UserData>) returns (r: Result<bool, Thrown>)
    ensures r.Ok? <==> StoredUser(store.items, codec).Ok?
    ensures r.Ok? ==> (r.value <==> StoredUser(store.items, codec).value.Some?)
    ensures r.Err? ==> r.error == StoredUser(store.items, codec).error
  {
    var user := GetUser(store, codec);
    r := if user.Ok? then Ok(user.value.Some?) else Err(user.error);
  }
}
