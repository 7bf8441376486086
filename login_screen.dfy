/**
 * The earlier login screen: the same two length checks as the login page,
 * but it treats what the authentication service returns as an envelope and
 * looks for the user under `data`.
 */
module LoginScreen {
  import opened Wrappers
  import opened Js
  import opened Http
  import opened Storage
  import opened ApiTypes
  import opened ErrorCodes
  import AuthService
  import LoginPage

  /** Where the screen lands after a successful login: the user it saved, if any, and the route, if any. */
  datatype Landing = Landing(saved: Option<UserData>, route: Option<string>)

  /**
   * `response.data` where `response` is what `AuthService.login` resolves
   * to: a user record, whose only fields are `first_name`, `last_name`,
   * `role` and `user_id`, so the property is always `undefined`.
   */
  function DataField(response: UserData): (r: Option<UserData>)
    ensures r.None?
  {
    None
  }

  /** The success branch as written: it saves and routes only when `response.data` is present. */
  function LandingAsWritten(response: UserData): (r: Landing)
    ensures DataField(response).None? ==> r == Landing(None, None)
  {
    match DataField(response)
    case None => Landing(None, None)
    case Some(user) => Landing(Some(user), LoginPage.RouteFor(user.role))
  }

  /**
   * The success branch as intended: the resolved value is the user; it is
   * saved, candidates and employers go to their home, and any other role
   * stays on the screen with no error.
   */
  function LandingFor(user: UserData): (r: Landing)
    ensures r.saved == Some(user)
    ensures r.route == Some(LoginPage.CANDIDATE_HOME) <==> user.role == "candidate"
    ensures r.route == Some(LoginPage.EMPLOYER_HOME) <==> user.role == "employer"
    ensures r.route.None? <==> user.role != "candidate" && user.role != "employer"
  {
    Landing(Some(user), LoginPage.RouteFor(user.role))
  }

  /**
   * A "0200" reply for a candidate: the service resolves with the user, yet
   * the screen as written saves nothing and stays put, where the intended
   * landing saves the user and opens the candidate home.
   */
  lemma SuccessfulLoginGoesNowhere(email: string, password: string, description: Option<string>)
    requires |email| <= 50 && |password| <= 30
    ensures var user := UserData("Ana", "Diaz", "candidate", 1);
            var run := AuthService.Login(email, password, Ok(LoginResponse(SUCCESS, description, user)));
            run.result == Ok(user)
            && LandingAsWritten(run.result.value) == Landing(None, None)
            && LandingFor(run.result.value) == Landing(Some(user), Some(LoginPage.CANDIDATE_HOME))
  {
  }

  /** The intended landing stores the user where `getUser()` finds it. */
  lemma LandingSavesUser(items: map<string, string>, codec: Codec<UserData>, user: UserData)
    requires Lawful(codec)
    ensures LandingFor(user).saved.Some?
    ensures AuthService.StoredUser(items[AuthService.USER_STORAGE_KEY := codec.stringify(LandingFor(user).saved.value)], codec)
            == Ok(Some(user))
  {
    AuthService.SaveThenGet(items, codec, user);
  }

  /** The screen's state; `store` is the browser's `localStorage`. */
  class Login {
    const store: LocalStorage
    var email: string
    var password: string
    var loading: bool
    var error: Option<string>
    var emailError: string
    var passwordError: string

    /** A message is shown only for a field that is really too long. */
    ghost predicate Valid()
      reads this
    {
      (emailError != "" ==> emailError == LoginPage.EMAIL_TOO_LONG && |email| > 50)
      && (passwordError != "" ==> passwordError == LoginPage.PASSWORD_TOO_LONG && |password| > 30)
    }

    constructor (store: LocalStorage)
      ensures Valid()
      ensures this.store == store
      ensures email == "" && password == "" && !loading && error.None? && emailError == "" && passwordError == ""
    {
      this.store := store;
      email, password, loading, error, emailError, passwordError := "", "", false, None, "", "";
    }

    /** `validateEmail(value)`: sets the email message and says whether the value fits. */
    method ValidateEmail(value: string) returns (ok: bool)
      modifies this
      ensures ok <==> |value| <= 50
      ensures emailError == LoginPage.EmailMessage(value)
      ensures email == old(email) && password == old(password) && passwordError == old(passwordError)
      ensures loading == old(loading) && error == old(error)
    {
      emailError := "";
      if |value| > 50 {
        emailError := LoginPage.EMAIL_TOO_LONG;
        return false;
      }
      return true;
    }

    /** `validatePassword(value)`: sets the password message and says whether the value fits. */
    method ValidatePassword(value: string) returns (ok: bool)
      modifies this
      ensures ok <==> |value| <= 30
      ensures passwordError == LoginPage.PasswordMessage(value)
      ensures email == old(email) && password == old(password) && emailError == old(emailError)
      ensures loading == old(loading) && error == old(error)
    {
      passwordError := "";
      if |value| > 30 {
        passwordError := LoginPage.PASSWORD_TOO_LONG;
        return false;
      }
      return true;
    }

    method HandleEmailChange(value: string)
      requires Valid()
      modifies this
      ensures Valid()
      ensures email == value && emailError == LoginPage.EmailMessage(value)
      ensures password == old(password) && passwordError == old(passwordError)
    {
      email := value;
      var _ := ValidateEmail(value);
    }

    method HandlePasswordChange(value: string)
      requires Valid()
      modifies this
      ensures Valid()
      ensures password == value && passwordError == LoginPage.PasswordMessage(value)
      ensures email == old(email) && emailError == old(emailError)
    {
      password := value;
      var _ := ValidatePassword(value);
    }

    /** Carries out a landing: saves its user, if any, and takes its route. */
    method Land(landing: Landing, codec: Codec<UserData>) returns (route: Option<string>)
      modifies store
      ensures route == landing.route
      ensures landing.saved.None? ==> store.items == old(store.items)
      ensures landing.saved.Some? ==>
                store.items == old(store.items)[AuthService.USER_STORAGE_KEY := codec.stringify(landing.saved.value)]
    {
      if landing.saved.Some? {
        AuthService.SaveUser(store, codec, landing.saved.value);
      }
      route := landing.route;
    }

    /**
     * `handleLogin` as written: both fields are checked again and a failure
     * stops before the service; a rejection shows its message; a success
     * reads `response.data`, which is never there.
     */
    method HandleLoginAsWritten(posted: Result<LoginResponse, Thrown>, codec: Codec<UserData>)
      returns (run: Option<Run<LoginRequest, UserData>>, route: Option<string>)
      requires Valid()
      modifies this, store
      ensures Valid()
      ensures email == old(email) && password == old(password)
      ensures emailError == LoginPage.EmailMessage(email) && passwordError == LoginPage.PasswordMessage(password)
      ensures (|email| > 50 || |password| > 30) ==> run.None? && error.None? && loading == old(loading)
      ensures (|email| <= 50 && |password| <= 30) ==> run == Some(AuthService.Login(email, password, posted)) && !loading
      ensures run.Some? && run.value.result.Err? ==> error == Some(LoginPage.ShownError(run.value.result.error))
      ensures run.Some? && run.value.result.Ok? ==> error.None?
      ensures route.None? && store.items == old(store.items)
    {
      error := None;
      route := None;
      var isEmailValid := ValidateEmail(email);
      var isPasswordValid := ValidatePassword(password);
      if !isEmailValid || !isPasswordValid {
        return None, None;
      }
      loading := true;
      var outcome := AuthService.Login(email, password, posted);
      run := Some(outcome);
      match outcome.result {
        case Err(e) =>
          error := Some(LoginPage.ShownError(e));
        case Ok(response) =>
          route := Land(LandingAsWritten(response), codec);
      }
      loading := false;
    }

    /**
     * `handleLogin` as intended: a success saves the resolved user and
     * routes by role, with no error for an unknown role.
     */
    method HandleLogin(posted: Result<LoginResponse, Thrown>, codec: Codec<UserData>)
      returns (run: Option<Run<LoginRequest, UserData>>, route: Option<string>)
      requires Valid()
      modifies this, store
      ensures Valid()
      ensures email == old(email) && password == old(password)
      ensures emailError == LoginPage.EmailMessage(email) && passwordError == LoginPage.PasswordMessage(password)
      ensures (|email| > 50 || |password| > 30) ==>
                run.None? && route.None? && error.None? && loading == old(loading) && store.items == old(store.items)
      ensures (|email| <= 50 && |password| <= 30) ==> run == Some(AuthService.Login(email, password, posted)) && !loading
      ensures run.Some? && run.value.result.Err? ==>
                error == Some(LoginPage.ShownError(run.value.result.error)) && route.None? && store.items == old(store.items)
      ensures run.Some? && run.value.result.Ok? ==>
                var landing := LandingFor(run.value.result.value);
                error.None? && route == landing.route
                && store.items == old(store.items)[AuthService.USER_STORAGE_KEY := codec.stringify(landing.saved.value)]
    {
      error := None;
      route := None;
      var isEmailValid := ValidateEmail(email);
      var isPasswordValid := ValidatePassword(password);
      if !isEmailValid || !isPasswordValid {
        return None, None;
      }
      loading := true;
      var outcome := AuthService.Login(email, password, posted);
      run := Some(outcome);
      match outcome.result {
        case Err(e) =>
          error := Some(LoginPage.ShownError(e));
        case Ok(userData) =>
          route := Land(LandingFor(userData), codec);
      }
      loading := false;
    }
  }
}
