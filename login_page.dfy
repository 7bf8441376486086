/**
 * The login page: two length-checked fields, a remember-me checkbox whose
 * three keys live in `localStorage`, and the submit that logs in through
 * the authentication service and routes by role.
 */
module LoginPage {
  import opened Wrappers
  import opened Js
  import opened Http
  import opened Storage
  import opened ApiTypes
  import AuthService

  const REMEMBERED_EMAIL: string := "rememberedEmail"
  const REMEMBERED_PASSWORD: string := "rememberedPassword"
  const REMEMBER_ME: string := "rememberMe"
  const EMAIL_TOO_LONG: string := "El correo no puede exceder 50 caracteres"
  const PASSWORD_TOO_LONG: string := "La contraseña no puede exceder 30 caracteres"
  const INVALID_ROLE: string := "Tipo de usuario no válido"
  const LOGIN_FAILED: string := "Error al iniciar sesión"
  const CANDIDATE_HOME: string := "/home-candidato"
  const EMPLOYER_HOME: string := "/home-empresa"

  /** The message `validateEmail` leaves: empty exactly when the email fits in 50 characters. */
  function EmailMessage(value: string): (r: string)
    ensures r == "" <==> |value| <= 50
    ensures r != "" ==> r == EMAIL_TOO_LONG
  {
    if |value| > 50 then EMAIL_TOO_LONG else ""
  }

  /** The message `validatePassword` leaves: empty exactly when the password fits in 30 characters. */
  function PasswordMessage(value: string): (r: string)
    ensures r == "" <==> |value| <= 30
    ensures r != "" ==> r == PASSWORD_TOO_LONG
  {
    if |value| > 30 then PASSWORD_TOO_LONG else ""
  }

  /** Where a logged-in user goes: candidates and employers each to their home, any other role nowhere. */
  function RouteFor(role: string): (r: Option<string>)
    ensures r == Some(CANDIDATE_HOME) <==> role == "candidate"
    ensures r == Some(EMPLOYER_HOME) <==> role == "employer"
    ensures r.None? <==> role != "candidate" && role != "employer"
  {
    if role == "candidate" then Some(CANDIDATE_HOME)
    else if role == "employer" then Some(EMPLOYER_HOME)
    else None
  }

  /** The message the `catch` shows. */
  function ShownError(e: Thrown): (r: string)
    ensures e.Error? ==> r == e.message
    ensures e.NonError? ==> r == LOGIN_FAILED
  {
    match e
    case Error(message) => message
    case NonError => LOGIN_FAILED
  }

  /** The storage after the remember-me step: the three keys written, or the three keys removed. */
  function Remembered(items: map<string, string>, rememberMe: bool, email: string, password: string)
    : (r: map<string, string>)
    ensures rememberMe ==>
              Lookup(r, REMEMBERED_EMAIL) == Some(email) && Lookup(r, REMEMBERED_PASSWORD) == Some(password)
              && Lookup(r, REMEMBER_ME) == Some("true")
    ensures !rememberMe ==> REMEMBERED_EMAIL !in r && REMEMBERED_PASSWORD !in r && REMEMBER_ME !in r
    ensures forall k :: k != REMEMBERED_EMAIL && k != REMEMBERED_PASSWORD && k != REMEMBER_ME ==>
              (k in r <==> k in items) && (k in r ==> r[k] == items[k])
  {
    if rememberMe then items[REMEMBERED_EMAIL := email][REMEMBERED_PASSWORD := password][REMEMBER_ME := "true"]
    else items - {REMEMBERED_EMAIL, REMEMBERED_PASSWORD, REMEMBER_ME}
  }

  /** The fields the page starts with. */
  datatype Fields = Fields(email: string, password: string, rememberMe: bool)

  /**
   * The mount effect: the saved email, the remember flag and, when one was
   * saved, the password come back only when the flag is "true" and a
   * non-empty email was saved.
   */
  function Restore(items: map<string, string>): (r: Fields)
    ensures r.rememberMe <==> Truthy(Lookup(items, REMEMBERED_EMAIL)) && Lookup(items, REMEMBER_ME) == Some("true")
    ensures r.rememberMe ==> r.email == items[REMEMBERED_EMAIL]
    ensures !r.rememberMe ==> r == Fields("", "", false)
    ensures r.rememberMe && Truthy(Lookup(items, REMEMBERED_PASSWORD)) ==> r.password == items[REMEMBERED_PASSWORD]
    ensures r.rememberMe && !Truthy(Lookup(items, REMEMBERED_PASSWORD)) ==> r.password == ""
  {
    var savedEmail := Lookup(items, REMEMBERED_EMAIL);
    var savedPassword := Lookup(items, REMEMBERED_PASSWORD);
    if Truthy(savedEmail) && Lookup(items, REMEMBER_ME) == Some("true") then
      Fields(savedEmail.value, if Truthy(savedPassword) then savedPassword.value else "", true)
    else Fields("", "", false)
  }

  /** What is remembered comes back on the next visit; a password too, when one was typed. */
  lemma RememberThenRestore(items: map<string, string>, email: string, password: string)
    requires email != ""
    ensures Restore(Remembered(items, true, email, password)) == Fields(email, password, true)
  {
  }

  /** Once forgotten, nothing comes back. */
  lemma ForgetThenRestore(items: map<string, string>, email: string, password: string)
    ensures Restore(Remembered(items, false, email, password)) == Fields("", "", false)
  {
  }

  /** Remembering or forgetting leaves the logged-in user's record where `saveUser` put it. */
  lemma RememberKeepsUser(items: map<string, string>, codec: Codec<UserData>, user: UserData,
                          rememberMe: bool, email: string, password: string)
    requires Lawful(codec)
    ensures AuthService.StoredUser(
              Remembered(items[AuthService.USER_STORAGE_KEY := codec.stringify(user)], rememberMe, email, password), codec)
            == Ok(Some(user))
  {
    var saved := items[AuthService.USER_STORAGE_KEY := codec.stringify(user)];
    AuthService.SaveThenGet(items, codec, user);
    var after := Remembered(saved, rememberMe, email, password);
    assert Lookup(after, AuthService.USER_STORAGE_KEY) == Lookup(saved, AuthService.USER_STORAGE_KEY);
  }

  /** Whether the submit button is disabled. */
  predicate SubmitDisabled(loading: bool, emailError: string, passwordError: string) {
    loading || emailError != "" || passwordError != ""
  }

  /** Once both fields have been typed, the button is enabled exactly when nothing loads and both fit. */
  lemma SubmitEnabledIffFieldsFit(loading: bool, email: string, password: string)
    ensures !SubmitDisabled(loading, EmailMessage(email), PasswordMessage(password))
            <==> !loading && |email| <= 50 && |password| <= 30
  {
  }

  /** The page's state; `store` is the browser's `localStorage`. */
  class Login {
    const store: LocalStorage
    var email: string
    var password: string
    var loading: bool
    var error: Option<string>
    var emailError: string
    var passwordError: string
    var rememberMe: bool

    /** A message is shown only for a field that is really too long. */
    ghost predicate Valid()
      reads this
    {
      (emailError != "" ==> emailError == EMAIL_TOO_LONG && |email| > 50)
      && (passwordError != "" ==> passwordError == PASSWORD_TOO_LONG && |password| > 30)
    }

    /** The initial state followed by the mount effect, which only reads the storage. */
    constructor (store: LocalStorage)
      ensures Valid()
      ensures this.store == store && store.items == old(store.items)
      ensures Fields(email, password, rememberMe) == Restore(store.items)
      ensures !loading && error.None? && emailError == "" && passwordError == ""
    {
      this.store := store;
      loading, error, emailError, passwordError := false, None, "", "";
      email, password, rememberMe := "", "", false;
      new;
      var savedEmail := store.GetItem(REMEMBERED_EMAIL);
      var savedPassword := store.GetItem(REMEMBERED_PASSWORD);
      var savedRemember := store.GetItem(REMEMBER_ME);
      if Truthy(savedEmail) && savedRemember == Some("true") {
        email := savedEmail.value;
        rememberMe := true;
        if Truthy(savedPassword) {
          password := savedPassword.value;
        }
      }
    }

    /** `validateEmail(value)`: sets the email message and says whether the value fits. */
    method ValidateEmail(value: string) returns (ok: bool)
      modifies this
      ensures ok <==> |value| <= 50
      ensures emailError == EmailMessage(value)
      ensures email == old(email) && password == old(password) && passwordError == old(passwordError)
      ensures loading == old(loading) && error == old(error) && rememberMe == old(rememberMe)
    {
      emailError := "";
      if |value| > 50 {
        emailError := EMAIL_TOO_LONG;
        return false;
      }
      return true;
    }

    /** `validatePassword(value)`: sets the password message and says whether the value fits. */
    method ValidatePassword(value: string) returns (ok: bool)
      modifies this
      ensures ok <==> |value| <= 30
      ensures passwordError == PasswordMessage(value)
      ensures email == old(email) && password == old(password) && emailError == old(emailError)
      ensures loading == old(loading) && error == old(error) && rememberMe == old(rememberMe)
    {
      passwordError := "";
      if |value| > 30 {
        passwordError := PASSWORD_TOO_LONG;
        return false;
      }
      return true;
    }

    method HandleEmailChange(value: string)
      requires Valid()
      modifies this
      ensures Valid()
      ensures email == value && emailError == EmailMessage(value)
      ensures password == old(password) && passwordError == old(passwordError) && rememberMe == old(rememberMe)
    {
      email := value;
      var _ := ValidateEmail(value);
    }

    method HandlePasswordChange(value: string)
      requires Valid()
      modifies this
      ensures Valid()
      ensures password == value && passwordError == PasswordMessage(value)
      ensures email == old(email) && emailError == old(emailError) && rememberMe == old(rememberMe)
    {
      password := value;
      var _ := ValidatePassword(value);
    }

    /** The remember-me step of `handleLogin`. */
    method RememberCredentials()
      modifies store
      ensures store.items == Remembered(old(store.items), rememberMe, email, password)
    {
      if rememberMe {
        store.SetItem(REMEMBERED_EMAIL, email);
        store.SetItem(REMEMBERED_PASSWORD, password);
        store.SetItem(REMEMBER_ME, "true");
      } else {
        store.RemoveItem(REMEMBERED_EMAIL);
        store.RemoveItem(REMEMBERED_PASSWORD);
        store.RemoveItem(REMEMBER_ME);
        assert store.items == old(store.items) - {REMEMBERED_EMAIL, REMEMBERED_PASSWORD, REMEMBER_ME};
      }
    }

    /**
     * `handleLogin`: both fields are checked again and a failure stops
     * before the service; otherwise the user is saved, the remember-me keys
     * are written or removed, and the role picks the route or the error.
     * `posted` is how the login POST settles and `codec` is `JSON`.
     */
    method HandleLogin(posted: Result<LoginResponse, Thrown>, codec: Codec<UserData>)
      returns (run: Option<Run<LoginRequest, UserData>>, route: Option<string>)
      requires Valid()
      modifies this, store
      ensures Valid()
      ensures email == old(email) && password == old(password) && rememberMe == old(rememberMe)
      ensures emailError == EmailMessage(email) && passwordError == PasswordMessage(password)
      ensures (|email| > 50 || |password| > 30) ==>
                run.None? && route.None? && error.None? && loading == old(loading) && store.items == old(store.items)
      ensures (|email| <= 50 && |password| <= 30) ==>
                run == Some(AuthService.Login(email, password, posted)) && run.value.call.Some? && !loading
      ensures run.Some? && run.value.result.Err? ==>
                route.None? && error == Some(ShownError(run.value.result.error)) && store.items == old(store.items)
      ensures run.Some? && run.value.result.Ok? ==>
                var user := run.value.result.value;
                store.items == Remembered(old(store.items)[AuthService.USER_STORAGE_KEY := codec.stringify(user)],
                                          rememberMe, email, password)
                && route == RouteFor(user.role)
                && (route.None? <==> error == Some(INVALID_ROLE))
                && (route.Some? ==> error.None?)
    {
      error := None;
      var isEmailValid := ValidateEmail(email);
      var isPasswordValid := ValidatePassword(password);
      if !isEmailValid || !isPasswordValid {
        return None, None;
      }
      loading := true;
      var outcome := AuthService.Login(email, password, posted);
      run := Some(outcome);
      match outcome.result {
        case Err(e) =>
          route := None;
          error := Some(ShownError(e));
        case Ok(userData) =>
          AuthService.SaveUser(store, codec, userData);
          RememberCredentials();
          route := RouteFor(userData.role);
          if route.None? {
            error := Some(INVALID_ROLE);
          }
      }
      loading := false;
    }
  }
}
