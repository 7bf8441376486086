/**
 * The recruiter registration page: personal data, password twice and a
 * company from a fixed dropdown; the submit checks every field and hands
 * the request to the employer service.
 */
module RegistroReclutadorPage {
  import opened Wrappers
  import opened Js
  import opened Http
  import opened ApiTypes
  import opened Guards
  import opened FormRules
  import EmployerService

  const LOGIN_ROUTE: string := "/login"
  const REGISTER_FAILED: string := "Error al registrar usuario"

  /** The four fixed companies of the dropdown. */
  const COMPANY_OPTIONS: seq<SkillOption> := [
    SkillOption("1", "Empresa 1"),
    SkillOption("2", "Empresa 2"),
    SkillOption("3", "Empresa 3"),
    SkillOption("4", "Empresa 4")
  ]

  /** The six error flags of the form, one per check. */
  datatype RecruiterErrors = RecruiterErrors(
    name: bool, lastName: bool, email: bool, passwordFormat: bool, passwordMismatch: bool, company: bool)

  const NO_RECRUITER_ERRORS: RecruiterErrors := RecruiterErrors(false, false, false, false, false, false)

  predicate AnyRecruiterError(e: RecruiterErrors) {
    e.name || e.lastName || e.email || e.passwordFormat || e.passwordMismatch || e.company
  }

  /** What each of the six checks finds, each about its own field. */
  function RecruiterChecks(name: string, lastName: string, email: string, password: string, confirmPassword: string,
                           companyId: string): (r: RecruiterErrors)
    ensures r.name == NameInvalid(name) && r.lastName == NameInvalid(lastName)
    ensures r.email == EmailInvalid(email) && r.passwordFormat == PasswordInvalid(password)
    ensures r.passwordMismatch == (password != confirmPassword) && r.company == IsBlank(companyId)
  {
    RecruiterErrors(NameInvalid(name), NameInvalid(lastName), EmailInvalid(email), PasswordInvalid(password),
                    password != confirmPassword, IsBlank(companyId))
  }

  /** The request body: trimmed texts, the password as encrypted, `parseInt(companyId)`. */
  function RequestBody(name: string, lastName: string, email: string, encrypted: string, companyId: string)
    : (r: RegisterEmployerRequest)
    ensures r.name == Trim(name) && r.last_name == Trim(lastName) && r.email == Trim(email)
    ensures r.password == encrypted && r.company_id == ParseInt(companyId)
  {
    RegisterEmployerRequest(Trim(name), Trim(lastName), Trim(email), encrypted, ParseInt(companyId))
  }

  /** The message the `catch` shows. */
  function ShownError(e: Thrown): (r: string)
    ensures e.Error? ==> r == e.message
    ensures e.NonError? ==> r == REGISTER_FAILED
  {
    match e
    case Error(message) => message
    case NonError => REGISTER_FAILED
  }

  /** A company picked from the dropdown is sent as its number. */
  lemma CompanyIdsParse(companyId: string)
    requires exists o :: o in COMPANY_OPTIONS && o.value == companyId
    ensures !IsBlank(companyId)
    ensures ParseInt(companyId).Num? && 1 <= ParseInt(companyId).n <= 4
  {
    var k: nat := if companyId == "1" then 1 else if companyId == "2" then 2 else if companyId == "3" then 3 else 4;
    assert companyId == Decimal(k);
    ParseIntDecimal(k);
    assert companyId[0] == DigitChar(k);
    assert !IsWhite(companyId[0]);
  }

  /** A form that passes the page's checks, with no public key, reaches the network. */
  lemma PlainPasswordReachesService(name: string, lastName: string, email: string, password: string,
                                    companyId: string, encrypt: string -> EncryptOutcome,
                                    posted: Result<Envelope, Thrown>)
    requires !NameInvalid(name) && !NameInvalid(lastName) && !EmailInvalid(email) && !PasswordInvalid(password)
    ensures EmployerService.RegisterEmployer(
              RequestBody(name, lastName, email, EncryptWithFallback(None, encrypt, password), companyId), posted).call.Some?
  {
    TrimFacts(name);
    TrimFacts(lastName);
    TrimFacts(email);
  }

  /**
   * With a public key set, a ciphertext longer than 30 characters makes the
   * service refuse the password, so the registration never reaches the network.
   */
  lemma EncryptedPasswordIsRefused(name: string, lastName: string, email: string, password: string,
                                   companyId: string, publicKey: Option<string>,
                                   encrypt: string -> EncryptOutcome, posted: Result<Envelope, Thrown>)
    requires !NameInvalid(name) && !NameInvalid(lastName) && !EmailInvalid(email)
    requires Truthy(publicKey) && encrypt(password).Cipher? && |encrypt(password).text| > PASSWORD_MAX
    ensures EmployerService.RegisterEmployer(
              RequestBody(name, lastName, email, EncryptWithFallback(publicKey, encrypt, password), companyId), posted)
            == Rejected(PASSWORD_LIMIT_MESSAGE)
  {
    TrimFacts(name);
    TrimFacts(lastName);
    TrimFacts(email);
    var body := RequestBody(name, lastName, email, EncryptWithFallback(publicKey, encrypt, password), companyId);
    ReportsFirstFailing(UserLimits(body.name, body.last_name, body.email, body.password), 3);
  }

  /** The page's state. */
  class RegistroReclutador {
    const companyOptions: seq<SkillOption>
    var name: string
    var lastName: string
    var email: string
    var password: string
    var confirmPassword: string
    var companyId: string
    /** The six error flags `nameError` ... `companyError`. */
    var errors: RecruiterErrors
    var loading: bool
    var error: Option<string>

    constructor ()
      ensures companyOptions == COMPANY_OPTIONS
      ensures name == "" && lastName == "" && email == "" && password == "" && confirmPassword == "" && companyId == ""
      ensures errors == NO_RECRUITER_ERRORS && !loading && error.None?
    {
      companyOptions := COMPANY_OPTIONS;
      name, lastName, email, password, confirmPassword, companyId := "", "", "", "", "", "";
      errors, loading, error := NO_RECRUITER_ERRORS, false, None;
    }

    method HandlePasswordChange(raw: string)
      modifies this
      ensures password == SanitizePassword(raw) && confirmPassword == old(confirmPassword)
      ensures companyId == old(companyId) && errors == old(errors)
    {
      password := SanitizePassword(raw);
    }

    method HandleConfirmPasswordChange(raw: string)
      modifies this
      ensures confirmPassword == SanitizePassword(raw) && password == old(password)
      ensures companyId == old(companyId) && errors == old(errors)
    {
      confirmPassword := SanitizePassword(raw);
    }

    /** The six checks of `handleSubmit`, each setting its own flag; `hasError` is whether any failed. */
    method Validate() returns (hasError: bool)
      modifies this
      ensures name == old(name) && lastName == old(lastName) && email == old(email) && password == old(password)
      ensures confirmPassword == old(confirmPassword) && companyId == old(companyId)
      ensures loading == old(loading) && error == old(error)
      ensures errors == RecruiterChecks(name, lastName, email, password, confirmPassword, companyId)
      ensures hasError <==> AnyRecruiterError(errors)
    {
      hasError := false;
      var nameBad := NameInvalid(name);
      hasError := hasError || nameBad;
      var lastNameBad := NameInvalid(lastName);
      hasError := hasError || lastNameBad;
      var emailBad := EmailInvalid(email);
      hasError := hasError || emailBad;
      var passwordBad := PasswordInvalid(password);
      hasError := hasError || passwordBad;
      var mismatch := password != confirmPassword;
      hasError := hasError || mismatch;
      var companyBad := IsBlank(companyId);
      hasError := hasError || companyBad;
      errors := RecruiterErrors(nameBad, lastNameBad, emailBad, passwordBad, mismatch, companyBad);
    }

    /**
     * `handleSubmit`: the error is cleared, every check runs, any failure
     * stops before encryption; otherwise the service's outcome decides
     * between the login route and the shown error, and loading ends.
     */
    method HandleSubmit(publicKey: Option<string>, encrypt: string -> EncryptOutcome, posted: Result<Envelope, Thrown>)
      returns (run: Option<Run<RegisterEmployerRequest, Envelope>>, route: Option<string>)
      modifies this
      ensures name == old(name) && lastName == old(lastName) && email == old(email) && password == old(password)
      ensures confirmPassword == old(confirmPassword) && companyId == old(companyId)
      ensures errors == RecruiterChecks(name, lastName, email, password, confirmPassword, companyId)
      ensures var failed := AnyRecruiterError(errors);
              (failed ==> run.None? && route.None? && error.None? && loading == old(loading))
              && (!failed ==>
                    run == Some(EmployerService.RegisterEmployer(
                             RequestBody(name, lastName, email, EncryptWithFallback(publicKey, encrypt, password), companyId),
                             posted))
                    && !loading
                    && (run.value.result.Ok? ==> route == Some(LOGIN_ROUTE) && error.None?)
                    && (run.value.result.Err? ==> route.None? && error == Some(ShownError(run.value.result.error))))
    {
      error := None;
      var hasError := Validate();
      if hasError {
        return None, None;
      }
      loading := true;
      var encryptedPassword := EncryptWithFallback(publicKey, encrypt, password);
      var requestBody := RequestBody(name, lastName, email, encryptedPassword, companyId);
      var outcome := EmployerService.RegisterEmployer(requestBody, posted);
      run := Some(outcome);
      if outcome.result.Ok? {
        route := Some(LOGIN_ROUTE);
      } else {
        route := None;
        error := Some(ShownError(outcome.result.error));
      }
      loading := false;
    }
  }
}
