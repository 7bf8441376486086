/**
 * The candidate registration page: the form state, its handlers, and the
 * submit that checks every field, builds the request and hands it to the
 * hard-coded candidate service.
 */
module RegistroCandidatoPage {
  import opened Wrappers
  import opened Js
  import opened Http
  import opened ApiTypes
  import opened Guards
  import opened FormRules
  import CandidatoService

  const LOGIN_ROUTE: string := "/login"
  const REGISTER_FAILED: string := "Error al registrar usuario"

  /** The request body built from the form: trimmed texts, the password as encrypted, parsed skill ids. */
  function RequestBody(name: string, lastName: string, email: string, encrypted: string, cvLink: string, skills: seq<string>)
    : (r: RegisterCandidateRequest)
    ensures r.name == Trim(name) && r.last_name == Trim(lastName) && r.email == Trim(email)
    ensures r.password == encrypted && r.resume_url == Trim(cvLink) && r.skill_list == SkillIds(skills)
  {
    RegisterCandidateRequest(Trim(name), Trim(lastName), Trim(email), encrypted, Trim(cvLink), SkillIds(skills))
  }

  /** The message the `catch` shows. */
  function ShownError(e: Thrown): (r: string)
    ensures e.Error? ==> r == e.message
    ensures e.NonError? ==> r == REGISTER_FAILED
  {
    match e
    case Error(message) => message
    case NonError => REGISTER_FAILED
  }

  /** A form that passes the page's checks, with no public key, reaches the network. */
  lemma PlainPasswordReachesService(name: string, lastName: string, email: string, password: string,
                                    cvLink: string, skills: seq<string>, encrypt: string -> EncryptOutcome,
                                    posted: Result<Envelope, Thrown>)
    requires !NameInvalid(name) && !NameInvalid(lastName) && !EmailInvalid(email) && !PasswordInvalid(password)
    requires |cvLink| <= CV_MAX
    ensures CandidatoService.RegisterCandidate(
              RequestBody(name, lastName, email, EncryptWithFallback(None, encrypt, password), cvLink, skills), posted).call.Some?
  {
    TrimFacts(name);
    TrimFacts(lastName);
    TrimFacts(email);
    TrimFacts(cvLink);
  }

  /**
   * With a public key set, a ciphertext longer than 30 characters (every RSA
   * ciphertext in base64 is) makes the service refuse the password, so the
   * registration never reaches the network.
   */
  lemma EncryptedPasswordIsRefused(name: string, lastName: string, email: string, password: string,
                                   cvLink: string, skills: seq<string>, publicKey: Option<string>,
                                   encrypt: string -> EncryptOutcome, posted: Result<Envelope, Thrown>)
    requires !NameInvalid(name) && !NameInvalid(lastName) && !EmailInvalid(email)
    requires Truthy(publicKey) && encrypt(password).Cipher? && |encrypt(password).text| > PASSWORD_MAX
    ensures CandidatoService.RegisterCandidate(
              RequestBody(name, lastName, email, EncryptWithFallback(publicKey, encrypt, password), cvLink, skills), posted)
            == Rejected(PASSWORD_LIMIT_MESSAGE)
  {
    TrimFacts(name);
    TrimFacts(lastName);
    TrimFacts(email);
    var body := RequestBody(name, lastName, email, EncryptWithFallback(publicKey, encrypt, password), cvLink, skills);
    ReportsFirstFailing(CandidateLimits(body.name, body.last_name, body.email, body.password, body.resume_url), 3);
  }

  /** The page's state. */
  class RegistroCandidato {
    var name: string
    var lastName: string
    var email: string
    var password: string
    var confirmPassword: string
    var cvLink: string
    var selectedSkills: seq<string>
    var skillOptions: seq<SkillOption>
    /** The seven error flags `nameError` ... `skillsError`. */
    var errors: CandidateErrors
    var loading: bool
    var error: Option<string>

    /** The selection has no repeats. */
    ghost predicate Valid()
      reads this
    {
      Filters.NoDup(selectedSkills)
    }

    constructor ()
      ensures Valid()
      ensures name == "" && lastName == "" && email == "" && password == "" && confirmPassword == "" && cvLink == ""
      ensures selectedSkills == [] && skillOptions == []
      ensures errors == NO_CANDIDATE_ERRORS && !loading && error.None?
    {
      name, lastName, email, password, confirmPassword, cvLink := "", "", "", "", "", "";
      selectedSkills, skillOptions := [], [];
      errors, loading, error := NO_CANDIDATE_ERRORS, false, None;
    }

    /** `availableSkills`. */
    function Available(): (r: seq<SkillOption>)
      reads this
      ensures forall o :: o in r <==> o in skillOptions && o.value !in selectedSkills
    {
      AvailableSkills(skillOptions, selectedSkills)
    }

    method HandleSkillSelect(value: string)
      requires Valid()
      modifies this
      ensures Valid()
      ensures selectedSkills == SelectSkill(old(selectedSkills), value)
      ensures skillOptions == old(skillOptions)
    {
      selectedSkills := SelectSkill(selectedSkills, value);
    }

    method HandleSkillRemove(value: string)
      requires Valid()
      modifies this
      ensures Valid()
      ensures selectedSkills == RemoveSkill(old(selectedSkills), value)
      ensures skillOptions == old(skillOptions)
    {
      selectedSkills := RemoveSkill(selectedSkills, value);
    }

    /** `handleCvLinkChange`: a blank link clears the error, otherwise the error says whether it is not a URL. */
    method HandleCvLinkChange(value: string, validUrl: string -> bool)
      modifies this
      ensures cvLink == value
      ensures errors == old(errors).(cv := !IsBlank(value) && !validUrl(value))
      ensures selectedSkills == old(selectedSkills) && password == old(password)
    {
      cvLink := value;
      if IsBlank(value) {
        errors := errors.(cv := false);
      } else {
        errors := errors.(cv := !validUrl(value));
      }
    }

    method HandlePasswordChange(raw: string)
      modifies this
      ensures password == SanitizePassword(raw) && confirmPassword == old(confirmPassword)
      ensures selectedSkills == old(selectedSkills)
    {
      password := SanitizePassword(raw);
    }

    method HandleConfirmPasswordChange(raw: string)
      modifies this
      ensures confirmPassword == SanitizePassword(raw) && password == old(password)
      ensures selectedSkills == old(selectedSkills)
    {
      confirmPassword := SanitizePassword(raw);
    }

    /** The seven checks of `handleSubmit`, each setting its own flag; `hasError` is whether any failed. */
    method Validate(validUrl: string -> bool) returns (hasError: bool)
      modifies this
      ensures name == old(name) && lastName == old(lastName) && email == old(email) && password == old(password)
      ensures confirmPassword == old(confirmPassword) && cvLink == old(cvLink) && selectedSkills == old(selectedSkills)
      ensures skillOptions == old(skillOptions) && loading == old(loading) && error == old(error)
      ensures errors == CandidateChecks(name, lastName, email, password, confirmPassword, cvLink, selectedSkills, validUrl)
      ensures hasError <==> AnyError(errors)
    {
      hasError := false;
      var nameBad := NameInvalid(name);
      hasError := hasError || nameBad;
      var lastNameBad := NameInvalid(lastName);
      hasError := hasError || lastNameBad;
      var emailBad := EmailInvalid(email);
      hasError := hasError || emailBad;
      var passwordBad := PasswordInvalid(password);
      hasError := hasError || passwordBad;
      var mismatch := password != confirmPassword;
      hasError := hasError || mismatch;
      var cvBad := CvInvalid(cvLink, validUrl);
      hasError := hasError || cvBad;
      var skillsBad := |selectedSkills| < 1;
      hasError := hasError || skillsBad;
      errors := CandidateErrors(nameBad, lastNameBad, emailBad, passwordBad, mismatch, cvBad, skillsBad);
    }

    /**
     * `handleSubmit`: every check runs and sets only its own flag; any
     * failure stops before encryption; otherwise the service's outcome
     * decides between the login route and the shown error. `posted` is how
     * the service's POST settles; `run` is what the service did.
     */
    method HandleSubmit(validUrl: string -> bool, publicKey: Option<string>, encrypt: string -> EncryptOutcome,
                        posted: Result<Envelope, Thrown>)
      returns (run: Option<Run<RegisterCandidateRequest, Envelope>>, route: Option<string>)
      modifies this
      ensures name == old(name) && lastName == old(lastName) && email == old(email) && password == old(password)
      ensures confirmPassword == old(confirmPassword) && cvLink == old(cvLink) && selectedSkills == old(selectedSkills)
      ensures skillOptions == old(skillOptions)
      ensures errors == CandidateChecks(name, lastName, email, password, confirmPassword, cvLink, selectedSkills, validUrl)
      ensures var failed := AnyError(errors);
              (failed ==> run.None? && route.None? && error.None? && loading == old(loading))
              && (!failed ==>
                    run == Some(CandidatoService.RegisterCandidate(
                             RequestBody(name, lastName, email, EncryptWithFallback(publicKey, encrypt, password), cvLink, selectedSkills),
                             posted))
                    && !loading
                    && (run.value.result.Ok? ==> route == Some(LOGIN_ROUTE) && error.None?)
                    && (run.value.result.Err? ==> route.None? && error == Some(ShownError(run.value.result.error))))
    {
      error := None;
      var hasError := Validate(validUrl);
      if hasError {
        return None, None;
      }
      loading := true;
      var encryptedPassword := EncryptWithFallback(publicKey, encrypt, password);
      var requestBody := RequestBody(name, lastName, email, encryptedPassword, cvLink, selectedSkills);
      var outcome := CandidatoService.RegisterCandidate(requestBody, posted);
      run := Some(outcome);
      if outcome.result.Ok? {
        route := Some(LOGIN_ROUTE);
      } else {
        route := None;
        error := Some(ShownError(outcome.result.error));
      }
      loading := false;
    }
  }
}
