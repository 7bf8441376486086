/**
 * The candidate registration screen: the same form as the registration
 * page, but it posts straight to `/registerCandidateUser` with `fetch`,
 * encrypts with a placeholder key and reports the result with an alert.
 */
module RegistroCandidatoScreen {
  import opened Wrappers
  import opened Js
  import opened Http
  import opened ApiTypes
  import opened FormRules

  const REGISTER_URL: string := "/registerCandidateUser"
  const ACCESS_TOKEN: string := "<TOKEN_AQUI>"
  const SUCCESS_CODE: string := "0200"
  const SUCCESS_ALERT: string := "Usuario registrado correctamente"
  const ERROR_PREFIX: string := "Error: "

  /** The three fixed skills of the dropdown. */
  const SKILL_OPTIONS: seq<SkillOption> := [
    SkillOption("1", "Adaptabilidad"),
    SkillOption("2", "Responsabilidad"),
    SkillOption("3", "Trabajo en equipo")
  ]

  /** A value inside a template literal: a missing field is written `undefined`. */
  function Interpolated(s: Option<string>): (r: string)
    ensures s.Some? ==> r == s.value
    ensures s.None? ==> r == "undefined"
  {
    match s
    case Some(v) => v
    case None => "undefined"
  }

  /**
   * The alert shown once the POST settles: the success text for code
   * "0200", the description after "Error: " for any other code, and no
   * alert when `fetch` or `response.json()` throws into the `catch`.
   */
  function ResultAlert(posted: Result<Envelope, Thrown>): (r: Option<string>)
    ensures r.None? <==> posted.Err?
    ensures r == Some(SUCCESS_ALERT) <==> posted.Ok? && posted.value.code == SUCCESS_CODE
    ensures posted.Ok? && posted.value.code != SUCCESS_CODE ==>
              r == Some(ERROR_PREFIX + Interpolated(posted.value.description))
  {
    match posted
    case Err(_) => None
    case Ok(data) =>
      if data.code == SUCCESS_CODE then Some(SUCCESS_ALERT)
      else
        var text := ERROR_PREFIX + Interpolated(data.description);
        assert text[0] == 'E' != SUCCESS_ALERT[0];
        Some(text)
  }

  /** The request body: trimmed texts, the password as encrypted, parsed skill ids. */
  function RequestBody(name: string, lastName: string, email: string, encrypted: string, cvLink: string, skills: seq<string>)
    : (r: RegisterCandidateRequest)
    ensures r.name == Trim(name) && r.last_name == Trim(lastName) && r.email == Trim(email)
    ensures r.password == encrypted && r.resume_url == Trim(cvLink) && r.skill_list == SkillIds(skills)
  {
    RegisterCandidateRequest(Trim(name), Trim(lastName), Trim(email), encrypted, Trim(cvLink), SkillIds(skills))
  }

  /**
   * How a submit ends: a failed check stops it, the encryption throws out of
   * the handler, or the request goes out and the alert (if any) is shown.
   */
  datatype Submission =
    | Blocked
    | EncryptionThrew
    | Sent(request: Request<RegisterCandidateRequest>, alert: Option<string>)

  /** Skills picked from the dropdown always become the ids 1 to 3. */
  lemma FixedSkillIdsParse(selected: seq<string>)
    requires forall s :: s in selected ==> s in ["1", "2", "3"]
    ensures forall i :: 0 <= i < |selected| ==> SkillIds(selected)[i].Num? && 1 <= SkillIds(selected)[i].n <= 3
  {
    forall i | 0 <= i < |selected|
      ensures SkillIds(selected)[i].Num? && 1 <= SkillIds(selected)[i].n <= 3
    {
      assert selected[i] in selected;
      var k: nat := if selected[i] == "1" then 1 else if selected[i] == "2" then 2 else 3;
      assert selected[i] == Decimal(k);
      ParseIntDecimal(k);
    }
  }

  /** The screen's state. */
  class RegistroCandidato {
    const skillOptions: seq<SkillOption>
    var name: string
    var lastName: string
    var email: string
    var password: string
    var confirmPassword: string
    var cvLink: string
    var selectedSkills: seq<string>
    /** The seven error flags `nameError` ... `skillsError`. */
    var errors: CandidateErrors

    /** The selection has no repeats. */
    ghost predicate Valid()
      reads this
    {
      Filters.NoDup(selectedSkills)
    }

    constructor ()
      ensures Valid()
      ensures skillOptions == SKILL_OPTIONS
      ensures name == "" && lastName == "" && email == "" && password == "" && confirmPassword == "" && cvLink == ""
      ensures selectedSkills == [] && errors == NO_CANDIDATE_ERRORS
    {
      skillOptions := SKILL_OPTIONS;
      name, lastName, email, password, confirmPassword, cvLink := "", "", "", "", "", "";
      selectedSkills, errors := [], NO_CANDIDATE_ERRORS;
    }

    /** `availableSkills`. */
    function Available(): (r: seq<SkillOption>)
      reads this
      ensures forall o :: o in r <==> o in skillOptions && o.value !in selectedSkills
    {
      AvailableSkills(skillOptions, selectedSkills)
    }

    method HandleSkillSelect(value: string)
      requires Valid()
      modifies this
      ensures Valid()
      ensures selectedSkills == SelectSkill(old(selectedSkills), value)
      ensures errors == old(errors)
    {
      selectedSkills := SelectSkill(selectedSkills, value);
    }

    method HandleSkillRemove(value: string)
      requires Valid()
      modifies this
      ensures Valid()
      ensures selectedSkills == RemoveSkill(old(selectedSkills), value)
      ensures errors == old(errors)
    {
      selectedSkills := RemoveSkill(selectedSkills, value);
    }

    /** `handleCvLinkChange`: a blank link clears the error, otherwise the error says whether it is not a URL. */
    method HandleCvLinkChange(value: string, validUrl: string -> bool)
      modifies this
      ensures cvLink == value
      ensures errors == old(errors).(cv := !IsBlank(value) && !validUrl(value))
      ensures selectedSkills == old(selectedSkills) && password == old(password)
    {
      cvLink := value;
      if IsBlank(value) {
        errors := errors.(cv := false);
      } else {
        errors := errors.(cv := !validUrl(value));
      }
    }

    method HandlePasswordChange(raw: string)
      modifies this
      ensures password == SanitizePassword(raw) && confirmPassword == old(confirmPassword)
      ensures selectedSkills == old(selectedSkills)
    {
      password := SanitizePassword(raw);
    }

    method HandleConfirmPasswordChange(raw: string)
      modifies this
      ensures confirmPassword == SanitizePassword(raw) && password == old(password)
      ensures selectedSkills == old(selectedSkills)
    {
      confirmPassword := SanitizePassword(raw);
    }

    /** The seven checks of `handleSubmit`, each setting its own flag; `hasError` is whether any failed. */
    method Validate(validUrl: string -> bool) returns (hasError: bool)
      modifies this
      ensures name == old(name) && lastName == old(lastName) && email == old(email) && password == old(password)
      ensures confirmPassword == old(confirmPassword) && cvLink == old(cvLink) && selectedSkills == old(selectedSkills)
      ensures errors == CandidateChecks(name, lastName, email, password, confirmPassword, cvLink, selectedSkills, validUrl)
      ensures hasError <==> AnyError(errors)
    {
      hasError := false;
      var nameBad := NameInvalid(name);
      hasError := hasError || nameBad;
      var lastNameBad := NameInvalid(lastName);
      hasError := hasError || lastNameBad;
      var emailBad := EmailInvalid(email);
      hasError := hasError || emailBad;
      var passwordBad := PasswordInvalid(password);
      hasError := hasError || passwordBad;
      var mismatch := password != confirmPassword;
      hasError := hasError || mismatch;
      var cvBad := CvInvalid(cvLink, validUrl);
      hasError := hasError || cvBad;
      var skillsBad := |selectedSkills| < 1;
      hasError := hasError || skillsBad;
      errors := CandidateErrors(nameBad, lastNameBad, emailBad, passwordBad, mismatch, cvBad, skillsBad);
    }

    /**
     * `handleSubmit`: every check runs; any failure stops before encryption;
     * an encryption that throws ends the handler with no request; otherwise
     * the POST goes out with the fixed token and its outcome picks the alert.
     * `encrypt` is the placeholder-key encryptor and `posted` how the fetch
     * and its JSON parse settle.
     */
    method HandleSubmit(validUrl: string -> bool, encrypt: string -> EncryptOutcome, posted: Result<Envelope, Thrown>)
      returns (s: Submission)
      modifies this
      ensures name == old(name) && lastName == old(lastName) && email == old(email) && password == old(password)
      ensures confirmPassword == old(confirmPassword) && cvLink == old(cvLink) && selectedSkills == old(selectedSkills)
      ensures errors == CandidateChecks(name, lastName, email, password, confirmPassword, cvLink, selectedSkills, validUrl)
      ensures s.Blocked? <==> AnyError(errors)
      ensures s.EncryptionThrew? <==> !AnyError(errors) && encrypt(password).Raised?
      ensures s.Sent? ==>
                s.request == Request(REGISTER_URL, ACCESS_TOKEN,
                                     RequestBody(name, lastName, email, EncryptOrEmpty(encrypt, password).value, cvLink, selectedSkills))
                && s.alert == ResultAlert(posted)
    {
      var hasError := Validate(validUrl);
      if hasError {
        return Blocked;
      }
      var encrypted := EncryptOrEmpty(encrypt, password);
      if encrypted.Err? {
        return EncryptionThrew;
      }
      var requestBody := RequestBody(name, lastName, email, encrypted.value, cvLink, selectedSkills);
      s := Sent(Request(REGISTER_URL, ACCESS_TOKEN, requestBody), ResultAlert(posted));
    }
  }
}
