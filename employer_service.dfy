/** The employer registration service: four guards, then the REGISTER_EMPLOYER table. */
module EmployerService {
  import opened Wrappers
  import opened Js
  import opened Http
  import opened ErrorCodes
  import opened ErrorHandler
  import opened ApiTypes
  import opened Guards

  const REGISTER_EMPLOYER_ENDPOINT: string := "/portalEmpleos/v1/registerEmployerUser"

  /** What `registerEmployer` makes of the outcome of `apiService.post`. */
  function Classify(posted: Result<Envelope, Thrown>): (r: Result<Envelope, Thrown>)
    ensures r.Ok? <==> posted.Ok? && IsSuccess(posted.value.code)
    ensures r.Ok? ==> r.value == posted.value
    ensures r.Err? ==> r.error.Error?
    ensures posted.Ok? && r.Err? ==>
              r.error == HandleApiError(ApiResponse(posted.value.code, posted.value.description), REGISTER_EMPLOYER)
    ensures posted.Err? && posted.error.Error? ==> r == Err(posted.error)
  {
    match posted
    case Err(e) => Err(WrapConnectionError(e))
    case Ok(response) =>
      if IsSuccess(response.code) then Ok(response)
      else Err(WrapConnectionError(HandleApiError(ApiResponse(response.code, response.description), REGISTER_EMPLOYER)))
  }

  /** `registerEmployer(data)`. */
  function RegisterEmployer(data: RegisterEmployerRequest, posted: Result<Envelope, Thrown>)
    : (run: Run<RegisterEmployerRequest, Envelope>)
    ensures run.call.Some? <==> |data.name| <= 20 && |data.last_name| <= 20 && |data.email| <= 60 && |data.password| <= 30
    ensures run.call.None? ==>
      exists i :: FirstFailing(UserLimits(data.name, data.last_name, data.email, data.password), i)
               && run == Rejected(UserLimits(data.name, data.last_name, data.email, data.password)[i].message)
    ensures run.call.Some? ==> run.call.value == Call(REGISTER_EMPLOYER_ENDPOINT, data) && run.result == Classify(posted)
  {
    var checks := UserLimits(data.name, data.last_name, data.email, data.password);
    match FirstViolation(checks)
    case Some(message) => Rejected(message)
    case None =>
      assert Within(checks[0]) && Within(checks[1]) && Within(checks[2]) && Within(checks[3]);
      Run(Some(Call(REGISTER_EMPLOYER_ENDPOINT, data)), Classify(posted))
  }

  /** The guards never look at `company_id`. */
  lemma CompanyIdNotChecked(data: RegisterEmployerRequest, company_id: Number, posted: Result<Envelope, Thrown>)
    ensures RegisterEmployer(data, posted).call.None? <==> RegisterEmployer(data.(company_id := company_id), posted).call.None?
  {
  }

  /** "0404" means the company was not found and "0410" that the user exists, for any description. */
  lemma EmployerCodes(description: Option<string>)
    ensures Classify(Ok(Envelope(NOT_FOUND, description))) == Err(Error("Empresa no encontrada"))
    ensures Classify(Ok(Envelope(USER_ALREADY_REGISTERED, description))) == Err(Error("El usuario ya está registrado"))
  {
  }
}
