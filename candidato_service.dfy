/**
 * The candidate registration service of the hard-coded revision: length
 * guards, a POST through the shared API client, and its own `switch` from
 * codes to messages.
 */
module CandidatoService {
  import opened Wrappers
  import opened Js
  import opened Http
  import opened ApiTypes
  import opened Guards
  import ErrorCodes

  /** `API_CONFIG.ENDPOINTS.REGISTER_CANDIDATE`. */
  const REGISTER_CANDIDATE_ENDPOINT: string := "/portalEmpleos/v1/registerCandidateUser"
  const REGISTER_FAILED: string := "Error al registrar usuario"
  const CONNECTION_MESSAGE: string := "Error de conexión. Verifica tu conexión a internet"

  /** The codes the `switch` names, with their fixed messages. */
  const SWITCH_MESSAGES: map<string, string> :=
    map["0400" := "Solicitud incorrecta. Verifica los datos ingresados",
        "0410" := "El usuario ya está registrado",
        "0411" := "Longitud de datos incorrecta",
        "0500" := "Error interno del servidor. Intenta nuevamente más tarde"]

  /** The `catch`: an `Error` is rethrown as it is, anything else becomes the connection message. */
  function Rethrow(e: Thrown): (r: Thrown)
    ensures r.Error?
    ensures e.Error? ==> r == e
    ensures e.NonError? ==> r.message == CONNECTION_MESSAGE
  {
    if e.Error? then e else Error(CONNECTION_MESSAGE)
  }

  /** What `registerCandidate` makes of the outcome of `apiService.post`. */
  function Classify(posted: Result<Envelope, Thrown>): (r: Result<Envelope, Thrown>)
    ensures r.Ok? <==> posted.Ok? && posted.value.code == "0200"
    ensures r.Ok? ==> r.value == posted.value
    ensures posted.Ok? && posted.value.code in SWITCH_MESSAGES ==>
              r == Err(Error(SWITCH_MESSAGES[posted.value.code]))
    ensures posted.Ok? && posted.value.code != "0200" && posted.value.code !in SWITCH_MESSAGES ==>
              r == Err(Error(OrElse(posted.value.description, REGISTER_FAILED)))
    ensures posted.Err? ==> r == Err(Rethrow(posted.error))
  {
    match posted
    case Err(e) => Err(Rethrow(e))
    case Ok(response) =>
      if response.code == "0200" then Ok(response)
      else
        var thrown := match response.code
          case "0400" => Error("Solicitud incorrecta. Verifica los datos ingresados")
          case "0410" => Error("El usuario ya está registrado")
          case "0411" => Error("Longitud de datos incorrecta")
          case "0500" => Error("Error interno del servidor. Intenta nuevamente más tarde")
          case _ => Error(OrElse(response.description, REGISTER_FAILED));
        Err(Rethrow(thrown))
  }

  /** `registerCandidate(data)`; `posted` is how `apiService.post` settles if it is called. */
  function RegisterCandidate(data: RegisterCandidateRequest, posted: Result<Envelope, Thrown>)
    : (run: Run<RegisterCandidateRequest, Envelope>)
    ensures run.call.Some? <==>
      |data.name| <= 20 && |data.last_name| <= 20 && |data.email| <= 60 && |data.password| <= 30 && |data.resume_url| <= 100
    ensures run.call.None? ==>
      exists i :: FirstFailing(CandidateLimits(data.name, data.last_name, data.email, data.password, data.resume_url), i)
               && run == Rejected(CandidateLimits(data.name, data.last_name, data.email, data.password, data.resume_url)[i].message)
    ensures run.call.Some? ==> run.call.value == Call(REGISTER_CANDIDATE_ENDPOINT, data) && run.result == Classify(posted)
  {
    var checks := CandidateLimits(data.name, data.last_name, data.email, data.password, data.resume_url);
    match FirstViolation(checks)
    case Some(message) => Rejected(message)
    case None =>
      assert Within(checks[0]) && Within(checks[1]) && Within(checks[2]) && Within(checks[3]) && Within(checks[4]);
      Run(Some(Call(REGISTER_CANDIDATE_ENDPOINT, data)), Classify(posted))
  }

  /** A name of 21 characters is refused with the name message; one of 20 does not stop the request. */
  lemma NameLimitBoundary(data: RegisterCandidateRequest, posted: Result<Envelope, Thrown>)
    ensures |data.name| == 21 ==> RegisterCandidate(data, posted) == Rejected(NAME_LIMIT_MESSAGE)
    ensures (|data.name| == 20 && |data.last_name| <= 20 && |data.email| <= 60 && |data.password| <= 30
             && |data.resume_url| <= 100) ==> RegisterCandidate(data, posted).call.Some?
  {
    if |data.name| == 21 {
      ReportsFirstFailing(CandidateLimits(data.name, data.last_name, data.email, data.password, data.resume_url), 0);
    }
  }

  /** The hard-coded messages say "Verifica"/"Intenta", not the "Verificá"/"Intentá" of the common table. */
  lemma SwitchMessagesDifferFromCommon()
    ensures SWITCH_MESSAGES["0400"] != ErrorCodes.COMMON_ERROR_MESSAGES[ErrorCodes.BAD_REQUEST]
    ensures SWITCH_MESSAGES["0500"] != ErrorCodes.COMMON_ERROR_MESSAGES[ErrorCodes.INTERNAL_ERROR]
    ensures CONNECTION_MESSAGE != ErrorCodes.COMMON_ERROR_MESSAGES[ErrorCodes.CONNECTION_ERROR_KEY]
  {
    assert SWITCH_MESSAGES["0400"][29] != ErrorCodes.COMMON_ERROR_MESSAGES[ErrorCodes.BAD_REQUEST][29];
    assert SWITCH_MESSAGES["0500"][34] != ErrorCodes.COMMON_ERROR_MESSAGES[ErrorCodes.INTERNAL_ERROR][34];
    assert CONNECTION_MESSAGE[26] != ErrorCodes.COMMON_ERROR_MESSAGES[ErrorCodes.CONNECTION_ERROR_KEY][26];
  }
}
