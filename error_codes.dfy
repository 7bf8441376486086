/** The fixed error taxonomy: backend codes, common messages and per-endpoint tables. */
module ErrorCodes {

  const SUCCESS: string := "0200"
  const BAD_REQUEST: string := "0400"
  const NOT_FOUND: string := "0404"
  const USER_ALREADY_REGISTERED: string := "0410"
  const INCORRECT_DATA_LENGTH: string := "0411"
  const INTERNAL_ERROR: string := "0500"
  const CONNECTION_ERROR: string := "0600"

  /** The values of `ERROR_CODES`, in declaration order. */
  const ALL_CODES: seq<string> := [SUCCESS, BAD_REQUEST, NOT_FOUND, USER_ALREADY_REGISTERED,
                                   INCORRECT_DATA_LENGTH, INTERNAL_ERROR, CONNECTION_ERROR]

  /** The string key under which the connection-error message is kept. */
  const CONNECTION_ERROR_KEY: string := "CONNECTION_ERROR"
  const DEFAULT_KEY: string := "DEFAULT"

  const MSG_BAD_REQUEST: string := "Solicitud incorrecta. Verificá los datos ingresados"
  const MSG_INTERNAL_ERROR: string := "Error interno del servidor. Intentá nuevamente más tarde"
  const MSG_CONNECTION_ERROR: string := "Error de conexión. Verificá tu conexión a internet"
  const MSG_DEFAULT: string := "Ha ocurrido un error. Intentá nuevamente"

  /** `COMMON_ERROR_MESSAGES`. */
  const COMMON_ERROR_MESSAGES: map<string, string> :=
    map[BAD_REQUEST := MSG_BAD_REQUEST, INTERNAL_ERROR := MSG_INTERNAL_ERROR,
        CONNECTION_ERROR_KEY := MSG_CONNECTION_ERROR, DEFAULT_KEY := MSG_DEFAULT]

  /** `LOGIN_ERRORS`. */
  const EMAIL_REQUIRED: string := "El correo electrónico es obligatorio"
  const PASSWORD_REQUIRED: string := "La contraseña es obligatoria"
  const EMAIL_TOO_LONG: string := "El correo no puede exceder 50 caracteres"
  const PASSWORD_TOO_LONG: string := "La contraseña no puede exceder 30 caracteres"
  const INVALID_USER_TYPE: string := "Tipo de usuario no válido"
  const LOGIN_FAILED: string := "Error al iniciar sesión"
  const EMAIL_INVALID: string := "Ingresá un correo electrónico válido"

  /** The keys of `ENDPOINT_ERROR_MESSAGES`. */
  datatype Endpoint = LOGIN | REGISTER_CANDIDATE | REGISTER_EMPLOYER | GET_COMPANIES | GET_SKILLS | GET_AVAILABLE_JOBS

  /** `ENDPOINT_ERROR_MESSAGES[e]`: the code-to-message table of one endpoint. */
  function EndpointMessages(e: Endpoint): map<string, string> {
    match e
    case LOGIN =>
      map[SUCCESS := "Inicio de sesión exitoso",
          BAD_REQUEST := COMMON_ERROR_MESSAGES[BAD_REQUEST],
          NOT_FOUND := "Usuario o contraseña incorrectos",
          INTERNAL_ERROR := COMMON_ERROR_MESSAGES[INTERNAL_ERROR]]
    case REGISTER_CANDIDATE =>
      map[SUCCESS := "Registro exitoso",
          BAD_REQUEST := COMMON_ERROR_MESSAGES[BAD_REQUEST],
          USER_ALREADY_REGISTERED := "El usuario ya está registrado",
          INCORRECT_DATA_LENGTH := "Longitud de datos incorrecta",
          INTERNAL_ERROR := COMMON_ERROR_MESSAGES[INTERNAL_ERROR]]
    case REGISTER_EMPLOYER =>
      map[SUCCESS := "Registro exitoso",
          BAD_REQUEST := COMMON_ERROR_MESSAGES[BAD_REQUEST],
          NOT_FOUND := "Empresa no encontrada",
          USER_ALREADY_REGISTERED := "El usuario ya está registrado",
          INTERNAL_ERROR := COMMON_ERROR_MESSAGES[INTERNAL_ERROR]]
    case GET_COMPANIES =>
      map[SUCCESS := "Empresas obtenidas correctamente",
          BAD_REQUEST := COMMON_ERROR_MESSAGES[BAD_REQUEST],
          INTERNAL_ERROR := COMMON_ERROR_MESSAGES[INTERNAL_ERROR]]
    case GET_SKILLS =>
      map[SUCCESS := "Habilidades obtenidas correctamente",
          BAD_REQUEST := COMMON_ERROR_MESSAGES[BAD_REQUEST],
          INTERNAL_ERROR := COMMON_ERROR_MESSAGES[INTERNAL_ERROR]]
    case GET_AVAILABLE_JOBS =>
      map[SUCCESS := "Trabajos obtenidos correctamente",
          BAD_REQUEST := COMMON_ERROR_MESSAGES[BAD_REQUEST],
          INTERNAL_ERROR := COMMON_ERROR_MESSAGES[INTERNAL_ERROR]]
  }

  /** The seven codes are pairwise distinct, and success is "0200". */
  lemma CodesDistinct()
    ensures forall i, j :: 0 <= i < j < |ALL_CODES| ==> ALL_CODES[i] != ALL_CODES[j]
    ensures ALL_CODES[0] == "0200"
  {
  }

  /** Every endpoint table maps success, bad request and internal error. */
  lemma TablesCoverCommonCodes(e: Endpoint)
    ensures SUCCESS in EndpointMessages(e)
    ensures BAD_REQUEST in EndpointMessages(e) && INTERNAL_ERROR in EndpointMessages(e)
  {
  }

  /** Every bad-request and internal-error entry is the common message. */
  lemma TablesReuseCommonMessages(e: Endpoint)
    ensures EndpointMessages(e)[BAD_REQUEST] == COMMON_ERROR_MESSAGES[BAD_REQUEST] == MSG_BAD_REQUEST
    ensures EndpointMessages(e)[INTERNAL_ERROR] == COMMON_ERROR_MESSAGES[INTERNAL_ERROR] == MSG_INTERNAL_ERROR
  {
  }

  /** Code 0404 means a failed login for LOGIN, an unknown company for REGISTER_EMPLOYER. */
  lemma NotFoundDependsOnEndpoint()
    ensures EndpointMessages(LOGIN)[NOT_FOUND] == "Usuario o contraseña incorrectos"
    ensures EndpointMessages(REGISTER_EMPLOYER)[NOT_FOUND] == "Empresa no encontrada"
    ensures EndpointMessages(LOGIN)[NOT_FOUND] != EndpointMessages(REGISTER_EMPLOYER)[NOT_FOUND]
  {
  }

  /** REGISTER_CANDIDATE maps 0410 and 0411 but not 0404, and no other table maps 0411. */
  lemma CandidateTableShape(e: Endpoint)
    ensures USER_ALREADY_REGISTERED in EndpointMessages(REGISTER_CANDIDATE)
    ensures INCORRECT_DATA_LENGTH in EndpointMessages(REGISTER_CANDIDATE)
    ensures NOT_FOUND !in EndpointMessages(REGISTER_CANDIDATE)
    ensures INCORRECT_DATA_LENGTH in EndpointMessages(e) <==> e == REGISTER_CANDIDATE
  {
  }

  /** No table maps 0600; the connection message sits under the key "CONNECTION_ERROR". */
  lemma ConnectionErrorIsUnmapped(e: Endpoint)
    ensures CONNECTION_ERROR !in EndpointMessages(e)
    ensures CONNECTION_ERROR !in COMMON_ERROR_MESSAGES
    ensures COMMON_ERROR_MESSAGES[CONNECTION_ERROR_KEY] == MSG_CONNECTION_ERROR
  {
  }

  /** No table entry is the empty string, so a mapped code always wins `||`. */
  lemma TableMessagesNonEmpty(e: Endpoint, code: string)
    requires code in EndpointMessages(e)
    ensures EndpointMessages(e)[code] != ""
  {
  }
}
