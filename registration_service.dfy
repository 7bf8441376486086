/**
 * The registration service of the numeric-code revision: a token from the
 * storage-backed cache, a POST, and a check of the HTTP status and of the
 * numeric code, the same for candidates and employers.
 */
module RegistrationService {
  import opened Wrappers
  import opened Js
  import opened Http
  import opened Storage
  import TokenService

  const REGISTRATION_FAILED: string := "Registration failed"

  datatype RegisterCandidateRequest = RegisterCandidateRequest(
    name: string, last_name: string, email: string, password: string, resume_url: string, skill_list: seq<string>)

  datatype RegisterEmployerRequest = RegisterEmployerRequest(
    name: string, last_name: string, email: string, password: string, company_id: int)

  datatype RegisteredUser = RegisteredUser(id: int, name: string, last_name: string, email: string, user_type: string)

  datatype RegisterResponse = RegisterResponse(code: JsonCode, description: Option<string>, user: Option<RegisteredUser>)

  /** What both operations make of the reply: the whole result when its code is the number 200. */
  function ClassifyRegistration(reply: Reply<RegisterResponse>): (r: Result<RegisterResponse, Thrown>)
    ensures r.Ok? <==> reply.Json? && reply.body.code == Int(200)
    ensures r.Ok? ==> r.value == reply.body
    ensures reply.NotOk? ==> r == Err(Error(REGISTRATION_FAILED))
    ensures reply.Json? && reply.body.code != Int(200) ==>
              r == Err(Error(OrElse(reply.body.description, REGISTRATION_FAILED)))
    ensures reply.FetchFailed? || reply.BadJson? ==> r == Err(reply.cause)
  {
    match reply
    case FetchFailed(e) => Err(e)
    case NotOk(_) => Err(Error(REGISTRATION_FAILED))
    case BadJson(e) => Err(e)
    case Json(result) =>
      if result.code != Int(200) then Err(Error(OrElse(result.description, REGISTRATION_FAILED)))
      else Ok(result)
  }

  /** Unlike login, a 200 reply is accepted with or without a user. */
  lemma UserNotRequired(description: Option<string>)
    ensures ClassifyRegistration(Json(RegisterResponse(Int(200), description, None))).Ok?
  {
  }

  /** The token step and the POST that follows it, for one path. */
  method Register<B>(store: LocalStorage, now: int, parseDate: string -> Date,
                     tokenReply: Reply<TokenService.TokenResponse>, url: string, data: B, reply: Reply<RegisterResponse>)
    returns (sent: Option<Request<B>>, result: Result<RegisterResponse, Thrown>)
    modifies store
    ensures var step := TokenService.NextToken(old(store.items), now, parseDate, tokenReply);
      && store.items == step.items
      && (step.result.Err? ==> sent.None? && result == Err(step.result.error))
      && (step.result.Ok? ==> sent == Some(Request(url, step.result.value, data)) && result == ClassifyRegistration(reply))
  {
    var token, fetched := TokenService.GetToken(store, now, parseDate, tokenReply);
    if token.Err? {
      return None, Err(token.error);
    }
    sent := Some(Request(url, token.value, data));
    result := ClassifyRegistration(reply);
  }

  /** `registerCandidate(data)`. */
  method RegisterCandidate(store: LocalStorage, now: int, parseDate: string -> Date,
                           tokenReply: Reply<TokenService.TokenResponse>, baseUrl: string,
                           data: RegisterCandidateRequest, reply: Reply<RegisterResponse>)
    returns (sent: Option<Request<RegisterCandidateRequest>>, result: Result<RegisterResponse, Thrown>)
    modifies store
    ensures var step := TokenService.NextToken(old(store.items), now, parseDate, tokenReply);
      && store.items == step.items
      && (step.result.Err? ==> sent.None? && result == Err(step.result.error))
      && (step.result.Ok? ==>
            sent == Some(Request(baseUrl + "/registerCandidateUser", step.result.value, data))
            && result == ClassifyRegistration(reply))
  {
    sent, result := Register(store, now, parseDate, tokenReply, baseUrl + "/registerCandidateUser", data, reply);
  }

  /** `registerEmployer(data)`. */
  method RegisterEmployer(store: LocalStorage, now: int, parseDate: string -> Date,
                          tokenReply: Reply<TokenService.TokenResponse>, baseUrl: string,
                          data: RegisterEmployerRequest, reply: Reply<RegisterResponse>)
    returns (sent: Option<Request<RegisterEmployerRequest>>, result: Result<RegisterResponse, Thrown>)
    modifies store
    ensures var step := TokenService.NextToken(old(store.items), now, parseDate, tokenReply);
      && store.items == step.items
      && (step.result.Err? ==> sent.None? && result == Err(step.result.error))
      && (step.result.Ok? ==>
            sent == Some(Request(baseUrl + "/registerEmployerUser", step.result.value, data))
            && result == ClassifyRegistration(reply))
  {
    sent, result := Register(store, now, parseDate, tokenReply, baseUrl + "/registerEmployerUser", data, reply);
  }
}
