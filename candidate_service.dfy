/**
 * The candidate registration service of the error-handler revision: the
 * same guards as the hard-coded revision, here outside the `try`, then the
 * REGISTER_CANDIDATE table; success carries no value.
 */
module CandidateService {
  import opened Wrappers
  import opened Js
  import opened Http
  import opened ErrorCodes
  import opened ErrorHandler
  import opened ApiTypes
  import opened Guards
  import CandidatoService

  const REGISTER_CANDIDATE_ENDPOINT: string := "/portalEmpleos/v1/registerCandidateUser"

  /** What `registerCandidate` makes of the outcome of `apiService.post`: nothing on "0200", otherwise an `Error`. */
  function Classify(posted: Result<Envelope, Thrown>): (r: Result<(), Thrown>)
    ensures r.Ok? <==> posted.Ok? && IsSuccess(posted.value.code)
    ensures r.Err? ==> r.error.Error?
    ensures posted.Ok? && r.Err? ==>
              r.error == HandleApiError(ApiResponse(posted.value.code, posted.value.description), REGISTER_CANDIDATE)
    ensures posted.Err? && posted.error.Error? ==> r == Err(posted.error)
  {
    match posted
    case Err(e) => Err(WrapConnectionError(e))
    case Ok(response) =>
      if IsSuccess(response.code) then Ok(())
      else Err(WrapConnectionError(HandleApiError(ApiResponse(response.code, response.description), REGISTER_CANDIDATE)))
  }

  /** `registerCandidate(data)`. */
  function RegisterCandidate(data: RegisterCandidateRequest, posted: Result<Envelope, Thrown>)
    : (run: Run<RegisterCandidateRequest, ()>)
    ensures run.call.Some? <==>
      |data.name| <= 20 && |data.last_name| <= 20 && |data.email| <= 60 && |data.password| <= 30 && |data.resume_url| <= 100
    ensures run.call.None? ==>
      exists i :: FirstFailing(CandidateLimits(data.name, data.last_name, data.email, data.password, data.resume_url), i)
               && run == Rejected(CandidateLimits(data.name, data.last_name, data.email, data.password, data.resume_url)[i].message)
    ensures run.call.Some? ==> run.call.value == Call(REGISTER_CANDIDATE_ENDPOINT, data) && run.result == Classify(posted)
  {
    var checks := CandidateLimits(data.name, data.last_name, data.email, data.password, data.resume_url);
    match FirstViolation(checks)
    case Some(message) => Rejected(message)
    case None =>
      assert Within(checks[0]) && Within(checks[1]) && Within(checks[2]) && Within(checks[3]) && Within(checks[4]);
      Run(Some(Call(REGISTER_CANDIDATE_ENDPOINT, data)), Classify(posted))
  }

  /** The two candidate revisions refuse exactly the same inputs, with the same message, before any request. */
  lemma SameGuardsAsCandidato(data: RegisterCandidateRequest, posted: Result<Envelope, Thrown>,
                              other: Result<Envelope, Thrown>)
    ensures RegisterCandidate(data, posted).call.None? <==> CandidatoService.RegisterCandidate(data, other).call.None?
    ensures RegisterCandidate(data, posted).call.None? ==>
              RegisterCandidate(data, posted).result.error == CandidatoService.RegisterCandidate(data, other).result.error
  {
    var checks := CandidateLimits(data.name, data.last_name, data.email, data.password, data.resume_url);
    if RegisterCandidate(data, posted).call.None? {
      var i :| FirstFailing(checks, i) && RegisterCandidate(data, posted) == Rejected(checks[i].message);
      var j :| FirstFailing(checks, j) && CandidatoService.RegisterCandidate(data, other) == Rejected(checks[j].message);
      FirstFailingUnique(checks, i, j);
    }
  }

  /** "0411" gives the table's length message; "0404", which the table lacks, gives the description or the default. */
  lemma CandidateCodes(description: Option<string>)
    ensures Classify(Ok(Envelope(INCORRECT_DATA_LENGTH, description))) == Err(Error("Longitud de datos incorrecta"))
    ensures Classify(Ok(Envelope(NOT_FOUND, description))) == Err(Error(OrElse(description, MSG_DEFAULT)))
  {
  }
}
