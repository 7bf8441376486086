/** The available-jobs service: an empty POST, a code check and a description fallback. */
module JobService {
  import opened Wrappers
  import opened Js
  import opened Http
  import opened ApiTypes

  /** The path this service posts to, as written in it (not the configured endpoint). */
  const AVAILABLE_JOBS_PATH: string := "/v1/getAvailableJobs"
  const JOBS_FAILED: string := "Error al obtener trabajos"

  /** `getAvailableJobs()`; `posted` is how `apiService.post` settles. */
  function GetAvailableJobs(posted: Result<GetAvailableJobsResponse, Thrown>)
    : (run: Run<EmptyBody, GetAvailableJobsResponse>)
    ensures run.call == Some(Call(AVAILABLE_JOBS_PATH, EmptyBody))
    ensures run.result.Ok? <==> posted.Ok? && posted.value.code == "0200"
    ensures run.result.Ok? ==> run.result.value == posted.value
    ensures posted.Ok? && run.result.Err? ==> run.result == Err(Error(OrElse(posted.value.description, JOBS_FAILED)))
    ensures posted.Err? ==> run.result == Err(posted.error)
  {
    var result := match posted
      case Err(e) => Err(e)
      case Ok(response) =>
        if response.code != "0200" then Err(Error(OrElse(response.description, JOBS_FAILED)))
        else Ok(response);
    Run(Some(Call(AVAILABLE_JOBS_PATH, EmptyBody)), result)
  }

  /** The path differs from `API_CONFIG.ENDPOINTS.GET_AVAILABLE_JOBS`. */
  lemma PathIsNotConfiguredEndpoint()
    ensures AVAILABLE_JOBS_PATH != "/portalEmpleos/v1/getAvailableJobs"
  {
    assert |AVAILABLE_JOBS_PATH| != |"/portalEmpleos/v1/getAvailableJobs"|;
  }
}
