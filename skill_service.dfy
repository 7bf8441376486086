/** The skills list service: an empty POST, then the GET_SKILLS table. */
module SkillService {
  import opened Wrappers
  import opened Js
  import opened Http
  import opened ErrorCodes
  import opened ErrorHandler
  import opened ApiTypes

  /** `API_CONFIG.ENDPOINTS.GET_SKILLS_LIST`. */
  const GET_SKILLS_LIST_ENDPOINT: string := "/portalEmpleos/v1/getSkillsList"

  /** `getSkillsList()`; `posted` is how `apiService.post` settles. */
  function GetSkillsList(posted: Result<GetSkillsResponse, Thrown>): (run: Run<EmptyBody, GetSkillsResponse>)
    ensures run.call == Some(Call(GET_SKILLS_LIST_ENDPOINT, EmptyBody))
    ensures run.result.Ok? <==> posted.Ok? && IsSuccess(posted.value.code)
    ensures run.result.Ok? ==> run.result.value == posted.value
    ensures run.result.Err? ==> run.result.error.Error?
    ensures posted.Ok? && run.result.Err? ==>
              run.result.error == HandleApiError(ApiResponse(posted.value.code, posted.value.description), GET_SKILLS)
    ensures posted.Err? && posted.error.Error? ==> run.result == Err(posted.error)
  {
    var result := match posted
      case Err(e) => Err(WrapConnectionError(e))
      case Ok(response) =>
        if IsSuccess(response.code) then Ok(response)
        else Err(WrapConnectionError(HandleApiError(ApiResponse(response.code, response.description), GET_SKILLS)));
    Run(Some(Call(GET_SKILLS_LIST_ENDPOINT, EmptyBody)), result)
  }

  /** "0400" gives the common bad-request message; "0404", absent from the table, the description or the default. */
  lemma SkillCodes(description: Option<string>, data: seq<Skill>)
    ensures GetSkillsList(Ok(GetSkillsResponse(BAD_REQUEST, description, data))).result
            == Err(Error(COMMON_ERROR_MESSAGES[BAD_REQUEST]))
    ensures GetSkillsList(Ok(GetSkillsResponse(NOT_FOUND, description, data))).result
            == Err(Error(OrElse(description, MSG_DEFAULT)))
  {
  }
}
