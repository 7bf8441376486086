/**
 * The request and reply records the error-handler revision of the services
 * exchanges with the backend, as the JSON objects they are.
 */
module ApiTypes {
  import opened Wrappers
  import opened Js

  /** `UserData`: `role` is typed `'employer' | 'candidate'` but arrives as any string. */
  datatype UserData = UserData(first_name: string, last_name: string, role: string, user_id: int)

  datatype LoginRequest = LoginRequest(email: string, password: string)

  /** A login reply envelope. */
  datatype LoginResponse = LoginResponse(code: string, description: Option<string>, data: UserData)

  /** `RegisterCandidateRequest`: `skill_list` holds the ids as `parseInt` produced them. */
  datatype RegisterCandidateRequest = RegisterCandidateRequest(
    name: string, last_name: string, email: string, password: string, resume_url: string, skill_list: seq<Number>)

  /** `RegisterEmployerRequest`: `company_id` as `parseInt` produced it. */
  datatype RegisterEmployerRequest = RegisterEmployerRequest(
    name: string, last_name: string, email: string, password: string, company_id: Number)

  /** The `{ code, description }` envelope of the registration replies. */
  datatype Envelope = Envelope(code: string, description: Option<string>)

  datatype Skill = Skill(skill_id: int, skill_name: string)

  datatype GetSkillsResponse = GetSkillsResponse(code: string, description: Option<string>, data: seq<Skill>)

  datatype Job = Job(company_id: int, company_name: string, job_description: string, job_title: string,
                     location: string, requirements: string, salary: string)

  datatype GetAvailableJobsResponse = GetAvailableJobsResponse(code: string, data: seq<Job>, description: Option<string>)

  /** The empty JSON object `{}` posted by the list endpoints. */
  datatype EmptyBody = EmptyBody
}
