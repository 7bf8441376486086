# Portal de empleos — a verified model of the client's decision logic

Portal de empleos is a job board. Candidates register with a CV link and a set
of skills. Recruiters register under a company. Both sign in and then browse,
filter and page through job offers. Its React client holds the logic modelled
here:

- the table of backend codes and the messages each endpoint maps them to, and
  the error handler that resolves a reply into a message;
- two token caches: an in-memory one in the API client and a `localStorage` one
  in the token service;
- the domain services (login, candidate registration in two revisions, employer
  registration, skills, jobs, and a second registration service). Each checks
  field lengths before any request and then classifies the reply;
- two session stores: one throws on a malformed stored user, the other reads it
  as "no user";
- the candidate home page: filter toggling, a conjunctive filter that keeps
  order, case-insensitive search, sorted duplicate-free suggestion lists, and
  pagination in pages of 8. There is also a second home screen, its filter
  panel and its search section;
- the keyboard navigation of the area search box;
- the registration forms and login forms: the checks run on submit, the
  password sanitiser, skill selection, encryption fallbacks, role routing and
  "remember me".

Each source file is one Dafny module; the revisions of the same service stay
apart and are not unified. Everything stateless is a function with lemmas; every
component or service that changes state is a class with `modifies`. The network
is an input to the model:

- `Reply` is what `fetch` settles to: the fetch failed, a non-2xx status, a body
  that is not JSON, or the parsed body.
- `Result<_, Thrown>` is how `apiService.post` settles.

A service's result is a `Run`: the request it sent, if any, together with the
value it returns or the error it throws. Its `call` is `None` exactly when the
service threw before reaching the network, which plays the part of a counter
of network calls made. The two `GetToken` methods also return a ghost
`fetched` flag saying whether they asked the token endpoint. Browser storage
is a `LocalStorage` object whose `items` map the methods update.

These are inputs to the model rather than part of it:

- the clock, as an `int` `now`;
- `new Date(s)`, as an abstract `parseDate` whose invalid dates compare false;
- `JSON.stringify`/`JSON.parse`, as an abstract `Codec` (the lemmas assume it is
  lawful);
- the URL parser, as a `validUrl` predicate;
- JSEncrypt, as an `encrypt` outcome (a ciphertext, `false`, or a throw).

Three things the model proves about the code as it is written:

- **Encrypted passwords are refused.** Both registration pages encrypt the
  password before handing it to a service that refuses passwords longer than 30
  characters. So whenever a public key is configured and the ciphertext is
  longer than 30 characters (as an RSA ciphertext in base64 always is), the
  registration never reaches the network. `EncryptedPasswordIsRefused` proves
  this for both pages; `PlainPasswordReachesService` proves that without a key
  the same form does reach it.
- **The login screen does nothing visible once login succeeds.** The
  `screens/Login.tsx` revision reads `response.data` from the value
  `auth.service.login` resolves to. That value is the user record, which has
  no `data` field. See Findings.
- **Typing in a search box keeps a stale page.** On the candidate home page,
  typing in the area or location search box does not go back to page 1. This
  can leave the page showing nothing. See Findings.

## Model

| member | source | states |
|---|---|---|
| `ErrorCodes.CodesDistinct` | frontend/src/constants/error-codes.ts:1-9 | the seven backend codes are pairwise distinct and the success code is "0200" |
| `ErrorCodes.TablesCoverCommonCodes` | frontend/src/constants/error-codes.ts:30-66 | every endpoint table maps success, bad request and internal error |
| `ErrorCodes.TablesReuseCommonMessages` | frontend/src/constants/error-codes.ts:13-18 | each table's bad-request and internal-error message is the common message of that code |
| `ErrorCodes.NotFoundDependsOnEndpoint` | frontend/src/constants/error-codes.ts:34-47 | code 0404 means wrong credentials for LOGIN but an unknown company for REGISTER_EMPLOYER |
| `ErrorCodes.CandidateTableShape` | frontend/src/constants/error-codes.ts:37-43 | REGISTER_CANDIDATE maps 0410 and 0411 but not 0404, and it is the only table that maps 0411 |
| `ErrorCodes.ConnectionErrorIsUnmapped` | frontend/src/constants/error-codes.ts:8-16 | no table maps 0600; the connection message is kept under the string key "CONNECTION_ERROR" |
| `ErrorCodes.TableMessagesNonEmpty` | frontend/src/constants/error-codes.ts:30-66 | no mapped message is empty, so a mapped code always wins the `\|\|` chain |
| `ErrorHandler.HandleApiError` | frontend/src/services/error-handler.service.ts:15-25 | always throws a non-empty `Error`: the endpoint's message for a mapped code, else the server description when present, else the default message |
| `ErrorHandler.WrapConnectionError` | frontend/src/services/error-handler.service.ts:31-37 | always throws: an `Error` unchanged, any other value as the connection message |
| `ErrorHandler.IsSuccessExactlySuccess` | frontend/src/services/error-handler.service.ts:27-29 | `isSuccess` holds of "0200" and of no other code |
| `ErrorHandler.WrapIdempotent` | frontend/src/services/error-handler.service.ts:31-37 | wrapping twice is wrapping once, so a resolved message survives nested catches |
| `ErrorHandler.HandledPassesWrap` | frontend/src/services/error-handler.service.ts:15-37 | a message the handler resolved passes through the connection wrapper unchanged |
| `Api.FreshTokenReused` | frontend/src/services/api.service.ts:9-11 | a cached non-empty token whose expiration lies ahead is returned with no fetch and no change to the cache |
| `Api.StaticTokenShortCircuits` | frontend/src/services/api.service.ts:13-16 | with a static token configured, it is returned, nothing is fetched and the expiration stays unset |
| `Api.FailedFetchKeepsCache` | frontend/src/services/api.service.ts:26-34 | a non-2xx reply or a non-"0200" code throws (the description or the token message) and leaves both cache fields unchanged |
| `Api.SuccessfulFetchIsCached` | frontend/src/services/api.service.ts:36-39 | a successful fetch caches the token and its expiration and returns exactly that token, which the next call before expiry reuses without fetching |
| `Api.PostResult` | frontend/src/services/api.service.ts:58-62 | a non-2xx status throws a message carrying the status; a 2xx body is returned verbatim; transport and parse errors propagate |
| `Api.HttpErrorCarriesStatus` | frontend/src/services/api.service.ts:58-60 | the status can be read back from the thrown message |
| `Api.ApiService.constructor` | frontend/src/services/api.service.ts:4-6 | both cache fields start null |
| `Api.ApiService.GetToken` | frontend/src/services/api.service.ts:8-44 | the outcome, the new cache fields and whether it fetched are those of the reference step `NextToken` |
| `Api.ApiService.Post` | frontend/src/services/api.service.ts:46-63 | obtains a token first and sends the request only if that succeeded, with the token as `x-access-token`; the result is the reply's classification |
| `TokenService.StoredTokenReused` | frontend/src/services/token-service.ts:11-16 | a stored token that has not expired is returned with no request and no write |
| `TokenService.UnusableTokenFetches` | frontend/src/services/token-service.ts:14-19 | without a usable stored token every call asks the token endpoint |
| `TokenService.ExpirationBoundary` | frontend/src/services/token-service.ts:53-64 | a missing expiration counts as expired, and a token is already expired at its expiration instant |
| `TokenService.UnparsableExpirationNeverExpires` | frontend/src/services/token-service.ts:60-63 | a non-empty expiration that is not a date never expires |
| `TokenService.FailedFetchWritesNothing` | frontend/src/services/token-service.ts:33-35 | a non-2xx fetch throws "Failed to get token" and writes nothing |
| `TokenService.FetchedTokenReused` | frontend/src/services/token-service.ts:37-41 | any 2xx body is stored under the two keys whatever its code, its token is returned, and the next call before expiry reuses it |
| `TokenService.ClearForcesFetch` | frontend/src/services/token-service.ts:66-69 | after clearing, the next `getToken` must fetch, and no other key was touched |
| `TokenService.StoreToken` | frontend/src/services/token-service.ts:48-51 | the storage gains the token and its expiration under their two keys and nothing else changes |
| `TokenService.IsTokenExpired` | frontend/src/services/token-service.ts:53-64 | answers whether the stored expiration is missing or not ahead of `now`, and changes nothing |
| `TokenService.FetchNewToken` | frontend/src/services/token-service.ts:22-42 | its outcome and the storage afterwards are those of the reference step `Fetch` |
| `TokenService.GetToken` | frontend/src/services/token-service.ts:11-20 | the outcome, the storage afterwards and whether it fetched are those of the reference step `NextToken` |
| `TokenService.ClearToken` | frontend/src/services/token-service.ts:66-69 | exactly the two token keys are removed |
| `AuthService.ClassifyLogin` | frontend/src/services/auth.service.ts:27-35 | success exactly for "0200", with `response.data` unchanged; any other outcome is a non-empty `Error` |
| `AuthService.Login` | frontend/src/services/auth.service.ts:10-35 | reaches the network exactly when the email fits in 50 and the password in 30 characters; the email check comes first |
| `AuthService.LoginNotFound` | frontend/src/services/auth.service.ts:27-35 | a "0404" reply is reported as wrong credentials, whatever the description |
| `AuthService.LoginUnmappedCode` | frontend/src/services/auth.service.ts:27-35 | a code the LOGIN table lacks reports the server's description |
| `AuthService.SaveThenGet` | frontend/src/services/auth.service.ts:38-45 | saving a user and reading it back gives that user |
| `AuthService.LogoutThenGet` | frontend/src/services/auth.service.ts:42-49 | after logout, or with nothing stored, there is no user |
| `AuthService.MalformedUserThrows` | frontend/src/services/auth.service.ts:42-45 | a malformed stored user makes `getUser` throw rather than answer null |
| `AuthService.SaveUser` | frontend/src/services/auth.service.ts:38-40 | only the user key changes, to the serialised user |
| `AuthService.GetUser` | frontend/src/services/auth.service.ts:42-45 | reads the stored user as `StoredUser` does and changes nothing |
| `AuthService.Logout` | frontend/src/services/auth.service.ts:47-49 | only the user key is removed |
| `AuthService.IsAuthenticated` | frontend/src/services/auth.service.ts:51-53 | true exactly when a user is stored; a parse error propagates |
| `NumericAuthService.ClassifyLoginReply` | frontend/src/services/auth-service.ts:40-50 | accepted exactly with the number 200 and a user, returning the whole reply; a non-2xx status throws "Login failed"; otherwise the description or "Login failed" |
| `NumericAuthService.StringCodeRejected` | frontend/src/services/auth-service.ts:46-48 | a string code, even "200", is never accepted |
| `NumericAuthService.SaveThenCurrent` | frontend/src/services/auth-service.ts:58-72 | saving a user and reading the current user gives it back |
| `NumericAuthService.MalformedIsNoUser` | frontend/src/services/auth-service.ts:64-75 | a malformed stored user reads as no user instead of throwing |
| `NumericAuthService.LogoutForgetsAll` | frontend/src/services/auth-service.ts:53-56 | after logout there is no current user and the next token request must fetch |
| `NumericAuthService.Login` | frontend/src/services/auth-service.ts:25-51 | the token step comes first and the `/login` request is sent only with its token; the result is the reply's classification |
| `NumericAuthService.Logout` | frontend/src/services/auth-service.ts:53-56 | both token keys and the current user are removed, nothing else |
| `NumericAuthService.SaveUser` | frontend/src/services/auth-service.ts:58-62 | an absent user writes nothing; a present one is stored under `current_user` |
| `NumericAuthService.GetCurrentUser` | frontend/src/services/auth-service.ts:64-75 | never throws: the parsed user, or none when the key is absent or the JSON is malformed |
| `CandidatoService.Rethrow` | frontend/src/services/candidato.service.ts:45-50 | the catch rethrows an `Error` unchanged and turns anything else into the connection message |
| `CandidatoService.Classify` | frontend/src/services/candidato.service.ts:29-44 | "0200" returns the reply; 0400, 0410, 0411 and 0500 their fixed messages; any other code the description or "Error al registrar usuario" |
| `CandidatoService.RegisterCandidate` | frontend/src/services/candidato.service.ts:6-51 | the request goes out exactly when name, last name ≤20, email ≤60, password ≤30 and résumé URL ≤100; otherwise the first failing limit's message is thrown |
| `CandidatoService.NameLimitBoundary` | frontend/src/services/candidato.service.ts:8-10 | a 21-character name is refused with the name message, a 20-character one is not |
| `CandidatoService.SwitchMessagesDifferFromCommon` | frontend/src/services/candidato.service.ts:33-44 | the hard-coded messages differ from the common table's wording |
| `CandidateService.Classify` | frontend/src/services/candidate.service.ts:28-42 | success (with no value) exactly for "0200"; any other reply or transport error throws an `Error`, the REGISTER_CANDIDATE message for a code |
| `CandidateService.RegisterCandidate` | frontend/src/services/candidate.service.ts:8-43 | the same five limits, all checked before any request; the first failing one is reported |
| `CandidateService.SameGuardsAsCandidato` | frontend/src/services/candidate.service.ts:12-26 | both candidate revisions refuse exactly the same inputs with the same message |
| `CandidateService.CandidateCodes` | frontend/src/services/candidate.service.ts:34-38 | 0411 gives the table's length message; 0404, absent from the table, the description or the default |
| `EmployerService.Classify` | frontend/src/services/employer.service.ts:23-36 | "0200" returns the reply; otherwise the REGISTER_EMPLOYER resolution, which passes the catch unchanged |
| `EmployerService.RegisterEmployer` | frontend/src/services/employer.service.ts:7-37 | the request goes out exactly when name, last name ≤20, email ≤60 and password ≤30; otherwise the first failing limit's message |
| `EmployerService.CompanyIdNotChecked` | frontend/src/services/employer.service.ts:10-21 | the guards never look at `company_id` |
| `EmployerService.EmployerCodes` | frontend/src/services/employer.service.ts:29-33 | 0404 throws "Empresa no encontrada" and 0410 "El usuario ya está registrado" |
| `SkillService.GetSkillsList` | frontend/src/services/skill.service.ts:7-23 | posts an empty body to the skills endpoint; "0200" returns the reply; other codes the GET_SKILLS resolution; errors pass unchanged |
| `SkillService.SkillCodes` | frontend/src/services/skill.service.ts:14-18 | 0400 gives the common bad-request message; 0404 the description or the default |
| `JobService.GetAvailableJobs` | frontend/src/services/job.service.ts:5-21 | "0200" returns the reply; another code throws its description or "Error al obtener trabajos"; caught errors are rethrown unchanged |
| `JobService.PathIsNotConfiguredEndpoint` | frontend/src/services/job.service.ts:7-10 | the service posts to its own literal path, not the configured endpoint |
| `RegistrationService.ClassifyRegistration` | frontend/src/services/registration-service.ts:46-56 | success exactly for the number 200, returning the result; a non-2xx status throws "Registration failed"; another code the description or that message |
| `RegistrationService.UserNotRequired` | frontend/src/services/registration-service.ts:52-56 | a 200 reply is accepted with or without a user |
| `RegistrationService.Register` | frontend/src/services/registration-service.ts:34-57 | a token comes first and the POST is sent only with it; the storage ends as the token step leaves it |
| `RegistrationService.RegisterCandidate` | frontend/src/services/registration-service.ts:34-57 | posts to `/registerCandidateUser` with the token, then classifies the reply |
| `RegistrationService.RegisterEmployer` | frontend/src/services/registration-service.ts:59-82 | the identical chain for `/registerEmployerUser` |
| `Guards.FirstViolation` | frontend/src/services/candidato.service.ts:8-22 | none exactly when every limit holds; otherwise the message of the first failing check |
| `Guards.FirstFailingUnique` | frontend/src/services/candidato.service.ts:8-22 | at most one check is the first failing one, so the reported message is determined |
| `Guards.ReportsFirstFailing` | frontend/src/services/employer.service.ts:10-21 | the first failing check is the one reported |
| `Filters.Toggle` | frontend/src/pages/home-candidato.tsx:150-157 | an absent value is appended; a present one is removed everywhere and the rest kept in order |
| `Filters.ToggleTwiceAbsent` | frontend/src/pages/home-candidato.tsx:150-162 | toggling an unselected value twice gives back the same list |
| `Filters.ToggleTwiceSameSet` | frontend/src/pages/home-candidato.tsx:150-162 | toggling any value twice gives back the same set of values |
| `Filters.ToggleTwiceReorders` | frontend/src/pages/home-candidato.tsx:154-156 | a selected value toggled twice comes back at the end, so order is not restored |
| `Filters.ToggleKeepsNoDup` | frontend/src/screens/HomeCandidato/HomeCandidato.tsx:32-34 | a duplicate-free list stays duplicate-free |
| `Filters.Filter` | frontend/src/pages/home-candidato.tsx:206-228 | the result holds exactly the passing values, in their order, and keeps a list duplicate-free |
| `Filters.FilterMultiset` | frontend/src/pages/home-candidato.tsx:206-228 | `filter` keeps every copy of a passing element and no copy of a failing one |
| `Filters.VisibleOptions` | frontend/src/pages/home-candidato.tsx:188-191 | an expanded section shows all options, a collapsed one a prefix of `limit` of them |
| `Filters.HiddenIffMoreThanLimit` | frontend/src/pages/home-candidato.tsx:580 | a collapsed section hides something exactly when it has more options than the limit |
| `Filters.ToggleSection` | frontend/src/pages/home-candidato.tsx:143-148 | only the given title flips; a missing title reads as collapsed |
| `Filters.ToggleSectionTwice` | frontend/src/pages/home-candidato.tsx:143-148 | toggling a known section twice restores the record |
| `Suggestions.Dedupe` | frontend/src/pages/home-candidato.tsx:61 | each value once, with the same values |
| `Suggestions.Sort` | frontend/src/pages/home-candidato.tsx:62 | a sorted permutation |
| `Suggestions.UniqueSorted` | frontend/src/pages/home-candidato.tsx:60-63 | a sorted duplicate-free list of exactly the given values |
| `Suggestions.SortedUnique` | frontend/src/pages/home-candidato.tsx:60-78 | a sorted duplicate-free list is fixed by its values, so suggestions depend only on the set of jobs' values |
| `Suggestions.Matching` | frontend/src/screens/HomeCandidato/sections/JobOffersSection/JobOffers.tsx:46-52 | the suggestions containing the input ignoring case, in their order |
| `Suggestions.MatchingEmptyInput` | frontend/src/screens/HomeCandidato/sections/JobOffersSection/JobOffers.tsx:46-52 | an empty input keeps every suggestion |
| `HomeCandidatoPage.KeyIsLoweredTitle` | frontend/src/pages/home-candidato.tsx:152 | lower-casing each section title gives its filter key |
| `HomeCandidatoPage.ChangeFilter` | frontend/src/pages/home-candidato.tsx:150-162 | the chosen section is toggled and every other section is unchanged |
| `HomeCandidatoPage.ChangeFilterTwice` | frontend/src/pages/home-candidato.tsx:150-162 | choosing an unselected value twice restores all the filters |
| `HomeCandidatoPage.FilteredJobs` | frontend/src/pages/home-candidato.tsx:206-228 | an order-preserving sublist of the jobs that keeps every copy of each matching job and nothing else |
| `HomeCandidatoPage.NothingSelectedShowsAll` | frontend/src/pages/home-candidato.tsx:206-228 | with nothing selected or typed every job is shown |
| `HomeCandidatoPage.MatchIgnoresCase` | frontend/src/pages/home-candidato.tsx:219-225 | lower-casing the typed text does not change whether a job matches |
| `HomeCandidatoPage.SearchIgnoresCase` | frontend/src/pages/home-candidato.tsx:219-225 | the filtered jobs are the same for the typed text and its lower-case form |
| `HomeCandidatoPage.Column` | frontend/src/pages/home-candidato.tsx:61 | `jobs.map(f)`, position by position |
| `HomeCandidatoPage.ColumnMembers` | frontend/src/pages/home-candidato.tsx:61-71 | a column holds exactly the values some job has |
| `HomeCandidatoPage.TitleSuggestions` | frontend/src/pages/home-candidato.tsx:60-78 | sorted, duplicate-free, and exactly the job titles; it also serves as the job-title suggestions |
| `HomeCandidatoPage.LocationSuggestions` | frontend/src/pages/home-candidato.tsx:65-68 | sorted, duplicate-free, and exactly the jobs' locations |
| `HomeCandidatoPage.CompanySuggestions` | frontend/src/pages/home-candidato.tsx:70-73 | sorted, duplicate-free, and exactly the jobs' companies |
| `HomeCandidatoPage.TotalPages` | frontend/src/pages/home-candidato.tsx:230 | the least page count whose pages of 8 hold every job |
| `HomeCandidatoPage.PageOf` | frontend/src/pages/home-candidato.tsx:231-233 | page p holds jobs (p-1)·8 up to p·8 and at most 8 of them, and is empty past the end |
| `HomeCandidatoPage.PagesUpToPrefix` | frontend/src/pages/home-candidato.tsx:230-233 | the first k pages are the first 8k jobs |
| `HomeCandidatoPage.PagesConcatenate` | frontend/src/pages/home-candidato.tsx:230-233 | all the pages, concatenated, are exactly the filtered jobs |
| `HomeCandidatoPage.PagesInRangeNonEmpty` | frontend/src/pages/home-candidato.tsx:230-233 | every page from 1 to the last shows some job |
| `HomeCandidatoPage.RenderPagination` | frontend/src/pages/home-candidato.tsx:257-303 | nothing for at most one page; otherwise buttons 1 to totalPages, previous disabled exactly on page 1, next exactly on the last |
| `HomeCandidatoPage.ClickKeepsPageInRange` | frontend/src/pages/home-candidato.tsx:264-300 | from a page in range, every enabled button leads to a page in range |
| `HomeCandidatoPage.PageInRangeShowsJobs` | frontend/src/pages/home-candidato.tsx:230-233 | a page in range shows some job whenever some job matches |
| `HomeCandidatoPage.TypingKeepsStalePage` | frontend/src/pages/home-candidato.tsx:419-422 | page 2 is in range before typing "b" in the example, but only one page exists afterwards and page 2 is empty |
| `HomeCandidatoPage.StaleExampleFilter` | frontend/src/pages/home-candidato.tsx:206-228 | in the example, typing "b" leaves exactly the one job titled "b" |
| `HomeCandidatoPage.StaleExampleMatches` | frontend/src/pages/home-candidato.tsx:219-222 | a job titled "a" does not match "b" and one titled "b" does |
| `HomeCandidatoPage.PageInRangeLemma` | frontend/src/pages/home-candidato.tsx:230-233 | the in-range implication in one formula, for any jobs and page |
| `HomeCandidatoPage.HomeCandidato.constructor` | frontend/src/pages/home-candidato.tsx:30-53 | no jobs, loading, every section collapsed, no filters, page 1 |
| `HomeCandidatoPage.HomeCandidato.LoadJobs` | frontend/src/pages/home-candidato.tsx:97-118 | a successful load sets the jobs and clears the error; a failure keeps them and sets "Error al cargar los empleos"; loading ends either way |
| `HomeCandidatoPage.HomeCandidato.ToggleSection` | frontend/src/pages/home-candidato.tsx:143-148 | only that section flips; the shown jobs and page are unchanged |
| `HomeCandidatoPage.HomeCandidato.HandleFilterChange` | frontend/src/pages/home-candidato.tsx:150-164 | the filter is toggled and the page goes back to 1 |
| `HomeCandidatoPage.HomeCandidato.HandleAreaSelect` | frontend/src/pages/home-candidato.tsx:166-170 | the input becomes the suggestion, the list hides and the page goes back to 1 |
| `HomeCandidatoPage.HomeCandidato.HandleLocationSelect` | frontend/src/pages/home-candidato.tsx:172-176 | the same for the location input |
| `HomeCandidatoPage.HomeCandidato.HandleAreaClear` | frontend/src/pages/home-candidato.tsx:178-181 | the area input is emptied and the page goes back to 1 |
| `HomeCandidatoPage.HomeCandidato.HandleLocationClear` | frontend/src/pages/home-candidato.tsx:183-186 | the location input is emptied and the page goes back to 1 |
| `HomeCandidatoPage.HomeCandidato.TypeAreaAsWritten` | frontend/src/pages/home-candidato.tsx:419-422 | typing sets the input and shows the list but leaves the page where it was |
| `HomeCandidatoPage.HomeCandidato.TypeArea` | frontend/src/pages/home-candidato.tsx:419-422 | corrected typing: as written, but back to page 1, which keeps the page in range |
| `HomeCandidatoPage.HomeCandidato.TypeLocationAsWritten` | frontend/src/pages/home-candidato.tsx:459-462 | typing in the location input sets it and shows the list but leaves the page where it was |
| `HomeCandidatoPage.HomeCandidato.TypeLocation` | frontend/src/pages/home-candidato.tsx:459-462 | corrected typing in the location input: back to page 1, which keeps the page in range |
| `HomeCandidatoPage.HomeCandidato.HandlePageChange` | frontend/src/pages/home-candidato.tsx:252-255 | an enabled button's page becomes current and stays in range |
| `HomeCandidatoPage.HomeCandidato.VisibleOptions` | frontend/src/pages/home-candidato.tsx:188-191 | a collapsed section shows its first 3 options, an expanded one all |
| `HomeCandidatoPage.HomeCandidato.FilteredAreaSuggestions` | frontend/src/pages/home-candidato.tsx:198-200 | the title suggestions containing the area input, ignoring case |
| `HomeCandidatoPage.HomeCandidato.FilteredLocationSuggestions` | frontend/src/pages/home-candidato.tsx:202-204 | the location suggestions containing the location input, ignoring case |
| `HomeCandidatoPage.HomeCandidato.PaginatedJobs` | frontend/src/pages/home-candidato.tsx:230-233 | the current page of the filtered jobs (`PageOf`), so at most 8 jobs, and at least one whenever some job matches |
| `HomeCandidatoScreen.KeyIsLoweredTitle` | frontend/src/screens/HomeCandidato/HomeCandidato.tsx:30 | lower-casing each title gives its filter key |
| `HomeCandidatoScreen.ChangeFilter` | frontend/src/screens/HomeCandidato/HomeCandidato.tsx:28-41 | an absent value is appended, a present one removed everywhere; only that category changes |
| `HomeCandidatoScreen.ChangeSearch` | frontend/src/screens/HomeCandidato/HomeCandidato.tsx:43-48 | exactly one search field is set, the other unchanged |
| `HomeCandidatoScreen.ChangeFilterKeepsNoDuplicates` | frontend/src/screens/HomeCandidato/HomeCandidato.tsx:32-34 | duplicate-free filter lists stay duplicate-free |
| `HomeCandidatoScreen.HomeCandidato.constructor` | frontend/src/screens/HomeCandidato/HomeCandidato.tsx:8-26 | all four filter lists and both search fields start empty |
| `HomeCandidatoScreen.HomeCandidato.HandleFilterChange` | frontend/src/screens/HomeCandidato/HomeCandidato.tsx:28-41 | the filters change as `ChangeFilter` says and stay duplicate-free; the search is unchanged |
| `HomeCandidatoScreen.HomeCandidato.HandleSearchFilterChange` | frontend/src/screens/HomeCandidato/HomeCandidato.tsx:43-48 | the search changes as `ChangeSearch` says; the filters are unchanged |
| `JobFiltersSection.FilteredJobs` | frontend/src/screens/HomeCandidato/sections/JobFiltersSection/JobFiltersSection.tsx:120-154 | an order-preserving sublist of the listings that keeps every copy of each matching listing and nothing else |
| `JobFiltersSection.NothingSelectedShowsAll` | frontend/src/screens/HomeCandidato/sections/JobFiltersSection/JobFiltersSection.tsx:121-137 | with nothing selected or typed every listing is shown |
| `JobFiltersSection.ModalityIsCaseSensitive` | frontend/src/screens/HomeCandidato/sections/JobFiltersSection/JobFiltersSection.tsx:130-132 | a selected modality matches as a case-sensitive substring of the listing's modality |
| `JobFiltersSection.RemotoIsAWholeQuery` | frontend/src/screens/HomeCandidato/sections/JobFiltersSection/JobFiltersSection.tsx:139-144 | "remoto" in any case finds remote listings by modality; a part of the word does not |
| `JobFiltersSection.HasActiveFiltersIff` | frontend/src/screens/HomeCandidato/sections/JobFiltersSection/JobFiltersSection.tsx:156-158 | active exactly when one of the four lists is non-empty |
| `JobFiltersSection.ToggleShownIffOptionsHidden` | frontend/src/screens/HomeCandidato/sections/JobFiltersSection/JobFiltersSection.tsx:231 | the expand toggle appears exactly when collapsing hides options |
| `JobFiltersSection.EverySectionShowsToggle` | frontend/src/screens/HomeCandidato/sections/JobFiltersSection/JobFiltersSection.tsx:32-52 | every section of the panel has more than two options |
| `JobFiltersSection.JobFilters.constructor` | frontend/src/screens/HomeCandidato/sections/JobFiltersSection/JobFiltersSection.tsx:96-101 | the four sections start collapsed |
| `JobFiltersSection.JobFilters.ToggleSection` | frontend/src/screens/HomeCandidato/sections/JobFiltersSection/JobFiltersSection.tsx:103-108 | only the given title flips |
| `JobFiltersSection.JobFilters.VisibleOptions` | frontend/src/screens/HomeCandidato/sections/JobFiltersSection/JobFiltersSection.tsx:110-113 | a collapsed section shows its first 2 options, an expanded one all |
| `JobOffersSection.EmptyInputOffersAll` | frontend/src/screens/HomeCandidato/sections/JobOffersSection/JobOffers.tsx:46-52 | an empty input offers every suggestion |
| `JobOffersSection.JobOffers.constructor` | frontend/src/screens/HomeCandidato/sections/JobOffersSection/JobOffers.tsx:36-42 | both inputs empty and both lists hidden |
| `JobOffersSection.JobOffers.FilteredAreaSuggestions` | frontend/src/screens/HomeCandidato/sections/JobOffersSection/JobOffers.tsx:46-48 | the area suggestions containing the input ignoring case, in order |
| `JobOffersSection.JobOffers.FilteredLocationSuggestions` | frontend/src/screens/HomeCandidato/sections/JobOffersSection/JobOffers.tsx:50-52 | the location suggestions containing the input ignoring case, in order |
| `JobOffersSection.JobOffers.HandleAreaSelect` | frontend/src/screens/HomeCandidato/sections/JobOffersSection/JobOffers.tsx:71-75 | the input becomes the value, the same value is reported, the list hides |
| `JobOffersSection.JobOffers.HandleLocationSelect` | frontend/src/screens/HomeCandidato/sections/JobOffersSection/JobOffers.tsx:77-81 | the same for the location input |
| `JobOffersSection.JobOffers.HandleAreaClear` | frontend/src/screens/HomeCandidato/sections/JobOffersSection/JobOffers.tsx:83-86 | the input becomes "" and "" is reported |
| `JobOffersSection.JobOffers.HandleLocationClear` | frontend/src/screens/HomeCandidato/sections/JobOffersSection/JobOffers.tsx:88-91 | the same for the location input |
| `JobOffersSection.JobOffers.TypeArea` | frontend/src/screens/HomeCandidato/sections/JobOffersSection/JobOffers.tsx:111-114 | typing shows the text and the list but reports nothing |
| `JobOffersSection.JobOffers.TypeLocation` | frontend/src/screens/HomeCandidato/sections/JobOffersSection/JobOffers.tsx:151-154 | the same for the location input |
| `SearchInput.FilteredAreas` | frontend/src/components/SearchInput.tsx:20-24 | empty for an empty term, otherwise the areas containing it ignoring case, in order |
| `SearchInput.Down` | frontend/src/components/SearchInput.tsx:45-49 | one further, but never past the last area |
| `SearchInput.Up` | frontend/src/components/SearchInput.tsx:51-53 | one back, with -1 as the floor |
| `SearchInput.ArrowsStayInRange` | frontend/src/components/SearchInput.tsx:45-53 | from an index in range both arrows stay in range |
| `SearchInput.DownTimesStopsAtLast` | frontend/src/components/SearchInput.tsx:45-49 | n presses of ArrowDown from -1 highlight entry min(n, count) - 1 |
| `SearchInput.SearchBox.constructor` | frontend/src/components/SearchInput.tsx:12-16 | empty term, list hidden, nothing highlighted |
| `SearchInput.SearchBox.SelectArea` | frontend/src/components/SearchInput.tsx:68-72 | the term becomes the area, the list hides, nothing is highlighted |
| `SearchInput.SearchBox.HandleKeyDown` | frontend/src/components/SearchInput.tsx:41-66 | no effect when the list is hidden or empty; otherwise the arrows move the highlight, Enter selects the highlighted area and Escape hides; the highlight stays in range |
| `SearchInput.SearchBox.HandleInputChange` | frontend/src/components/SearchInput.tsx:74-78 | typing shows the list with nothing highlighted |
| `SearchInput.SearchBox.Focus` | frontend/src/components/SearchInput.tsx:89 | focusing shows the list and keeps the highlight in range |
| `SearchInput.SearchBox.ClickOutside` | frontend/src/components/SearchInput.tsx:26-39 | a click outside hides the list |
| `FormRules.BlankIffTrimEmpty` | frontend/src/pages/registro-candidato.tsx:160 | the blank test is exactly `trim() === ""` |
| `FormRules.CandidateChecks` | frontend/src/pages/registro-candidato.tsx:158-193 | each flag is exactly its own field's check |
| `FormRules.StripForbidden` | frontend/src/pages/registro-candidato.tsx:121-126 | no forbidden character is left, every other character keeps its number of occurrences and its order, and a clean string is unchanged |
| `FormRules.SanitizePassword` | frontend/src/pages/registro-candidato.tsx:121-133 | exactly the first min(30, length) characters of the stripped text: a prefix of it of that length |
| `FormRules.SanitizeIdempotent` | frontend/src/pages/registro-candidato.tsx:121-133 | sanitising twice is sanitising once |
| `FormRules.SelectSkill` | frontend/src/pages/registro-candidato.tsx:97-99 | an unselected skill is appended, a selected one changes nothing, and the list stays duplicate-free |
| `FormRules.SelectSkillIdempotent` | frontend/src/pages/registro-candidato.tsx:97-99 | selecting the same skill again changes nothing |
| `FormRules.RemoveSkill` | frontend/src/pages/registro-candidato.tsx:101-103 | the skill is gone and every other one kept in order |
| `FormRules.RemoveUndoesSelect` | frontend/src/pages/registro-candidato.tsx:97-103 | removing a skill just selected gives back the list from before |
| `FormRules.AvailableSkills` | frontend/src/pages/registro-candidato.tsx:51-53 | exactly the options whose value is not selected, in order |
| `FormRules.AvailableIsComplement` | frontend/src/pages/registro-candidato.tsx:51-53 | each option is either offered or selected, never both |
| `FormRules.SkillIds` | frontend/src/pages/registro-candidato.tsx:208 | each selected value parsed with `parseInt`, position by position |
| `FormRules.SkillIdsRoundTrip` | frontend/src/pages/registro-candidato.tsx:208 | values written as decimal ids parse back to those ids |
| `FormRules.EncryptWithFallback` | frontend/src/pages/registro-candidato.tsx:135-152 | the plain password without a key or when encryption fails or yields nothing; otherwise the ciphertext |
| `FormRules.EncryptOrEmpty` | frontend/src/screens/RegistroCandidato/RegistroCandidato.tsx:88-92 | a throw propagates; no ciphertext gives "" |
| `FormRules.EmptyRatherThanPlaintext` | frontend/src/screens/RegistroCandidato/RegistroCandidato.tsx:88-92 | where the page falls back to the plain password the screen sends "" |
| `RegistroCandidatoPage.RequestBody` | frontend/src/pages/registro-candidato.tsx:202-209 | trimmed texts, the encrypted password, parsed skill ids |
| `RegistroCandidatoPage.ShownError` | frontend/src/pages/registro-candidato.tsx:214-215 | an `Error`'s message, else "Error al registrar usuario" |
| `RegistroCandidatoPage.PlainPasswordReachesService` | frontend/src/pages/registro-candidato.tsx:195-211 | a form that passes the page's checks, with no key, reaches the network |
| `RegistroCandidatoPage.EncryptedPasswordIsRefused` | frontend/src/pages/registro-candidato.tsx:135-211 | with a key and a ciphertext over 30 characters the service refuses the password and sends nothing |
| `RegistroCandidatoPage.RegistroCandidato.constructor` | frontend/src/pages/registro-candidato.tsx:24-48 | empty fields, no skills and no error flags |
| `RegistroCandidatoPage.RegistroCandidato.Available` | frontend/src/pages/registro-candidato.tsx:51-53 | the options not selected |
| `RegistroCandidatoPage.RegistroCandidato.HandleSkillSelect` | frontend/src/pages/registro-candidato.tsx:97-99 | the selection becomes `SelectSkill` of it and stays duplicate-free |
| `RegistroCandidatoPage.RegistroCandidato.HandleSkillRemove` | frontend/src/pages/registro-candidato.tsx:101-103 | the selection becomes `RemoveSkill` of it |
| `RegistroCandidatoPage.RegistroCandidato.HandleCvLinkChange` | frontend/src/pages/registro-candidato.tsx:114-119 | a blank link clears the CV error; otherwise the error is whether the link is not a URL; other flags unchanged |
| `RegistroCandidatoPage.RegistroCandidato.HandlePasswordChange` | frontend/src/pages/registro-candidato.tsx:121-126 | the password becomes the sanitised input |
| `RegistroCandidatoPage.RegistroCandidato.HandleConfirmPasswordChange` | frontend/src/pages/registro-candidato.tsx:128-133 | the confirmation becomes the sanitised input |
| `RegistroCandidatoPage.RegistroCandidato.Validate` | frontend/src/pages/registro-candidato.tsx:158-193 | every check runs, each sets only its own flag, and `hasError` is whether any failed |
| `RegistroCandidatoPage.RegistroCandidato.HandleSubmit` | frontend/src/pages/registro-candidato.tsx:154-219 | any failed check stops before encryption or a request; otherwise the service's outcome routes to /login or shows its error, and loading ends |
| `RegistroCandidatoScreen.Interpolated` | frontend/src/screens/RegistroCandidato/RegistroCandidato.tsx:137 | a missing description is written "undefined" |
| `RegistroCandidatoScreen.ResultAlert` | frontend/src/screens/RegistroCandidato/RegistroCandidato.tsx:131-141 | no alert when the POST throws; the success alert exactly for "0200"; otherwise "Error: " and the description |
| `RegistroCandidatoScreen.RequestBody` | frontend/src/screens/RegistroCandidato/RegistroCandidato.tsx:112-119 | trimmed texts, the encrypted password, parsed skill ids |
| `RegistroCandidatoScreen.FixedSkillIdsParse` | frontend/src/screens/RegistroCandidato/RegistroCandidato.tsx:39-43 | skills from the dropdown always parse to the ids 1 to 3 |
| `RegistroCandidatoScreen.RegistroCandidato.constructor` | frontend/src/screens/RegistroCandidato/RegistroCandidato.tsx:17-43 | empty fields, the three fixed skills, no selection and no flags |
| `RegistroCandidatoScreen.RegistroCandidato.Available` | frontend/src/screens/RegistroCandidato/RegistroCandidato.tsx:45-47 | the options not selected |
| `RegistroCandidatoScreen.RegistroCandidato.HandleSkillSelect` | frontend/src/screens/RegistroCandidato/RegistroCandidato.tsx:49-51 | the selection becomes `SelectSkill` of it and stays duplicate-free |
| `RegistroCandidatoScreen.RegistroCandidato.HandleSkillRemove` | frontend/src/screens/RegistroCandidato/RegistroCandidato.tsx:53-55 | the selection becomes `RemoveSkill` of it |
| `RegistroCandidatoScreen.RegistroCandidato.HandleCvLinkChange` | frontend/src/screens/RegistroCandidato/RegistroCandidato.tsx:66-71 | a blank link clears the CV error; otherwise the error is whether the link is not a URL |
| `RegistroCandidatoScreen.RegistroCandidato.HandlePasswordChange` | frontend/src/screens/RegistroCandidato/RegistroCandidato.tsx:73-78 | the password becomes the sanitised input |
| `RegistroCandidatoScreen.RegistroCandidato.HandleConfirmPasswordChange` | frontend/src/screens/RegistroCandidato/RegistroCandidato.tsx:80-85 | the confirmation becomes the sanitised input |
| `RegistroCandidatoScreen.RegistroCandidato.Validate` | frontend/src/screens/RegistroCandidato/RegistroCandidato.tsx:97-105 | every check runs, each sets only its own flag, and `hasError` is whether any failed |
| `RegistroCandidatoScreen.RegistroCandidato.HandleSubmit` | frontend/src/screens/RegistroCandidato/RegistroCandidato.tsx:94-142 | blocked exactly when a check fails; a throwing encryption ends with no request; otherwise the fixed-token POST goes out and its outcome picks the alert |
| `RegistroReclutadorPage.RecruiterChecks` | frontend/src/pages/registro-reclutador.tsx:89-117 | each flag is exactly its own field's check, with a blank company flagged |
| `RegistroReclutadorPage.RequestBody` | frontend/src/pages/registro-reclutador.tsx:126-132 | trimmed texts, the encrypted password and `parseInt(companyId)` |
| `RegistroReclutadorPage.ShownError` | frontend/src/pages/registro-reclutador.tsx:137-138 | an `Error`'s message, else "Error al registrar usuario" |
| `RegistroReclutadorPage.CompanyIdsParse` | frontend/src/pages/registro-reclutador.tsx:43-48 | a company from the dropdown is not blank and is sent as a number from 1 to 4 |
| `RegistroReclutadorPage.PlainPasswordReachesService` | frontend/src/pages/registro-reclutador.tsx:119-134 | a form that passes the page's checks, with no key, reaches the network |
| `RegistroReclutadorPage.EncryptedPasswordIsRefused` | frontend/src/pages/registro-reclutador.tsx:64-134 | with a key and a ciphertext over 30 characters the service refuses the password and sends nothing |
| `RegistroReclutadorPage.RegistroReclutador.constructor` | frontend/src/pages/registro-reclutador.tsx:22-48 | empty fields, the four fixed companies and no error flags |
| `RegistroReclutadorPage.RegistroReclutador.HandlePasswordChange` | frontend/src/pages/registro-reclutador.tsx:50-55 | the password becomes the sanitised input |
| `RegistroReclutadorPage.RegistroReclutador.HandleConfirmPasswordChange` | frontend/src/pages/registro-reclutador.tsx:57-62 | the confirmation becomes the sanitised input |
| `RegistroReclutadorPage.RegistroReclutador.Validate` | frontend/src/pages/registro-reclutador.tsx:87-117 | all six checks run, each sets only its own flag, and `hasError` is whether any failed |
| `RegistroReclutadorPage.RegistroReclutador.HandleSubmit` | frontend/src/pages/registro-reclutador.tsx:83-142 | any failed check stops before encryption or a request; otherwise the service's outcome routes to /login or shows its error |
| `LoginPage.EmailMessage` | frontend/src/pages/Login.tsx:35-42 | empty exactly when the email fits in 50 characters, otherwise the length message |
| `LoginPage.PasswordMessage` | frontend/src/pages/Login.tsx:44-51 | empty exactly when the password fits in 30 characters |
| `LoginPage.RouteFor` | frontend/src/pages/Login.tsx:93-99 | "candidate" goes to /home-candidato, "employer" to /home-empresa, any other role nowhere |
| `LoginPage.ShownError` | frontend/src/pages/Login.tsx:100-101 | an `Error`'s message, else "Error al iniciar sesión" |
| `LoginPage.Remembered` | frontend/src/pages/Login.tsx:83-91 | with remember-me the three keys are written, without it all three removed; no other key changes |
| `LoginPage.Restore` | frontend/src/pages/Login.tsx:22-33 | the saved email and password come back only when remember-me is "true" and an email was saved |
| `LoginPage.RememberThenRestore` | frontend/src/pages/Login.tsx:22-91 | what was remembered comes back on the next visit |
| `LoginPage.ForgetThenRestore` | frontend/src/pages/Login.tsx:22-91 | once forgotten, nothing comes back |
| `LoginPage.RememberKeepsUser` | frontend/src/pages/Login.tsx:79-91 | the remember-me step leaves the saved user where `getUser` finds it |
| `LoginPage.SubmitEnabledIffFieldsFit` | frontend/src/pages/Login.tsx:165 | the button is enabled exactly when nothing loads and both fields fit |
| `LoginPage.Login.constructor` | frontend/src/pages/Login.tsx:22-33 | the mount effect restores the remembered fields and writes nothing |
| `LoginPage.Login.ValidateEmail` | frontend/src/pages/Login.tsx:35-42 | succeeds exactly for at most 50 characters and sets the matching message |
| `LoginPage.Login.ValidatePassword` | frontend/src/pages/Login.tsx:44-51 | succeeds exactly for at most 30 characters and sets the matching message |
| `LoginPage.Login.HandleEmailChange` | frontend/src/pages/Login.tsx:53-57 | the email and its message are updated |
| `LoginPage.Login.HandlePasswordChange` | frontend/src/pages/Login.tsx:59-63 | the password and its message are updated |
| `LoginPage.Login.RememberCredentials` | frontend/src/pages/Login.tsx:83-91 | the storage becomes `Remembered` of it |
| `LoginPage.Login.HandleLogin` | frontend/src/pages/Login.tsx:65-105 | invalid fields send nothing; a failure shows its message; a success saves the user, applies remember-me and routes by role, with an unknown role shown as "Tipo de usuario no válido" |
| `LoginScreen.DataField` | frontend/src/screens/Login.tsx:66 | the user record has no `data` field |
| `LoginScreen.LandingAsWritten` | frontend/src/screens/Login.tsx:66-74 | with no `data` field nothing is saved and no route is taken |
| `LoginScreen.LandingFor` | frontend/src/screens/Login.tsx:66-74 | the intended landing saves the user and routes candidates and employers, any other role nowhere |
| `LoginScreen.SuccessfulLoginGoesNowhere` | frontend/src/screens/Login.tsx:64-74 | for a "0200" reply for a candidate the screen as written saves nothing and goes nowhere, where the intended one saves and goes home |
| `LoginScreen.LandingSavesUser` | frontend/src/screens/Login.tsx:66-67 | the intended landing stores the user where `getUser` finds it |
| `LoginScreen.Login.constructor` | frontend/src/screens/Login.tsx:12-18 | empty fields, no messages, not loading |
| `LoginScreen.Login.ValidateEmail` | frontend/src/screens/Login.tsx:20-27 | succeeds exactly for at most 50 characters and sets the matching message |
| `LoginScreen.Login.ValidatePassword` | frontend/src/screens/Login.tsx:29-36 | succeeds exactly for at most 30 characters and sets the matching message |
| `LoginScreen.Login.HandleEmailChange` | frontend/src/screens/Login.tsx:38-42 | the email and its message are updated |
| `LoginScreen.Login.HandlePasswordChange` | frontend/src/screens/Login.tsx:44-48 | the password and its message are updated |
| `LoginScreen.Login.Land` | frontend/src/screens/Login.tsx:66-74 | saves the landing's user, if any, and takes its route |
| `LoginScreen.Login.HandleLoginAsWritten` | frontend/src/screens/Login.tsx:50-80 | invalid fields send nothing; a failure shows its message; a success changes no storage and takes no route |
| `LoginScreen.Login.HandleLogin` | frontend/src/screens/Login.tsx:50-80 | corrected: a success saves the returned user and routes by role |
| `LoginSimulated.SimulatedUser` | frontend/src/screens/Login/Login.tsx:53-62 | a company user exactly when the lower-cased email contains "empresa", with company 123 and no CV or skills; otherwise a candidate with the fixed CV and skills |
| `LoginSimulated.RouteOf` | frontend/src/screens/Login/Login.tsx:66-70 | a candidate goes to /home-candidato, any other user to /home-empresa |
| `LoginSimulated.ClassificationIgnoresCase` | frontend/src/screens/Login/Login.tsx:58 | an email and its lower-cased form make the same kind of user |
| `LoginSimulated.CompanyWordAnyCase` | frontend/src/screens/Login/Login.tsx:58 | an email holding "EMPRESA" signs in as a company |
| `LoginSimulated.SimulatedUserRoundTrip` | frontend/src/screens/Login/Login.tsx:53-70 | the user saved is what `getCurrentUser` reads back, and it routes by the email |
| `LoginSimulated.Login.constructor` | frontend/src/screens/Login/Login.tsx:40-45 | empty fields, not loading, no error |
| `LoginSimulated.Login.HandleLogin` | frontend/src/screens/Login/Login.tsx:47-78 | the simulated user is saved before routing, and loading ends with no error |

## Left out

- Markup, styling and layout of every component; the pure-wiring components and the recruiter registration screen under `screens/RegistroReclutador`, which has no logic beyond wiring.
- The skill-loading effect of the candidate registration page (`frontend/src/pages/registro-candidato.tsx:60-95`): the model takes the loaded options as state and starts with none.
- `formatSalary`: it uses `parseFloat` and locale formatting, that is, floating point and a foreign library. Likewise `getTimeAgo`, `handleViewMore` and the user name shown in the header.
- `available-jobs.service.ts`, `locations.services.ts` and `useJobs.ts`: fetch plumbing with no decisions, and a hook that does not compile. The home page's load is modelled on its outcome.
- The WHATWG URL parsing behind `isValidUrl`: it is the parameter `validUrl`.
- JSEncrypt's RSA: it is the parameter `encrypt`.
- `btoa` and the Basic credential: the token request is an input `Reply`.
- `Date` parsing and the clock: `parseDate` and `now` are parameters.
- `fetch`, `async` ordering, `console`, `navigate`, `scrollTo`, React effects and the click-outside listeners. Navigation is a returned route. A click outside is one method (`ClickOutside`) rather than a DOM test.
- `JSON.stringify`/`JSON.parse`: they are the abstract `Codec`, and the round-trip lemmas assume a lawful one.
- The screen's `response.json()` in `RegistroCandidato.tsx`: it is part of the `posted` outcome.
- String lengths count characters, not UTF-16 code units. `toLowerCase` is modelled on ASCII and Latin-1 letters only, and JS `sort` as the lexicographic order on the characters' codes.
- The network-call counter is not a separate counter: `Run.call` (and the `sent` out-parameters) say whether a request went out, and two `GetToken` methods have a ghost `fetched` flag.
- Storage writes are modelled as never failing (a full or disabled `localStorage` makes `setItem` throw), so the simulated login's `catch` (`frontend/src/screens/Login/Login.tsx:73-74`) is not modelled.
- `ParseInt` reads decimal digits only: a "0x" prefix is read as 0 where `parseInt` reads hex. Every id the client parses comes from `toString()` or a fixed option.
- `LoginPage.SubmitEnabledIffFieldsFit`: Dafny proves it without help, so it states the `disabled` expression but holds no proof work.

## Findings

| source | as written | input that shows it | evidently intended | confidence | as-written member | corrected member |
|---|---|---|---|---|---|---|
| frontend/src/pages/home-candidato.tsx:419-422 | typing in the area box (and, at lines 459-462, the location box) sets the input but keeps `currentPage`, unlike selecting, clearing or changing a filter | nine jobs, eight titled "a" and one titled "b", on page 2; type "b": one job matches, there is one page, and page 2 is empty | typing goes back to page 1 as every other search change does | medium, not executed | `HomeCandidatoPage.HomeCandidato.TypeAreaAsWritten` and `HomeCandidatoPage.HomeCandidato.TypeLocationAsWritten` (counterexample in `HomeCandidatoPage.TypingKeepsStalePage`) | `HomeCandidatoPage.HomeCandidato.TypeArea` and `HomeCandidatoPage.HomeCandidato.TypeLocation` |
| frontend/src/screens/Login.tsx:66-74 | `response.data` is read from the user record that `auth.service.login` resolves to, which has no `data`, so a successful login neither saves the user nor navigates | email "ana@x.com", a password of at most 30 characters, and a "0200" reply for the candidate Ana Diaz | save the returned user and route it by its role | medium, not executed | `LoginScreen.Login.HandleLoginAsWritten` (counterexample in `LoginScreen.SuccessfulLoginGoesNowhere`) | `LoginScreen.Login.HandleLogin` |
