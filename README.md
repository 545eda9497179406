# Repositories-with-branches aggregator, modelled in Dafny

The service answers `GET /github/{username}/repositories?page=&reposPerPage=&branchesPerRepo=`.
It fetches one page of the user's repositories from the GitHub API and drops the forks.
For each remaining repository it fetches page 1 of its branches.
It returns the repositories with their branches and some pagination metadata.
A failure anywhere becomes one entry of a fixed error catalogue.

The model has one module per source file:

- `GithubApi` models `main/services/github-api.service.js`.
  - The upstream HTTP call is a function parameter `fetch`, which maps a URL to a JSON array or to the error thrown.
  - Every layer returns a `Traced` value: its result plus the URLs it requested, in order. So "no branch fetch after a failed listing" and "every branch fetch is issued" are provable facts.
  - The two page shapers are methods with loops that push into a local list, as the source does. Each is proved equal to a specification function (`RepositoriesPage`, `BranchesPage`).
  - The URL builders, `addBranchesData` and the aggregation are functions.
- `ApiErrorService` models `main/services/api-error.service.js`: `returnError` projects a catalogue entry onto the response.
- `GithubService` models `main/services/github.service.js`: the success envelope and the status switch.
- `Middlewares` models `validateGithubRepositoriesRequest` from `main/services/middlewares.service.js`.
  - `req.query` is a class `Query` whose three fields the validator overwrites in place.
- `GithubController` models the route from `main/controllers/github.controller.js`. It chains the validator and the handler, and shows that the handler (`next`) runs exactly once, and only for an accepted request.
- Helper modules:
  - `Wrappers`: `Option` and `Result`.
  - `Decimal`: how template literals render numbers.
  - `Resources`: `errors.json` and `config.json`. Their values are not part of this model, so they are parameters `Catalogue` and `Config`. Lemmas that need distinct catalogue statuses or positive defaults say so.
  - `Http`: the Express response as a value.

Points where the code's behaviour is easy to misread:

- The check `!v || v < 0` in the validator replaces a zero value as well as a missing or negative one, because `0` is falsy.
- The rate-limit answer is whatever `errors.EXCEEDED_RATE_LIMIT` holds. The model does not fix it to 429.
- A raw branch without `commit` makes `branch.commit.sha` throw a TypeError, and the page fails. The catch block then calls `infoLogger.error`, which does not exist, so a different TypeError escapes. It has no HTTP status, so the handler answers with the internal-error entry.

## Model

| member | source | states |
|---|---|---|
| GithubApi.ReposUrl | main/services/github-api.service.js:135 | the URL is the user's repositories path followed by the page query `?page={page}&per_page={reposPerPage}`; `GithubApi.ReposUrlInjective` shows it determines page and page size |
| GithubApi.BranchesUrl | main/services/github-api.service.js:152 | the URL is the repository's branches path followed by the page query `?page={page}&per_page={branchesPerRepo}`; `GithubApi.BranchesUrlInjective` shows it determines repository, page and page size |
| GithubApi.CallGetUserReposPage | main/services/github-api.service.js:131-141 | exactly one request, for the user's repositories URL, and its result is what the upstream answers for that URL |
| GithubApi.CallGetRepoBranchesPage | main/services/github-api.service.js:143-159 | exactly one request, for the repository's branches URL, and its result is what the upstream answers for that URL |
| GithubApi.NonForkRepositories | main/services/github-api.service.js:37-42 | never more repositories than raw entries; none when every entry is a fork, and one per entry when none is; `GithubApi.NonForkRepositoriesExactly` gives the full characterisation |
| GithubApi.AddBranchesData | main/services/github-api.service.js:56-78 | one branch request per repository; a success has one entry per repository; a failing first branch fetch fails the merge with its error; `GithubApi.AddBranchesDataRequests`, `GithubApi.AddBranchesDataSucceeds` and `GithubApi.AddBranchesDataFails` state the rest |
| GithubApi.GetUserRepositoriesWithBranchesData | main/services/github-api.service.js:9-28 | the repositories URL is requested first; a failed listing fails with its error and issues nothing else; a fetched listing adds one request per non-fork repository; a success has one entry per branch request; `GithubApi.AggregationCharacterised` states the full outcome |
| GithubApi.ReposUrlInjective | main/services/github-api.service.js:135 | the repositories URL `https://api.github.com/users/{username}/repos?page={page}&per_page={reposPerPage}` fixes page and page size: two URLs for the same user are equal only for the same page and page size |
| GithubApi.BranchesUrlInjective | main/services/github-api.service.js:152 | the branches URL `https://api.github.com/repos/{username}/{repository}/branches?page={page}&per_page={branchesPerRepo}` fixes repository, page and page size (for repository names without `/`), so each repository's branch fetch has its own URL |
| GithubApi.MakeGithubApiCall | main/services/github-api.service.js:161-180 | exactly one request, for the given URL; the upstream body, or the upstream error with its status, is passed on unchanged |
| GithubApi.NonForkRepositoriesExactly | main/services/github-api.service.js:37-42 | the page's repositories are the names of exactly the raw entries whose `fork` is false, in upstream order: a strictly increasing index list maps each output to a non-fork entry of the same name and contains every non-fork position |
| GithubApi.RepositoriesPage | main/services/github-api.service.js:30-53 | requests only the repositories URL; on a failed fetch, fails with that error; otherwise `page` is echoed, the repositories are the non-fork names, `count` is their number and at most the number of raw entries |
| GithubApi.GetAndProcessOnePageOfRepositories | main/services/github-api.service.js:30-53 | the push loop over the fetched body builds exactly the page `RepositoriesPage` describes |
| GithubApi.ShapeBranches | main/services/github-api.service.js:112-124 | shaping succeeds exactly when every raw entry has a `commit`; it then gives one `{name, lastCommitSha}` per entry, in order, with `name = raw.name` and `lastCommitSha = raw.commit.sha`; otherwise it fails with a status-less error |
| GithubApi.BranchesPage | main/services/github-api.service.js:96-129 | requests only the branches URL; passes a fetch error on unchanged; on a fetched body, succeeds exactly when shaping does, with `count` equal to the number of branches and of raw entries |
| GithubApi.GetAndProcessOnePageOfBranches | main/services/github-api.service.js:96-129 | the push loop, which stops at the first entry without `commit`, gives exactly the page `BranchesPage` describes |
| GithubApi.GetRepositoryBranchesData | main/services/github-api.service.js:80-94 | requests branch page 1 with `per_page = branchesPerRepo` and returns only the `branches` list of that page, or its error |
| GithubApi.AddBranchesDataRequests | main/services/github-api.service.js:62-71 | one branch fetch is issued per input repository, in input order, for its own name, whether or not other fetches fail |
| GithubApi.AddBranchesDataSucceeds | main/services/github-api.service.js:62-71 | the merge succeeds exactly when every branch fetch succeeds; then output length equals input length, and `output[i]` has `input[i].name` and the branches fetched for that name |
| GithubApi.AddBranchesDataFails | main/services/github-api.service.js:62-71 | a failed merge returns no list and carries the error of one failing branch fetch, whose index it returns |
| GithubApi.ReposFailureShortCircuits | main/services/github-api.service.js:18-23 | if the repositories fetch fails, the aggregation fails with that same error, and only the repositories URL was requested |
| GithubApi.AggregationAfterReposPage | main/services/github-api.service.js:18-27 | after a successful repositories fetch, the result is `addBranchesData` over the non-fork repositories, and the requests are the repositories URL followed by one page-1 branches URL per repository |
| GithubApi.AggregationCharacterised | main/services/github-api.service.js:9-28 | on success: one entry per non-fork repository, in upstream order, each with the branches of its own fetch; on failure: the repositories fetch failed with that error, or some repository's branch fetch did |
| ApiErrorService.ReturnError | main/services/api-error.service.js:1-6 | HTTP status = `errorObject.status`; the body is `{status, message}` taken from the entry |
| ApiErrorService.ReturnErrorSendsEnvelopes | main/services/api-error.service.js:2-5 | the responses `returnError` can produce are exactly the error envelopes: body `{status, message}` with `status` equal to the HTTP status |
| ApiErrorService.ReturnErrorDropsOtherFields | main/services/api-error.service.js:2-5 | fields of the entry other than `status` and `message` do not affect the response |
| GithubService.SelectErrorObject | main/services/github.service.js:23-34 | status 403 selects `EXCEEDED_RATE_LIMIT`, 404 selects `USER_NOT_FOUND`, any other status or none selects `INTERNAL_SERVER_ERROR` |
| GithubService.GetUserRepositories | main/services/github.service.js:5-37 | requests exactly what the aggregation requests; on success: HTTP 200, `pagination.page = page`, `maxBranchesShownPerRepository = branchesPerRepo`, `username` echoed, `repositories` is the aggregation result and `repositoriesCount` is its length; on failure: the envelope of the selected catalogue entry |
| GithubService.ErrorResponseFromCatalogue | main/services/github.service.js:22-36 | an error response is one of the three catalogue envelopes and never carries the upstream message; with distinct statuses, it is the rate-limit status exactly for upstream 403 and the not-found status exactly for upstream 404 |
| GithubService.UnknownUser | main/services/github.service.js:28-30 | a 404 on the repositories listing gives the `USER_NOT_FOUND` envelope, and no branch URL is requested |
| GithubService.BranchFailureFailsRequest | main/services/github.service.js:22-35 | if any listed repository's branch fetch fails, the whole response is an error envelope for the status of one failing fetch; if all failing fetches reported 403, it is the rate-limit envelope |
| GithubService.SuccessfulResponse | main/services/github.service.js:13-21 | a success lists the non-fork repositories of the page in upstream order, each with its own branches, and `repositoriesCount` is their number |
| GithubService.OneRepositoryTwoBranches | main/services/github.service.js:13-21 | worked example: repository `r` and fork `f`, branches master and dev at one commit; page 1 with two per page gives `r` alone with `[master, dev]`, count 1, after exactly two upstream requests |
| Middlewares.NormaliseParam | main/services/middlewares.service.js:37-41 | a positive value is kept; a missing, zero or negative value becomes the default |
| Middlewares.Normalised | main/services/middlewares.service.js:37-41 | after normalisation, all three parameters are present |
| Middlewares.NormalisedIdempotent | main/services/middlewares.service.js:37-41 | normalising twice gives the same query as normalising once |
| Middlewares.NormalisedPointwise | main/services/middlewares.service.js:37-41 | each parameter's normalised value depends only on that parameter |
| Middlewares.NormalisedPositive | main/services/middlewares.service.js:37-41 | with positive defaults, every normalised parameter is positive; a query is left unchanged exactly when all three parameters are positive |
| Middlewares.ValidateGithubRepositoriesRequest | main/services/middlewares.service.js:33-44 | if `accept` is not exactly `application/json`: the `ACCEPT_HEADER_ERROR` envelope, and the query is untouched; otherwise the verdict is to call `next`, and the query now holds `page` defaulted to 1 and the page sizes defaulted to the configured values |
| GithubController.RepositoriesRoute | main/controllers/github.controller.js:20-24 | a rejected request is answered with the accept-header envelope, and no upstream URL is requested; an accepted one is answered by the handler, called once on the normalised query |
| GithubController.DefaultsReachTheResponse | main/services/middlewares.service.js:37-43 | when `page` and `branchesPerRepo` are missing or non-positive, a successful response reports page 1 and the configured branches-per-repository default |

## Left out

- HTTP transport: the superagent GET with its `Accept: application/vnd.github+json` and `User-Agent` headers is the `fetch` parameter. It is I/O.
- The `superagent-cache` layer is left out. It is a transparent URL-keyed cache, so `fetch` is deterministic per URL and the cache cannot change a result.
- `Promise.all` concurrency is left out. The branch fetches are a sequential map over the repositories.
- GithubApi.AddBranchesDataFails: states only that the error is the error of some failing branch fetch. Which sibling's error wins in the source depends on completion timing; the model happens to take the first in list order.
- Logging is left out: `infoLogger`, `errorLogger` (including its "Ratelimit has been exceeded." rewording, which only reaches the log) and the `console.log` in the handler's default branch.
- Express wiring is left out: `addPresetMiddlewaresToExpressApp` (logging hook, body-parser, CORS, Swagger), `app.listen` and the port lookup. `res.status`/`res.send` are modelled as returning the response value.
- Coercion of Express query strings is left out. Parameters are `Option<int>`. With real string values, `"0"` is truthy and not `< 0`, so `page=0` would pass through unchanged. The model does not capture that case.
- GithubService.GetUserRepositories: takes the normalised numbers. The route always runs the validator first. Calling the handler without it, which would put `undefined` into the URL, is not modelled.
- `switch` on `` `${error.status}` `` is modelled for numeric statuses. A status that is the string `"403"` or `"404"` is not modelled.
- Malformed upstream bodies are not modelled: a body that is not an array, `null` entries, or a `commit` without `sha` (which would give an undefined `lastCommitSha`). The only shaping failure modelled is a branch entry without `commit`.
- The contents of `errors.json` and `config.json` are not part of this model. They are parameters.
- Decimal.IntToString: renders every integer in plain decimal. JavaScript numbers are doubles, inexact above 2^53 and written in exponent form from 10^21 on. Query values that large are not modelled.
