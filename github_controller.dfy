/** The one route of the service (main/controllers/github.controller.js):
    `GET /github/:username/repositories` runs the validator and then, only
    if the validator hands the request on, the handler. */
module GithubController {
  import opened Wrappers
  import opened GithubApi
  import opened Resources
  import opened Http
  import opened ApiErrorService
  import opened GithubService
  import opened Middlewares

  /** The route's middleware chain: the validator's `next` is the handler,
      called once, on the normalised query, and its response is the
      route's. A rejected request issues no upstream request at all. */
  method RepositoriesRoute(accept: Option<string>, username: string, query: Query, errors: Catalogue, config: Config, fetch: Fetch)
    returns (x: Exchange)
    modifies query
    ensures accept != Some(JsonMediaType) ==>
      && x == Exchange(ReturnError(errors.acceptHeaderError), [])
      && query.Params() == old(query.Params())
    ensures accept == Some(JsonMediaType) ==>
      var n := Normalised(old(query.Params()), config);
      && query.Params() == n
      && x == GetUserRepositories(errors, fetch, username, n.page.value, n.reposPerPage.value, n.branchesPerRepo.value)
  {
    var v := ValidateGithubRepositoriesRequest(accept, query, errors, config);
    match v
    case Rejected(response) =>
      x := Exchange(response, []);
    case CallNext =>
      x := GetUserRepositories(errors, fetch, username, query.page.value, query.reposPerPage.value, query.branchesPerRepo.value);
  }

  /** Parameters left out or non-positive are replaced before the handler
      runs, and a successful response reports the replaced values: page 1 and
      the configured number of branches per repository. */
  lemma DefaultsReachTheResponse(errors: Catalogue, config: Config, fetch: Fetch, username: string, q: QueryParams)
    requires q.page.None? || q.page.value <= 0
    requires q.branchesPerRepo.None? || q.branchesPerRepo.value <= 0
    ensures var n := Normalised(q, config);
      var r := GetUserRepositories(errors, fetch, username, n.page.value, n.reposPerPage.value, n.branchesPerRepo.value).response;
      r.body.RepositoriesBody? ==>
        r.body.pagination.page == 1 && r.body.pagination.maxBranchesShownPerRepository == config.branchesPerRepositoryDefault
  {
  }
}
