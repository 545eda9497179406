/** The request validator (main/services/middlewares.service.js,
    `validateGithubRepositoriesRequest`): rejects a request that does not
    accept JSON, and otherwise rewrites the query's missing or non-positive
    parameters to their defaults, in place. */
module Middlewares {
  import opened Wrappers
  import opened Resources
  import opened Http
  import opened ApiErrorService

  /** The only `accept` header value the endpoint serves. */
  const JsonMediaType := "application/json"

  /** The query parameters as values; `None` is a parameter not given. */
  datatype QueryParams = QueryParams(page: Option<int>, reposPerPage: Option<int>, branchesPerRepo: Option<int>)

  /** `req.query`, whose parameters the validator overwrites. */
  class Query {
    var page: Option<int>
    var reposPerPage: Option<int>
    var branchesPerRepo: Option<int>

    constructor (page: Option<int>, reposPerPage: Option<int>, branchesPerRepo: Option<int>)
      ensures Params() == QueryParams(page, reposPerPage, branchesPerRepo)
    {
      this.page := page;
      this.reposPerPage := reposPerPage;
      this.branchesPerRepo := branchesPerRepo;
    }

    function Params(): QueryParams
      reads this
    {
      QueryParams(page, reposPerPage, branchesPerRepo)
    }
  }

  /** `!v || v < 0`: a missing, zero or negative value is replaced by the
      default; a positive value is kept. */
  function NormaliseParam(v: Option<int>, default: int): (r: int)
    ensures v.Some? && v.value > 0 ==> r == v.value
    ensures v.None? || v.value <= 0 ==> r == default
  {
    if v.None? || v.value == 0 || v.value < 0 then default else v.value
  }

  /** The query after the validator has run: each parameter normalised on
      its own, page to 1 and the page sizes to the configured defaults. */
  function Normalised(q: QueryParams, config: Config): (n: QueryParams)
    ensures n.page.Some? && n.reposPerPage.Some? && n.branchesPerRepo.Some?
  {
    QueryParams(
      Some(NormaliseParam(q.page, 1)),
      Some(NormaliseParam(q.reposPerPage, config.repositoriesPerPageDefault)),
      Some(NormaliseParam(q.branchesPerRepo, config.branchesPerRepositoryDefault)))
  }

  /** Normalising twice is normalising once. */
  lemma NormalisedIdempotent(q: QueryParams, config: Config)
    ensures Normalised(Normalised(q, config), config) == Normalised(q, config)
  {
  }

  /** Each parameter is normalised independently of the other two. */
  lemma NormalisedPointwise(q: QueryParams, q': QueryParams, config: Config)
    ensures q.page == q'.page ==> Normalised(q, config).page == Normalised(q', config).page
    ensures q.reposPerPage == q'.reposPerPage ==> Normalised(q, config).reposPerPage == Normalised(q', config).reposPerPage
    ensures q.branchesPerRepo == q'.branchesPerRepo ==> Normalised(q, config).branchesPerRepo == Normalised(q', config).branchesPerRepo
  {
  }

  /** With positive defaults, every normalised parameter is positive, and a
      query whose parameters are all positive is left as it is. */
  lemma NormalisedPositive(q: QueryParams, config: Config)
    requires PositiveDefaults(config)
    ensures var n := Normalised(q, config);
      n.page.value > 0 && n.reposPerPage.value > 0 && n.branchesPerRepo.value > 0
    ensures (&& q.page.Some? && q.page.value > 0
             && q.reposPerPage.Some? && q.reposPerPage.value > 0
             && q.branchesPerRepo.Some? && q.branchesPerRepo.value > 0)
            <==> Normalised(q, config) == q
  {
  }

  /** What the validator does with the request: answer it itself, or hand
      it on to `next`. */
  datatype Verdict = Rejected(response: Response) | CallNext

  /** `validateGithubRepositoriesRequest`. A wrong or missing `accept` header
      is answered with the accept-header envelope before the query is
      touched; otherwise the three parameters are normalised in place and
      the request goes on to `next`. */
  method ValidateGithubRepositoriesRequest(accept: Option<string>, query: Query, errors: Catalogue, config: Config)
    returns (v: Verdict)
    modifies query
    ensures accept != Some(JsonMediaType) ==>
      v == Rejected(ReturnError(errors.acceptHeaderError)) && query.Params() == old(query.Params())
    ensures accept == Some(JsonMediaType) ==>
      v == CallNext && query.Params() == Normalised(old(query.Params()), config)
  {
    if accept != Some(JsonMediaType) {
      return Rejected(ReturnError(errors.acceptHeaderError));
    }
    if query.page.None? || query.page.value == 0 || query.page.value < 0 {
      query.page := Some(1);
    }
    if query.reposPerPage.None? || query.reposPerPage.value == 0 || query.reposPerPage.value < 0 {
      query.reposPerPage := Some(config.repositoriesPerPageDefault);
    }
    if query.branchesPerRepo.None? || query.branchesPerRepo.value == 0 || query.branchesPerRepo.value < 0 {
      query.branchesPerRepo := Some(config.branchesPerRepositoryDefault);
    }
    v := CallNext;
  }
}
