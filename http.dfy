/** The responses the service sends through Express (`res.status(..)` and
    `res.send(..)`), as values. */
module Http {
  import opened GithubApi

  /** The status Express answers with when `res.send` is called without
      `res.status`. */
  const OK := 200

  datatype Pagination = Pagination(page: int, repositoriesCount: int, maxBranchesShownPerRepository: int)

  datatype Body =
    | ErrorBody(status: int, message: string)
    | RepositoriesBody(pagination: Pagination, username: string, repositories: seq<EnrichedRepository>)

  datatype Response = Response(httpStatus: int, body: Body)

  /** A response together with the upstream URLs requested while producing it. */
  datatype Exchange = Exchange(response: Response, requested: seq<string>)
}
