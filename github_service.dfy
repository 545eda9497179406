/** The request handler (main/services/github.service.js): runs the
    aggregation and turns its outcome into the success envelope or into one
    catalogue entry. */
module GithubService {
  import opened Wrappers
  import opened GithubApi
  import opened Resources
  import opened Http
  import opened ApiErrorService

  /** The `switch` on the propagated error's status: 403 is the rate limit,
      404 is an unknown user or repository, anything else (a missing status
      included) is an internal error. */
  function SelectErrorObject(errors: Catalogue, status: Option<int>): (o: ErrorObject)
    ensures status == Some(403) ==> o == errors.exceededRateLimit
    ensures status == Some(404) ==> o == errors.userNotFound
    ensures status != Some(403) && status != Some(404) ==> o == errors.internalServerError
  {
    match status
    case Some(403) => errors.exceededRateLimit
    case Some(404) => errors.userNotFound
    case _ => errors.internalServerError
  }

  /** `getUserRepositories`, called with the normalised query values. */
  function GetUserRepositories(errors: Catalogue, fetch: Fetch, username: string, page: int, reposPerPage: int, branchesPerRepo: int): (x: Exchange)
    ensures var t := GetUserRepositoriesWithBranchesData(fetch, username, page, reposPerPage, branchesPerRepo);
      && x.requested == t.requested
      && (t.result.Success? ==>
            && x.response.httpStatus == OK
            && x.response.body.RepositoriesBody?
            && x.response.body.repositories == t.result.value
            && x.response.body.username == username
            && x.response.body.pagination.page == page
            && x.response.body.pagination.repositoriesCount == |x.response.body.repositories|
            && x.response.body.pagination.maxBranchesShownPerRepository == branchesPerRepo)
      && (t.result.Failure? ==> x.response == ReturnError(SelectErrorObject(errors, t.result.error.status)))
  {
    var t := GetUserRepositoriesWithBranchesData(fetch, username, page, reposPerPage, branchesPerRepo);
    match t.result
    case Success(repositories) =>
      Exchange(
        Response(OK, RepositoriesBody(Pagination(page, |repositories|, branchesPerRepo), username, repositories)),
        t.requested)
    case Failure(e) =>
      Exchange(ReturnError(SelectErrorObject(errors, e.status)), t.requested)
  }

  /** An error response never carries the upstream message: it is one of the
      three catalogue envelopes, and with distinct catalogue statuses its
      status says which status the upstream reported. */
  lemma ErrorResponseFromCatalogue(errors: Catalogue, fetch: Fetch, username: string, page: int, reposPerPage: int, branchesPerRepo: int)
    requires DistinctStatuses(errors)
    ensures var t := GetUserRepositoriesWithBranchesData(fetch, username, page, reposPerPage, branchesPerRepo);
      var r := GetUserRepositories(errors, fetch, username, page, reposPerPage, branchesPerRepo).response;
      t.result.Failure? ==>
        && IsErrorEnvelope(r)
        && (r == ReturnError(errors.exceededRateLimit)
            || r == ReturnError(errors.userNotFound)
            || r == ReturnError(errors.internalServerError))
        && (r.httpStatus == errors.exceededRateLimit.status <==> t.result.error.status == Some(403))
        && (r.httpStatus == errors.userNotFound.status <==> t.result.error.status == Some(404))
  {
  }

  /** An unknown user: the repositories listing fails with 404, the answer is
      the user-not-found envelope, and no branch is requested. */
  lemma UnknownUser(errors: Catalogue, fetch: Fetch, username: string, page: int, reposPerPage: int, branchesPerRepo: int)
    requires fetch(ReposUrl(username, page, reposPerPage)).Failure?
    requires fetch(ReposUrl(username, page, reposPerPage)).error.status == Some(404)
    ensures var x := GetUserRepositories(errors, fetch, username, page, reposPerPage, branchesPerRepo);
      x.response == ReturnError(errors.userNotFound) && x.requested == [ReposUrl(username, page, reposPerPage)]
  {
    ReposFailureShortCircuits(fetch, username, page, reposPerPage, branchesPerRepo);
  }

  /** All or nothing: when the branch fetch of any listed repository fails,
      the whole request fails, with the envelope chosen for the status of one
      of the failing fetches; if every failing fetch reported 403, that is
      the rate-limit envelope. */
  lemma BranchFailureFailsRequest(errors: Catalogue, fetch: Fetch, username: string, page: int, reposPerPage: int, branchesPerRepo: int, j: nat)
    requires fetch(ReposUrl(username, page, reposPerPage)).Success?
    requires j < |NonForkRepositories(fetch(ReposUrl(username, page, reposPerPage)).value)|
    requires BranchesOf(fetch, username, NonForkRepositories(fetch(ReposUrl(username, page, reposPerPage)).value)[j], branchesPerRepo).Failure?
    ensures var repos := NonForkRepositories(fetch(ReposUrl(username, page, reposPerPage)).value);
      var r := GetUserRepositories(errors, fetch, username, page, reposPerPage, branchesPerRepo).response;
      && IsErrorEnvelope(r)
      && (exists i :: 0 <= i < |repos| && BranchesOf(fetch, username, repos[i], branchesPerRepo).Failure? &&
            r == ReturnError(SelectErrorObject(errors, BranchesOf(fetch, username, repos[i], branchesPerRepo).error.status)))
      && ((forall i :: 0 <= i < |repos| && BranchesOf(fetch, username, repos[i], branchesPerRepo).Failure? ==>
             BranchesOf(fetch, username, repos[i], branchesPerRepo).error.status == Some(403))
          ==> r == ReturnError(errors.exceededRateLimit))
  {
    var repos := NonForkRepositories(fetch(ReposUrl(username, page, reposPerPage)).value);
    AggregationAfterReposPage(fetch, username, page, reposPerPage, branchesPerRepo);
    AddBranchesDataSucceeds(fetch, username, repos, branchesPerRepo);
    var i := AddBranchesDataFails(fetch, username, repos, branchesPerRepo);
    assert BranchesOf(fetch, username, repos[i], branchesPerRepo).Failure?;
  }

  /** A successful response lists, in upstream order, one entry per non-fork
      repository of the requested page, with that repository's branches, and
      its `repositoriesCount` is that number of repositories. */
  lemma SuccessfulResponse(errors: Catalogue, fetch: Fetch, username: string, page: int, reposPerPage: int, branchesPerRepo: int)
    ensures var x := GetUserRepositories(errors, fetch, username, page, reposPerPage, branchesPerRepo);
      var answer := fetch(ReposUrl(username, page, reposPerPage));
      x.response.body.RepositoriesBody? ==>
        && answer.Success?
        && x.response.body.pagination.repositoriesCount == |NonForkRepositories(answer.value)|
        && forall i :: 0 <= i < |x.response.body.repositories| ==>
             && x.response.body.repositories[i].name == NonForkRepositories(answer.value)[i].name
             && BranchesOf(fetch, username, NonForkRepositories(answer.value)[i], branchesPerRepo)
                == Success(x.response.body.repositories[i].branches)
  {
    AggregationCharacterised(fetch, username, page, reposPerPage, branchesPerRepo);
  }

  /** A worked request: user "u" has one repository "r" and one fork "f";
      "r" has branches master and dev at the same commit. Page 1 with two
      repositories and two branches per repository lists "r" alone, with both
      branches in upstream order, after requesting the repositories page and
      the branches of "r" only. */
  lemma OneRepositoryTwoBranches(errors: Catalogue)
    ensures var sha := "c5b97d5ae6c19d5c5df71a34c7fbeeda2479ccbc";
      var fetch: Fetch := url =>
        if url == ReposUrl("u", 1, 2) then
          Success([RawItem("r", false, None), RawItem("f", true, None)])
        else if url == BranchesUrl("u", "r", 1, 2) then
          Success([RawItem("master", false, Some(RawCommit(sha))), RawItem("dev", false, Some(RawCommit(sha)))])
        else Failure(ApiError(Some(404), "Not Found"));
      GetUserRepositories(errors, fetch, "u", 1, 2, 2)
      == Exchange(
           Response(OK, RepositoriesBody(
             Pagination(1, 1, 2), "u",
             [EnrichedRepository("r", [BranchRef("master", sha), BranchRef("dev", sha)])])),
           [ReposUrl("u", 1, 2), BranchesUrl("u", "r", 1, 2)])
  {
    var sha := "c5b97d5ae6c19d5c5df71a34c7fbeeda2479ccbc";
    var raw := [RawItem("r", false, None), RawItem("f", true, None)];
    assert NonForkRepositories(raw) == [RepositoryRef("r")] by {
      assert raw[1..] == [RawItem("f", true, None)];
      assert raw[1..][1..] == [];
    }
    var branches := [RawItem("master", false, Some(RawCommit(sha))), RawItem("dev", false, Some(RawCommit(sha)))];
    assert ShapeBranches(branches).value == [BranchRef("master", sha), BranchRef("dev", sha)];
  }
}
