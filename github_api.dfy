/** The upstream side of the service (main/services/github-api.service.js):
    one page of a user's repositories, one page of branches per repository,
    and the aggregation that merges the two.

    The HTTP call itself is the parameter `fetch`: what the upstream API
    answers for a URL, either the page's JSON array or the error superagent
    throws. Every layer reports, beside its result, the URLs it requested in
    the order it issued them, so that which calls happen is part of what is
    proved. */
module GithubApi {
  import opened Wrappers
  import opened Decimal

  /** The error thrown on a failed call: the HTTP status superagent puts on
      it (none for a TypeError raised while shaping a page) and a message. */
  datatype ApiError = ApiError(status: Option<int>, message: string)

  /** The `commit` object of a raw branch entry. */
  datatype RawCommit = RawCommit(sha: string)

  /** One element of the JSON array the upstream API returns. Repository
      entries use `name` and `fork`; branch entries use `name` and `commit`,
      which may be missing. */
  datatype RawItem = RawItem(name: string, fork: bool, commit: Option<RawCommit>)

  /** The upstream API, as an oracle from URL to response. */
  type Fetch = string -> Result<seq<RawItem>, ApiError>

  /** A result together with the upstream URLs requested to compute it. */
  datatype Traced<+T> = Traced(result: Result<T, ApiError>, requested: seq<string>)

  datatype RepositoryRef = RepositoryRef(name: string)

  datatype BranchRef = BranchRef(name: string, lastCommitSha: string)

  /** `{ ...repository, branches }`: a repository reference (whose only field
      is `name`) with its branches added. */
  datatype EnrichedRepository = EnrichedRepository(name: string, branches: seq<BranchRef>)

  datatype RepositoryPage = RepositoryPage(page: int, count: int, repositories: seq<RepositoryRef>)

  datatype BranchPage = BranchPage(count: int, branches: seq<BranchRef>)

  /** What the catch blocks of the two page shapers throw: reading
      `branch.commit.sha` of a branch without `commit` raises a TypeError, and
      the handler then calls `infoLogger.error`, which does not exist, so a
      second TypeError without an HTTP status escapes. */
  const ShapingFailure := ApiError(None, "infoLogger.error is not a function")

  // ---------------------------------------------------------------------
  // URLs

  const ApiBase := "https://api.github.com"

  /** The query string `?page={page}&per_page={perPage}` both endpoints use. */
  function PageQuery(page: int, perPage: int): string {
    "?page=" + IntToString(page) + "&per_page=" + IntToString(perPage)
  }

  /** The repositories listing of one user: the URL starts with the user's
      path and ends with the page query. */
  function ReposUrl(username: string, page: int, reposPerPage: int): (u: string)
    ensures var prefix := ApiBase + "/users/" + username + "/repos";
      && |u| == |prefix| + |PageQuery(page, reposPerPage)|
      && u[..|prefix|] == prefix
      && u[|prefix|..] == PageQuery(page, reposPerPage)
  {
    ApiBase + "/users/" + username + "/repos" + PageQuery(page, reposPerPage)
  }

  /** The branch listing of one repository of one user: the URL starts with
      the repository's path and ends with the page query. */
  function BranchesUrl(username: string, repository: string, page: int, branchesPerRepo: int): (u: string)
    ensures var prefix := ApiBase + "/repos/" + username + "/" + repository + "/branches";
      && |u| == |prefix| + |PageQuery(page, branchesPerRepo)|
      && u[..|prefix|] == prefix
      && u[|prefix|..] == PageQuery(page, branchesPerRepo)
  {
    ApiBase + "/repos/" + username + "/" + repository + "/branches" + PageQuery(page, branchesPerRepo)
  }

  /** In `a + [sep] + b`, the first `sep` is the one after `a`. */
  lemma FirstSeparator(a: string, b: string, sep: char)
    requires sep !in a
    ensures (a + [sep] + b)[|a|] == sep
    ensures forall k :: 0 <= k < |a| ==> (a + [sep] + b)[k] != sep
  {
    assert forall k :: 0 <= k < |a| ==> (a + [sep] + b)[k] == a[k];
  }

  /** If `a + [sep] + b == a' + [sep] + b'` and neither `a` nor `a'` holds
      `sep`, both sides split in the same place. */
  lemma SplitAtSeparator(a: string, b: string, a': string, b': string, sep: char)
    requires sep !in a && sep !in a'
    requires a + [sep] + b == a' + [sep] + b'
    ensures a == a' && b == b'
  {
    var s := a + [sep] + b;
    FirstSeparator(a, b, sep);
    FirstSeparator(a', b', sep);
    assert |a| == |a'|;
    assert a == s[..|a|] == a';
    assert b == s[|a| + 1..] == b';
  }

  lemma NoAmpersand(i: int)
    ensures '&' !in IntToString(i)
  {
    var s := IntToString(i);
    assert forall k :: 0 <= k < |s| ==> s[k] != '&';
  }

  lemma PageQueryShape(p: int, n: int)
    ensures PageQuery(p, n)[6..] == IntToString(p) + ['&'] + ("per_page=" + IntToString(n))
  {
    var a, b := IntToString(p), IntToString(n);
    var q := PageQuery(p, n);
    assert q == "?page=" + a + "&per_page=" + b;
    assert "&per_page=" + b == ['&'] + ("per_page=" + b);
    assert q == "?page=" + (a + ['&'] + ("per_page=" + b));
  }

  /** The page query determines the page and the page size it carries. */
  lemma PageQueryInjective(p: int, n: int, p': int, n': int)
    requires PageQuery(p, n) == PageQuery(p', n')
    ensures p == p' && n == n'
  {
    var rest, rest' := "per_page=" + IntToString(n), "per_page=" + IntToString(n');
    PageQueryShape(p, n);
    PageQueryShape(p', n');
    NoAmpersand(p);
    NoAmpersand(p');
    SplitAtSeparator(IntToString(p), rest, IntToString(p'), rest', '&');
    IntToStringInjective(p, p');
    assert IntToString(n) == rest[9..];
    assert IntToString(n') == rest'[9..];
    IntToStringInjective(n, n');
  }

  lemma ReposUrlShape(username: string, p: int, n: int)
    ensures var prefix := ApiBase + "/users/" + username + "/repos";
      ReposUrl(username, p, n)[|prefix|..] == PageQuery(p, n)
  {
    var prefix := ApiBase + "/users/" + username + "/repos";
    assert ReposUrl(username, p, n) == prefix + PageQuery(p, n);
  }

  /** A repositories URL names its page and page size: two requests for the
      same user share a URL (and so a cache entry) only if they ask for the
      same page of the same size. */
  lemma ReposUrlInjective(username: string, p: int, n: int, p': int, n': int)
    requires ReposUrl(username, p, n) == ReposUrl(username, p', n')
    ensures p == p' && n == n'
  {
    ReposUrlShape(username, p, n);
    ReposUrlShape(username, p', n');
    PageQueryInjective(p, n, p', n');
  }

  /** Dropping `p` from `p + r + ([sep] + w) + q` leaves `r`, the separator
      and the rest. */
  lemma DropPrefix(p: string, r: string, sep: char, w: string, q: string)
    ensures (p + r + ([sep] + w) + q)[|p|..] == r + [sep] + (w + q)
  {
    assert p + r + ([sep] + w) + q == p + (r + [sep] + (w + q));
  }

  lemma BranchesUrlShape(username: string, r: string, p: int, n: int)
    ensures var prefix := ApiBase + "/repos/" + username + "/";
      BranchesUrl(username, r, p, n)[|prefix|..] == r + ['/'] + ("branches" + PageQuery(p, n))
  {
    var prefix := ApiBase + "/repos/" + username + "/";
    assert "/branches" == ['/'] + "branches";
    DropPrefix(prefix, r, '/', "branches", PageQuery(p, n));
  }

  /** A branches URL names its repository, page and page size, for
      repository names without `/` (which the upstream API does not allow). */
  lemma BranchesUrlInjective(username: string, r: string, p: int, n: int, r': string, p': int, n': int)
    requires '/' !in r && '/' !in r'
    requires BranchesUrl(username, r, p, n) == BranchesUrl(username, r', p', n')
    ensures r == r' && p == p' && n == n'
  {
    var tail, tail' := "branches" + PageQuery(p, n), "branches" + PageQuery(p', n');
    BranchesUrlShape(username, r, p, n);
    BranchesUrlShape(username, r', p', n');
    SplitAtSeparator(r, tail, r', tail', '/');
    assert PageQuery(p, n) == tail[8..];
    assert PageQuery(p', n') == tail'[8..];
    PageQueryInjective(p, n, p', n');
  }

  // ---------------------------------------------------------------------
  // Upstream calls

  /** `makeGithubApiCall`: one request; a failure is rethrown unchanged. */
  function MakeGithubApiCall(fetch: Fetch, url: string): (t: Traced<seq<RawItem>>)
    ensures t.requested == [url]
    ensures fetch(url).Failure? ==> t.result == Failure(fetch(url).error)
    ensures fetch(url).Success? ==> t.result == Success(fetch(url).value)
  {
    Traced(fetch(url), [url])
  }

  /** `callGetUserReposPage`: one request, for the user's repositories URL. */
  function CallGetUserReposPage(fetch: Fetch, username: string, page: int, reposPerPage: int): (t: Traced<seq<RawItem>>)
    ensures t.requested == [ReposUrl(username, page, reposPerPage)]
    ensures t.result == fetch(ReposUrl(username, page, reposPerPage))
  {
    MakeGithubApiCall(fetch, ReposUrl(username, page, reposPerPage))
  }

  /** `callGetRepoBranchesPage`: one request, for the repository's branches
      URL. */
  function CallGetRepoBranchesPage(fetch: Fetch, username: string, repository: string, page: int, branchesPerRepo: int): (t: Traced<seq<RawItem>>)
    ensures t.requested == [BranchesUrl(username, repository, page, branchesPerRepo)]
    ensures t.result == fetch(BranchesUrl(username, repository, page, branchesPerRepo))
  {
    MakeGithubApiCall(fetch, BranchesUrl(username, repository, page, branchesPerRepo))
  }

  // ---------------------------------------------------------------------
  // Shaping one page

  /** The `{name}` of every raw entry that is not a fork, in upstream order. */
  function NonForkRepositories(body: seq<RawItem>): (rs: seq<RepositoryRef>)
    ensures |rs| <= |body|
    ensures (forall i :: 0 <= i < |body| ==> body[i].fork) ==> rs == []
    ensures (forall i :: 0 <= i < |body| ==> !body[i].fork) ==> |rs| == |body|
  {
    if body == [] then []
    else (if body[0].fork then [] else [RepositoryRef(body[0].name)]) + NonForkRepositories(body[1..])
  }

  lemma {:induction false} NonForkRepositoriesAppend(body: seq<RawItem>, x: RawItem)
    ensures NonForkRepositories(body + [x])
         == NonForkRepositories(body) + (if x.fork then [] else [RepositoryRef(x.name)])
  {
    if body == [] {
      assert [x][1..] == [];
    } else {
      assert (body + [x])[1..] == body[1..] + [x];
      NonForkRepositoriesAppend(body[1..], x);
    }
  }

  /** `idx` picks out, in increasing order, exactly the non-fork entries of
      `body`, and `rs` holds their names in that order. */
  ghost predicate PicksNonForks(body: seq<RawItem>, idx: seq<int>, rs: seq<RepositoryRef>) {
    && |idx| == |rs|
    && (forall k :: 0 <= k < |idx| ==>
          0 <= idx[k] < |body| && !body[idx[k]].fork && rs[k].name == body[idx[k]].name)
    && (forall k, l :: 0 <= k < l < |idx| ==> idx[k] < idx[l])
    && (forall i :: 0 <= i < |body| && !body[i].fork ==> i in idx)
  }

  /** Every repository of the page comes from a non-fork entry, in upstream
      order, and every non-fork entry gives one: `idx` lists the positions in
      `body` of the entries kept, strictly increasing, and holds every
      position whose entry is not a fork. */
  lemma {:induction false} NonForkRepositoriesExactly(body: seq<RawItem>) returns (idx: seq<int>)
    ensures PicksNonForks(body, idx, NonForkRepositories(body))
  {
    if body == [] {
      return [];
    }
    var front, x := body[..|body| - 1], body[|body| - 1];
    assert body == front + [x];
    var picked := NonForkRepositoriesExactly(front);
    NonForkRepositoriesAppend(front, x);
    if x.fork {
      SkipLast(front, x, picked, NonForkRepositories(front));
      idx := picked;
    } else {
      PickLast(front, x, picked, NonForkRepositories(front));
      idx := picked + [|front|];
    }
  }

  /** A fork appended to the page is not picked. */
  lemma SkipLast(front: seq<RawItem>, x: RawItem, idx: seq<int>, rs: seq<RepositoryRef>)
    requires x.fork && PicksNonForks(front, idx, rs)
    ensures PicksNonForks(front + [x], idx, rs)
  {
    var body := front + [x];
    forall k | 0 <= k < |idx|
      ensures 0 <= idx[k] < |body| && !body[idx[k]].fork && rs[k].name == body[idx[k]].name
    {
      assert body[idx[k]] == front[idx[k]];
    }
    forall i | 0 <= i < |body| && !body[i].fork
      ensures i in idx
    {
      assert i < |front| && body[i] == front[i];
    }
  }

  /** A non-fork appended to the page is picked last, at its own position. */
  lemma PickLast(front: seq<RawItem>, x: RawItem, idx: seq<int>, rs: seq<RepositoryRef>)
    requires !x.fork && PicksNonForks(front, idx, rs)
    ensures PicksNonForks(front + [x], idx + [|front|], rs + [RepositoryRef(x.name)])
  {
    var body, idx', rs' := front + [x], idx + [|front|], rs + [RepositoryRef(x.name)];
    forall k | 0 <= k < |idx'|
      ensures 0 <= idx'[k] < |body| && !body[idx'[k]].fork && rs'[k].name == body[idx'[k]].name
    {
      if k < |idx| {
        assert idx'[k] == idx[k] && rs'[k] == rs[k] && body[idx[k]] == front[idx[k]];
      }
    }
    forall k, l | 0 <= k < l < |idx'|
      ensures idx'[k] < idx'[l]
    {
      assert idx'[k] == idx[k];
    }
    forall i | 0 <= i < |body| && !body[i].fork
      ensures i in idx'
    {
      if i < |front| {
        assert body[i] == front[i] && i in idx;
      } else {
        assert idx'[|idx|] == i;
      }
    }
  }

  /** `{name, lastCommitSha}` for every raw branch entry, in upstream order;
      the TypeError of an entry without `commit` fails the whole page. */
  function ShapeBranches(body: seq<RawItem>): (r: Result<seq<BranchRef>, ApiError>)
    ensures r.Success? <==> forall i :: 0 <= i < |body| ==> body[i].commit.Some?
    ensures r.Failure? ==> r.error == ShapingFailure
    ensures r.Success? ==>
      && |r.value| == |body|
      && forall i :: 0 <= i < |body| ==>
           r.value[i] == BranchRef(body[i].name, body[i].commit.value.sha)
  {
    if body == [] then Success([])
    else if body[0].commit.None? then Failure(ShapingFailure)
    else match ShapeBranches(body[1..])
      case Failure(e) => Failure(e)
      case Success(rest) =>
        Success([BranchRef(body[0].name, body[0].commit.value.sha)] + rest)
  }

  /** The value of `getAndProcessOnePageOfRepositories`. */
  function RepositoriesPage(fetch: Fetch, username: string, page: int, reposPerPage: int): (t: Traced<RepositoryPage>)
    ensures t.requested == [ReposUrl(username, page, reposPerPage)]
    ensures var answer := fetch(ReposUrl(username, page, reposPerPage));
      && (answer.Failure? ==> t.result == Failure(answer.error))
      && (answer.Success? ==>
            && t.result.Success?
            && t.result.value.page == page
            && t.result.value.repositories == NonForkRepositories(answer.value)
            && t.result.value.count == |t.result.value.repositories| <= |answer.value|)
  {
    var call := CallGetUserReposPage(fetch, username, page, reposPerPage);
    match call.result
    case Failure(e) => Traced(Failure(e), call.requested)
    case Success(body) =>
      var repositories := NonForkRepositories(body);
      Traced(Success(RepositoryPage(page, |repositories|, repositories)), call.requested)
  }

  /** The value of `getAndProcessOnePageOfBranches`. */
  function BranchesPage(fetch: Fetch, username: string, repository: string, page: int, branchesPerRepo: int): (t: Traced<BranchPage>)
    ensures t.requested == [BranchesUrl(username, repository, page, branchesPerRepo)]
    ensures var answer := fetch(BranchesUrl(username, repository, page, branchesPerRepo));
      && (answer.Failure? ==> t.result == Failure(answer.error))
      && (answer.Success? ==>
            && (t.result.Success? <==> ShapeBranches(answer.value).Success?)
            && (t.result.Success? ==>
                  && t.result.value.branches == ShapeBranches(answer.value).value
                  && t.result.value.count == |t.result.value.branches| == |answer.value|)
            && (t.result.Failure? ==> t.result.error == ShapingFailure))
  {
    var call := CallGetRepoBranchesPage(fetch, username, repository, page, branchesPerRepo);
    match call.result
    case Failure(e) => Traced(Failure(e), call.requested)
    case Success(body) =>
      match ShapeBranches(body)
      case Failure(e) => Traced(Failure(e), call.requested)
      case Success(branches) => Traced(Success(BranchPage(|branches|, branches)), call.requested)
  }

  /** `getAndProcessOnePageOfRepositories`: pushes `{name}` for every non-fork
      entry of the fetched page into a local list. */
  method GetAndProcessOnePageOfRepositories(fetch: Fetch, username: string, page: int, reposPerPage: int)
    returns (t: Traced<RepositoryPage>)
    ensures t == RepositoriesPage(fetch, username, page, reposPerPage)
  {
    var call := CallGetUserReposPage(fetch, username, page, reposPerPage);
    if call.result.Failure? {
      return Traced(Failure(call.result.error), call.requested);
    }
    var body := call.result.value;
    var repositories: seq<RepositoryRef> := [];
    var i := 0;
    while i < |body|
      invariant 0 <= i <= |body|
      invariant repositories == NonForkRepositories(body[..i])
    {
      assert body[..i + 1] == body[..i] + [body[i]];
      NonForkRepositoriesAppend(body[..i], body[i]);
      if !body[i].fork {
        repositories := repositories + [RepositoryRef(body[i].name)];
      }
      i := i + 1;
    }
    assert body[..i] == body;
    t := Traced(Success(RepositoryPage(page, |repositories|, repositories)), call.requested);
  }

  /** `getAndProcessOnePageOfBranches`: pushes `{name, lastCommitSha}` for
      every entry of the fetched page into a local list; an entry without
      `commit` aborts the page. */
  method GetAndProcessOnePageOfBranches(fetch: Fetch, username: string, repository: string, page: int, branchesPerRepo: int)
    returns (t: Traced<BranchPage>)
    ensures t == BranchesPage(fetch, username, repository, page, branchesPerRepo)
  {
    var call := CallGetRepoBranchesPage(fetch, username, repository, page, branchesPerRepo);
    if call.result.Failure? {
      return Traced(Failure(call.result.error), call.requested);
    }
    var body := call.result.value;
    var branches: seq<BranchRef> := [];
    var i := 0;
    while i < |body|
      invariant 0 <= i <= |body|
      invariant forall k :: 0 <= k < i ==> body[k].commit.Some?
      invariant |branches| == i
      invariant forall k :: 0 <= k < i ==> branches[k] == BranchRef(body[k].name, body[k].commit.value.sha)
    {
      if body[i].commit.None? {
        return Traced(Failure(ShapingFailure), call.requested);
      }
      branches := branches + [BranchRef(body[i].name, body[i].commit.value.sha)];
      i := i + 1;
    }
    assert branches == ShapeBranches(body).value;
    t := Traced(Success(BranchPage(|branches|, branches)), call.requested);
  }

  // ---------------------------------------------------------------------
  // Aggregation

  /** `getRepositoryBranchesData`: page 1 of the repository's branches,
      `branchesPerRepo` of them, without the count. */
  function GetRepositoryBranchesData(fetch: Fetch, username: string, repository: string, branchesPerRepo: int): (t: Traced<seq<BranchRef>>)
    ensures t.requested == [BranchesUrl(username, repository, 1, branchesPerRepo)]
    ensures var page := BranchesPage(fetch, username, repository, 1, branchesPerRepo).result;
      && (page.Failure? ==> t.result == Failure(page.error))
      && (page.Success? ==> t.result == Success(page.value.branches))
  {
    var p := BranchesPage(fetch, username, repository, 1, branchesPerRepo);
    match p.result
    case Failure(e) => Traced(Failure(e), p.requested)
    case Success(bp) => Traced(Success(bp.branches), p.requested)
  }

  /** `addBranchesData`: every repository merged with its branch list. The
      source starts all branch fetches at once and fails when any of them
      fails; here they run in list order and the first failure in that order
      is the one reported. */
  function AddBranchesData(fetch: Fetch, username: string, repositories: seq<RepositoryRef>, branchesPerRepo: int): (t: Traced<seq<EnrichedRepository>>)
    ensures |t.requested| == |repositories|
    ensures t.result.Success? ==> |t.result.value| == |repositories|
    ensures repositories != [] && BranchesOf(fetch, username, repositories[0], branchesPerRepo).Failure? ==>
      t.result == Failure(BranchesOf(fetch, username, repositories[0], branchesPerRepo).error)
  {
    if repositories == [] then Traced(Success([]), [])
    else
      var head := GetRepositoryBranchesData(fetch, username, repositories[0].name, branchesPerRepo);
      var tail := AddBranchesData(fetch, username, repositories[1..], branchesPerRepo);
      var result :=
        match head.result
        case Failure(e) => Failure(e)
        case Success(branches) =>
          match tail.result
          case Failure(e) => Failure(e)
          case Success(rest) => Success([EnrichedRepository(repositories[0].name, branches)] + rest);
      Traced(result, head.requested + tail.requested)
  }

  /** The branch list fetched for one repository. */
  function BranchesOf(fetch: Fetch, username: string, repository: RepositoryRef, branchesPerRepo: int): Result<seq<BranchRef>, ApiError> {
    GetRepositoryBranchesData(fetch, username, repository.name, branchesPerRepo).result
  }

  /** Every repository's branch fetch is issued, one each, in list order,
      whether or not some of them fail. */
  lemma {:induction false} AddBranchesDataRequests(fetch: Fetch, username: string, repositories: seq<RepositoryRef>, branchesPerRepo: int)
    ensures var requested := AddBranchesData(fetch, username, repositories, branchesPerRepo).requested;
      && |requested| == |repositories|
      && forall i :: 0 <= i < |repositories| ==>
           requested[i] == BranchesUrl(username, repositories[i].name, 1, branchesPerRepo)
  {
    if repositories != [] {
      AddBranchesDataRequests(fetch, username, repositories[1..], branchesPerRepo);
    }
  }

  /** The aggregation succeeds exactly when every branch fetch succeeds, and
      then holds one entry per repository, in input order, each keeping the
      repository's name and carrying the branches fetched for that name. */
  lemma {:induction false} AddBranchesDataSucceeds(fetch: Fetch, username: string, repositories: seq<RepositoryRef>, branchesPerRepo: int)
    ensures var r := AddBranchesData(fetch, username, repositories, branchesPerRepo).result;
      && (r.Success? <==> forall i :: 0 <= i < |repositories| ==>
            BranchesOf(fetch, username, repositories[i], branchesPerRepo).Success?)
      && (r.Success? ==>
            && |r.value| == |repositories|
            && forall i :: 0 <= i < |repositories| ==>
                 && r.value[i].name == repositories[i].name
                 && r.value[i].branches == BranchesOf(fetch, username, repositories[i], branchesPerRepo).value)
  {
    if repositories != [] {
      var tail := repositories[1..];
      AddBranchesDataSucceeds(fetch, username, tail, branchesPerRepo);
      assert forall i :: 1 <= i < |repositories| ==> repositories[i] == tail[i - 1];
    }
  }

  /** A failed aggregation returns no partial list and carries the error of
      one of the failing branch fetches. */
  lemma {:induction false} AddBranchesDataFails(fetch: Fetch, username: string, repositories: seq<RepositoryRef>, branchesPerRepo: int)
    returns (i: nat)
    requires AddBranchesData(fetch, username, repositories, branchesPerRepo).result.Failure?
    ensures i < |repositories|
    ensures BranchesOf(fetch, username, repositories[i], branchesPerRepo)
         == Failure(AddBranchesData(fetch, username, repositories, branchesPerRepo).result.error)
  {
    if BranchesOf(fetch, username, repositories[0], branchesPerRepo).Failure? {
      i := 0;
    } else {
      var j := AddBranchesDataFails(fetch, username, repositories[1..], branchesPerRepo);
      i := j + 1;
    }
  }

  /** `getUserRepositoriesWithBranchesData`: one page of repositories, then
      the branches of each. */
  function GetUserRepositoriesWithBranchesData(fetch: Fetch, username: string, page: int, reposPerPage: int, branchesPerRepo: int): (t: Traced<seq<EnrichedRepository>>)
    ensures var answer := fetch(ReposUrl(username, page, reposPerPage));
      && |t.requested| >= 1
      && t.requested[0] == ReposUrl(username, page, reposPerPage)
      && (answer.Failure? ==> t.result == Failure(answer.error) && |t.requested| == 1)
      && (answer.Success? ==> |t.requested| == 1 + |NonForkRepositories(answer.value)|)
      && (t.result.Success? ==> |t.result.value| == |t.requested| - 1)
  {
    var rp := RepositoriesPage(fetch, username, page, reposPerPage);
    match rp.result
    case Failure(e) => Traced(Failure(e), rp.requested)
    case Success(p) =>
      var b := AddBranchesData(fetch, username, p.repositories, branchesPerRepo);
      Traced(b.result, rp.requested + b.requested)
  }

  /** When the repositories page fails, the aggregation fails with that very
      error and no branch fetch is issued. */
  lemma ReposFailureShortCircuits(fetch: Fetch, username: string, page: int, reposPerPage: int, branchesPerRepo: int)
    requires fetch(ReposUrl(username, page, reposPerPage)).Failure?
    ensures var t := GetUserRepositoriesWithBranchesData(fetch, username, page, reposPerPage, branchesPerRepo);
      && t.result == Failure(fetch(ReposUrl(username, page, reposPerPage)).error)
      && t.requested == [ReposUrl(username, page, reposPerPage)]
  {
  }

  /** When the repositories page is fetched, the aggregation is
      `addBranchesData` over its non-fork repositories: the repositories URL
      is requested first, then one branches URL (page 1, `branchesPerRepo`)
      per kept repository. */
  lemma AggregationAfterReposPage(fetch: Fetch, username: string, page: int, reposPerPage: int, branchesPerRepo: int)
    requires fetch(ReposUrl(username, page, reposPerPage)).Success?
    ensures var repos := NonForkRepositories(fetch(ReposUrl(username, page, reposPerPage)).value);
      var t := GetUserRepositoriesWithBranchesData(fetch, username, page, reposPerPage, branchesPerRepo);
      && t.result == AddBranchesData(fetch, username, repos, branchesPerRepo).result
      && |t.requested| == |repos| + 1
      && t.requested[0] == ReposUrl(username, page, reposPerPage)
      && forall i :: 0 <= i < |repos| ==>
           t.requested[i + 1] == BranchesUrl(username, repos[i].name, 1, branchesPerRepo)
  {
    var repos := NonForkRepositories(fetch(ReposUrl(username, page, reposPerPage)).value);
    AddBranchesDataRequests(fetch, username, repos, branchesPerRepo);
  }

  /** End to end: a successful aggregation lists, in upstream order, exactly
      the non-fork repositories of the page, each with the branches of its
      own page-1 branch listing; a failed one failed on the repositories page
      or on one of the repositories' branch fetches, with that error. */
  lemma AggregationCharacterised(fetch: Fetch, username: string, page: int, reposPerPage: int, branchesPerRepo: int)
    ensures var answer := fetch(ReposUrl(username, page, reposPerPage));
      var r := GetUserRepositoriesWithBranchesData(fetch, username, page, reposPerPage, branchesPerRepo).result;
      && (r.Success? ==>
            && answer.Success?
            && |r.value| == |NonForkRepositories(answer.value)|
            && forall i :: 0 <= i < |r.value| ==>
                 && r.value[i].name == NonForkRepositories(answer.value)[i].name
                 && BranchesOf(fetch, username, NonForkRepositories(answer.value)[i], branchesPerRepo)
                    == Success(r.value[i].branches))
      && (r.Failure? ==>
            || (answer.Failure? && r.error == answer.error)
            || (answer.Success? &&
                  exists i :: 0 <= i < |NonForkRepositories(answer.value)| &&
                    BranchesOf(fetch, username, NonForkRepositories(answer.value)[i], branchesPerRepo)
                    == Failure(r.error)))
  {
    var answer := fetch(ReposUrl(username, page, reposPerPage));
    if answer.Success? {
      var repos := NonForkRepositories(answer.value);
      AggregationAfterReposPage(fetch, username, page, reposPerPage, branchesPerRepo);
      AddBranchesDataSucceeds(fetch, username, repos, branchesPerRepo);
      if AddBranchesData(fetch, username, repos, branchesPerRepo).result.Failure? {
        var i := AddBranchesDataFails(fetch, username, repos, branchesPerRepo);
      }
    }
  }
}
