/** The whole request: the controller's outcome, with any exception it throws
    turned into a response by the exception handler. */
module Endpoint {
  import opened Model
  import opened Upstream
  import opened GitHubService
  import opened GitHubTaskController
  import opened GlobalExceptionHandler
  import opened Sequences

  /** What the client receives: the repository list, or an error body. */
  datatype ResponseBody = Repositories(items: seq<GitHubDTO>) | ErrorBody(error: ErrorResponse)
  datatype HttpResponse = HttpResponse(status: int, body: ResponseBody)

  /** `ResponseEntity.ok(repositories)` on success; otherwise the handler's entity. */
  function Serve(api: GitHubApi, username: string, acceptHeader: string): (response: HttpResponse)
    ensures response.body.Repositories? ==>
              response.status == HttpOk &&
              GetGitHubRepositories(api, username, acceptHeader).result == Ok(response.body.items)
    ensures response.body.ErrorBody? ==>
              GetGitHubRepositories(api, username, acceptHeader).result.Throw? &&
              response.body.error.status == response.status &&
              ErrorEntity(response.status, response.body.error) ==
                Handle(GetGitHubRepositories(api, username, acceptHeader).result.failure)
  {
    match GetGitHubRepositories(api, username, acceptHeader).result
    case Ok(repositories) => HttpResponse(HttpOk, Repositories(repositories))
    case Throw(f) =>
      var entity := Handle(f);
      HttpResponse(entity.status, ErrorBody(entity.body))
  }

  /** A wrong Accept header ends as 404 with "INVALID ACCEPT HEADER". */
  lemma ServeBadHeader(api: GitHubApi, username: string, acceptHeader: string)
    requires acceptHeader != "application/json"
    ensures Serve(api, username, acceptHeader) ==
              HttpResponse(404, ErrorBody(ErrorResponse(404, "INVALID ACCEPT HEADER")))
  {
  }

  /** A null user payload ends as 404 with "USER NOT FOUND". */
  lemma ServeUserNotFound(api: GitHubApi, username: string)
    requires api.user(username) == Body(None)
    ensures Serve(api, username, "application/json") ==
              HttpResponse(404, ErrorBody(ErrorResponse(404, "USER NOT FOUND")))
  {
  }

  /** An exception from the user lookup or the repository-list fetch ends as
      500 carrying its message. */
  lemma ServeUpstreamFault(api: GitHubApi, username: string, user: User)
    requires api.user(username).Fault? ||
             (api.user(username) == Body(Some(user)) && api.repos(Some(user.login)).Fault?)
    ensures Serve(api, username, "application/json") ==
              HttpResponse(500, ErrorBody(ErrorResponse(500,
                if api.user(username).Fault? then api.user(username).message
                else api.repos(Some(user.login)).message)))
  {
  }

  /** An exception from a branch fetch ends as 500 carrying its message: the
      first qualifying repository whose fetch throws decides the response. */
  lemma ServeBranchFault(api: GitHubApi, username: string, user: User, rs: seq<Repo>, j: nat)
    requires api.user(username) == Body(Some(user))
    requires api.repos(Some(user.login)) == Body(Some(rs))
    requires var kept := Filter(rs, Qualifies(Some(user.login)));
      j < |kept| && BranchFetchFails(api, kept[j]) &&
      forall i :: 0 <= i < j ==> !BranchFetchFails(api, kept[i])
    ensures var kept := Filter(rs, Qualifies(Some(user.login)));
      Serve(api, username, "application/json") ==
        HttpResponse(500, ErrorBody(ErrorResponse(500, api.branches(kept[j].owner.login, kept[j].name).message)))
  {
    var kept := Filter(rs, Qualifies(Some(user.login)));
    GetDTOsMapsQualifying(api, Some(user.login), rs);
    MapToDTOsAbortsAtFirstFailure(api, kept, j);
    ExistingUserListsByLogin(api, username, user);
  }

  /** With the right header and an existing user the response is 200 exactly
      when getDTOs for the user's login completes, and its body is exactly that list. */
  lemma ServeSuccess(api: GitHubApi, username: string, user: User)
    requires api.user(username) == Body(Some(user))
    ensures Serve(api, username, "application/json").status == 200 <==>
              GetDTOs(api, Some(user.login)).result.Ok?
    ensures GetDTOs(api, Some(user.login)).result.Ok? ==>
              Serve(api, username, "application/json").body ==
                Repositories(GetDTOs(api, Some(user.login)).result.value)
  {
    ExistingUserListsByLogin(api, username, user);
    GetDTOsFailsOnlyWithErrors(api, Some(user.login));
  }

  /** Every response is 200, 404 or 500; an error body's status always equals the
      response status; and a 200 always carries the repository list. */
  lemma ServeStatuses(api: GitHubApi, username: string, acceptHeader: string)
    ensures Serve(api, username, acceptHeader).status in {200, 404, 500}
    ensures Serve(api, username, acceptHeader).body.ErrorBody? ==>
              Serve(api, username, acceptHeader).body.error.status == Serve(api, username, acceptHeader).status
    ensures Serve(api, username, acceptHeader).status == 200 <==>
              Serve(api, username, acceptHeader).body.Repositories?
  {
    var run := GetGitHubRepositories(api, username, acceptHeader);
    if acceptHeader == ApplicationJson && api.user(username).Body? && api.user(username).payload.Some? {
      GetDTOsFailsOnlyWithErrors(api, Some(api.user(username).payload.value.login));
    }
  }

  /** A null repository list for an existing user is an empty 200 response. */
  lemma ServeNullRepositories(api: GitHubApi, username: string, user: User)
    requires api.user(username) == Body(Some(user))
    requires api.repos(Some(user.login)) == Body(None)
    ensures Serve(api, username, "application/json") == HttpResponse(200, Repositories([]))
  {
  }

  /** One repository "repo1" owned by "odyn666", not a fork, with the single
      branch "main" at commit "abc". */
  function ScenarioApi(): (api: GitHubApi)
  {
    GitHubApi(
      (u: string) => Body(Some(User("odyn666"))),
      (u: Option<string>) => Body(Some([Repo("repo1", false, None, User("odyn666"))])),
      (o: string, n: string) => Body(Some([Branch("main", Commit("abc"))])))
  }

  /** Requesting "odyn666" in that scenario returns that repository with its branch. */
  lemma ServeScenario()
    ensures Serve(ScenarioApi(), "odyn666", "application/json") ==
              HttpResponse(200, Repositories([GitHubDTO("repo1", "odyn666", Some([Branch("main", Commit("abc"))]))]))
  {
    var api := ScenarioApi();
    var rs := [Repo("repo1", false, None, User("odyn666"))];
    var branches := [Branch("main", Commit("abc"))];
    assert api.user("odyn666") == Body(Some(User("odyn666")));
    assert api.repos(Some("odyn666")) == Body(Some(rs));
    assert api.branches("odyn666", "repo1") == Body(Some(branches));
    assert Filter(rs, OwnedBy(Some("odyn666"))) == rs;
    assert Filter(rs, NotFork()) == rs;
    MapToDTOsSucceeds(api, rs);
    var dtos := MapToDTOs(api, rs).result.value;
    assert dtos == [dtos[0]];
    assert MapToDTOs(api, rs).result == Ok([GitHubDTO("repo1", "odyn666", Some(branches))]);
  }
}
