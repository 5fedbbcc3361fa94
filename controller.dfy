/** GitHubTaskController: `GET /api/github/repositories`, two gates and then
    the service call. */
module GitHubTaskController {
  import opened Model
  import opened Upstream
  import opened GitHubService

  /** The only Accept header value the endpoint serves. */
  const ApplicationJson := "application/json"

  /** The exception thrown for any other Accept header. */
  const InvalidAcceptHeader := BadHeader(BadHeaderException(HttpNotFound, "INVALID ACCEPT HEADER"))

  /** The exception thrown when the upstream user payload is null. */
  const UserNotFoundFailure := UserNotFound(UserNotFoundException(HttpNotFound, "USER NOT FOUND"))

  /** getGitHubRepositories: reject a wrong Accept header before anything else,
      then look the user up, then list the validated login's repositories. */
  function GetGitHubRepositories(api: GitHubApi, username: string, acceptHeader: string)
    : (run: Run<seq<GitHubDTO>>)
    ensures acceptHeader != ApplicationJson ==> run == Run(Throw(InvalidAcceptHeader), [])
    ensures acceptHeader == ApplicationJson ==> |run.calls| >= 1 && run.calls[0] == FetchUser(username)
  {
    if acceptHeader != ApplicationJson then
      Run(Throw(InvalidAcceptHeader), [])
    else
      var validated := ValidateUsername(api, username);
      match validated.result
      case Throw(f) => Run(Throw(f), validated.calls)
      case Ok(None) => Run(Throw(UserNotFoundFailure), validated.calls)
      case Ok(Some(user)) =>
        var repositories := GetDTOs(api, Some(user.login));
        Run(repositories.result, validated.calls + repositories.calls)
  }

  /** An empty Accept header is rejected as a bad header and nothing upstream is called. */
  lemma EmptyAcceptHeaderRejected(api: GitHubApi, username: string)
    ensures GetGitHubRepositories(api, username, "") ==
              Run(Throw(BadHeader(BadHeaderException(404, "INVALID ACCEPT HEADER"))), [])
  {
  }

  /** With the right header and a null user payload the outcome is UserNotFound
      (404, "USER NOT FOUND"), after exactly one lookup and no repository fetch. */
  lemma MissingUserRejected(api: GitHubApi, username: string)
    requires api.user(username) == Body(None)
    ensures GetGitHubRepositories(api, username, ApplicationJson) ==
              Run(Throw(UserNotFound(UserNotFoundException(404, "USER NOT FOUND"))), [FetchUser(username)])
  {
  }

  /** With the right header and an existing user, the repositories are listed for
      the user's login as upstream reports it, not for the raw `username`
      parameter, and the outcome is exactly what getDTOs produced. */
  lemma ExistingUserListsByLogin(api: GitHubApi, username: string, user: User)
    requires api.user(username) == Body(Some(user))
    ensures GetGitHubRepositories(api, username, ApplicationJson).result ==
              GetDTOs(api, Some(user.login)).result
    ensures GetGitHubRepositories(api, username, ApplicationJson).calls ==
              [FetchUser(username)] + GetDTOs(api, Some(user.login)).calls
    ensures GetGitHubRepositories(api, username, ApplicationJson).calls[1] == FetchRepos(Some(user.login))
  {
  }

  /** The controller's outcome: rejected for the header exactly when the header
      is wrong, rejected for the user exactly when the header is right and the
      user payload is null, and it completes only after both gates pass. */
  lemma {:induction false} OutcomeClassified(api: GitHubApi, username: string, acceptHeader: string)
    ensures GetGitHubRepositories(api, username, acceptHeader).result == Throw(InvalidAcceptHeader) <==>
              acceptHeader != ApplicationJson
    ensures GetGitHubRepositories(api, username, acceptHeader).result == Throw(UserNotFoundFailure) <==>
              acceptHeader == ApplicationJson && api.user(username) == Body(None)
    ensures GetGitHubRepositories(api, username, acceptHeader).result.Ok? ==>
              acceptHeader == ApplicationJson && api.user(username).Body? &&
              api.user(username).payload.Some? &&
              GetDTOs(api, Some(api.user(username).payload.value.login)).result ==
                GetGitHubRepositories(api, username, acceptHeader).result
  {
    var run := GetGitHubRepositories(api, username, acceptHeader);
    if acceptHeader == ApplicationJson && api.user(username).Body? && api.user(username).payload.Some? {
      var repositories := GetDTOs(api, Some(api.user(username).payload.value.login));
      if repositories.result.Throw? {
        assert !repositories.result.failure.BadHeader? && !repositories.result.failure.UserNotFound? by {
          GetDTOsFailsOnlyWithErrors(api, Some(api.user(username).payload.value.login));
        }
      }
    }
  }
}
