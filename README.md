# GitHub repository aggregation, modelled in Dafny

The service behind `GET /api/github/repositories?username=<login>` answers with
the user's own non-fork repositories, each with its branch list. This project
models its core:

- **GitHubService** (`service.dfy`): `validateUsername`, `getBranches`,
  `addBranchesToGithubRepository` and the `getDTOs` stream pipeline
  (filter by exact owner login, filter out forks, map each survivor to a
  `GitHubDTO` with its branches).
- **GitHubTaskController** (`controller.dfy`): the Accept-header gate, the
  user-existence gate, then the call to `getDTOs` with the validated login.
- **GlobalExceptionHandler** (`handler.dfy`): the three handlers that turn an
  exception into an HTTP status and an `ErrorResponse(status, message)`.
- The composition of controller and handler (`endpoint.dfy`), the data shapes
  (`model.dfy`), the upstream API (`upstream.dfy`) and the generic filter with
  its lemmas (`sequences.dfy`).

The upstream GitHub REST API is a value `GitHubApi` of three oracle functions,
one per GET resource (user, repository list, branch list). Each answers either
a body, which may be null (`Body(None)`), or an exception that `RestTemplate`
throws (`Fault(message)`: a 4xx/5xx client error or a transport failure). Every
operation returns a `Run`: its result (a value, or the exception it throws)
together with the upstream calls it made, in order. The call list is what lets
the model state that a bad header makes no upstream call and that branch
lists are fetched one repository at a time, in upstream order, stopping at the
first failure.

A Java `null` is `None` of `Model.Option`. `getDTOs` takes a nullable username,
and `String.equals(null)` is false, so a null username keeps no repository.
`addBranchesToGithubRepository` updates the repository object in place. The
method `GitHubService.AddBranchesToGithubRepository` does that on the class
`Model.RepositoryModel`. Its `ensures` ties the new object state to the value
function `GitHubService.EnrichRepository`, which the pure `getDTOs` pipeline uses.

Two behaviours one might expect are absent from the code, and the model
follows the code:
- `getDTOs` has no early empty result for a null or empty username
  (GitHubService.java:46-49 has no such check); a null or empty username
  gives an empty result only because no owner login equals it;
- the user lookup does not turn an upstream error into "absent". Only a null
  body becomes `Optional.empty()`. An upstream client error (for example
  GitHub's 404 for an unknown user) is thrown by `RestTemplate`, is never
  caught (GitHubService.java:36), and ends as a 500 through the general
  handler. See `Endpoint.ServeUpstreamFault`.

## Model

| member | source | states |
|---|---|---|
| `GitHubService.ValidateUsername` | src/main/java/com/github/odyn666/atiperaRecrutationTask/service/GitHubService.java:33-38 | one user lookup; the result is empty exactly when the upstream body is null, is the upstream user otherwise, and an upstream exception propagates |
| `GitHubService.GetBranches` | src/main/java/com/github/odyn666/atiperaRecrutationTask/service/GitHubService.java:85-92 | one branch fetch; a null body gives the empty list, a body gives the upstream branches unchanged and in order, an upstream exception propagates |
| `GitHubService.EnrichRepository` | src/main/java/com/github/odyn666/atiperaRecrutationTask/service/GitHubService.java:71-75 | the repository keeps its name, fork flag and owner; its branches become the non-null list `getBranches(owner.login, name)` returns; it fails exactly when that fetch throws |
| `GitHubService.AddBranchesToGithubRepository` | src/main/java/com/github/odyn666/atiperaRecrutationTask/service/GitHubService.java:71-75 | in place: the object's new state is `EnrichRepository` of its old state and the same object is returned; when the fetch throws the object is unchanged |
| `GitHubService.MapToDTOs` | src/main/java/com/github/odyn666/atiperaRecrutationTask/service/GitHubService.java:54-60 | a completed map stage has exactly one DTO per input repository |
| `GitHubService.GetDTOs` | src/main/java/com/github/odyn666/atiperaRecrutationTask/service/GitHubService.java:46-63 | the repository list is fetched first; a null or an empty upstream array gives an empty (never null) list with no branch fetch; an upstream exception propagates; the result is never longer than the upstream list |
| `GitHubService.OwnedBy` | src/main/java/com/github/odyn666/atiperaRecrutationTask/service/GitHubService.java:52 | the owner filter keeps a repository exactly when its owner login equals the username character for character (case-sensitive); a null username keeps none, since `equals(null)` is false |
| `GitHubService.NotFork` | src/main/java/com/github/odyn666/atiperaRecrutationTask/service/GitHubService.java:53 | the fork filter keeps a repository exactly when it is not a fork |
| `GitHubService.MapToDTOsCompletes` | src/main/java/com/github/odyn666/atiperaRecrutationTask/service/GitHubService.java:54-60 | the map stage completes if and only if no branch fetch throws |
| `GitHubService.MapToDTOsSucceeds` | src/main/java/com/github/odyn666/atiperaRecrutationTask/service/GitHubService.java:54-60 | when the map stage completes it fetched each repository's branches once, in order, has one DTO per repository, and DTO k copies repository k's name and owner login verbatim and carries exactly its `getBranches` list |
| `GitHubService.MapToDTOsAbortsAtFirstFailure` | src/main/java/com/github/odyn666/atiperaRecrutationTask/service/GitHubService.java:54-60 | when repository j is the first whose branch fetch throws, the whole stage throws that exception and no repository after j is fetched |
| `GitHubService.GetDTOsMapsQualifying` | src/main/java/com/github/odyn666/atiperaRecrutationTask/service/GitHubService.java:49-60 | over an upstream list, `getDTOs` fetches the list once and then runs the map stage on exactly the repositories that pass both filters |
| `GitHubService.GetDTOsSelects` | src/main/java/com/github/odyn666/atiperaRecrutationTask/service/GitHubService.java:49-60 | the DTOs correspond one-to-one and in order to the upstream repositories that are owned by the username and not forks; these sit at strictly increasing upstream positions and every qualifying repository is included |
| `GitHubService.GetDTOsCompletes` | src/main/java/com/github/odyn666/atiperaRecrutationTask/service/GitHubService.java:49-60 | the call completes if and only if no qualifying repository's branch fetch throws, and then it fetched the list and then the qualifying repositories' branches in upstream order |
| `GitHubService.GetDTOsOwnedNonForks` | src/main/java/com/github/odyn666/atiperaRecrutationTask/service/GitHubService.java:52-57 | every returned DTO has `ownerLogin` equal to the requested username (exact, so the username is not null) and comes from an upstream repository with that name and owner that is not a fork |
| `GitHubService.GetDTOsKeepsQualifyingInOrder` | src/main/java/com/github/odyn666/atiperaRecrutationTask/service/GitHubService.java:51-60 | when every upstream repository qualifies and no branch fetch throws, all of them are returned, in upstream order |
| `GitHubService.GetDTOsNullUsername` | src/main/java/com/github/odyn666/atiperaRecrutationTask/service/GitHubService.java:52 | a null username gives an empty list after the single list fetch, because no login equals null |
| `GitHubService.GetDTOsEmptyUsername` | src/main/java/com/github/odyn666/atiperaRecrutationTask/service/GitHubService.java:52 | an empty username gives an empty list whenever no owner login is empty |
| `GitHubService.GetDTOsFailsOnlyWithErrors` | src/main/java/com/github/odyn666/atiperaRecrutationTask/service/GitHubService.java:46-63 | `getDTOs` throws only generic upstream exceptions, never a bad-header or user-not-found exception |
| `GitHubService.MapToDTOsFailsOnlyWithErrors` | src/main/java/com/github/odyn666/atiperaRecrutationTask/service/GitHubService.java:54-60 | the map stage throws only generic upstream exceptions |
| `Sequences.Filter` | src/main/java/com/github/odyn666/atiperaRecrutationTask/service/GitHubService.java:51-53 | a filter's output is no longer than its input and holds only input elements that satisfy the predicate |
| `Sequences.FilterMembership` | src/main/java/com/github/odyn666/atiperaRecrutationTask/service/GitHubService.java:52-53 | an element is kept if and only if it is in the input and satisfies the predicate |
| `Sequences.FilterConcat` | src/main/java/com/github/odyn666/atiperaRecrutationTask/service/GitHubService.java:51-53 | filtering distributes over concatenation, so kept elements keep their relative order |
| `Sequences.FilterFilter` | src/main/java/com/github/odyn666/atiperaRecrutationTask/service/GitHubService.java:52-53 | the owner filter followed by the fork filter keeps what one filter by both conditions keeps |
| `Sequences.FilterCommutes` | src/main/java/com/github/odyn666/atiperaRecrutationTask/service/GitHubService.java:52-53 | the two filters can be applied in either order with the same result |
| `Sequences.FilterKeepsAll` | src/main/java/com/github/odyn666/atiperaRecrutationTask/service/GitHubService.java:51-53 | a filter returns its input unchanged when every element passes |
| `Sequences.FilterSelects` | src/main/java/com/github/odyn666/atiperaRecrutationTask/service/GitHubService.java:51-53 | the output is a subsequence: element k is the input element at the k-th of strictly increasing positions, each satisfies the predicate, and every satisfying position is among them |
| `Sequences.FilterAll` | src/main/java/com/github/odyn666/atiperaRecrutationTask/service/GitHubService.java:51-53 | every kept element satisfies a property if and only if every input element that passes the filter does |
| `GitHubTaskController.GetGitHubRepositories` | src/main/java/com/github/odyn666/atiperaRecrutationTask/controller/GitHubTaskController.java:22-35 | an Accept header other than exactly `application/json` throws BadHeader(404, "INVALID ACCEPT HEADER") with no upstream call; with the right header the first call is the user lookup |
| `GitHubTaskController.EmptyAcceptHeaderRejected` | src/main/java/com/github/odyn666/atiperaRecrutationTask/controller/GitHubTaskController.java:27-28 | an empty Accept header is rejected as a bad header before any upstream call |
| `GitHubTaskController.MissingUserRejected` | src/main/java/com/github/odyn666/atiperaRecrutationTask/controller/GitHubTaskController.java:31 | a null user payload throws UserNotFound(404, "USER NOT FOUND") after one lookup and no repository fetch |
| `GitHubTaskController.ExistingUserListsByLogin` | src/main/java/com/github/odyn666/atiperaRecrutationTask/controller/GitHubTaskController.java:31-34 | for an existing user the repositories are fetched for the upstream user's login, not the raw username parameter, and the outcome is exactly what `getDTOs` returned |
| `GitHubTaskController.OutcomeClassified` | src/main/java/com/github/odyn666/atiperaRecrutationTask/controller/GitHubTaskController.java:27-34 | the outcome is BadHeader if and only if the header is wrong, UserNotFound if and only if the header is right and the user payload null, and success only after both gates pass |
| `GlobalExceptionHandler.HandleBadHeaderException` | src/main/java/com/github/odyn666/atiperaRecrutationTask/exception/GlobalExceptionHandler.java:12-16 | the HTTP status is the exception's stored status and the body is its stored status and message |
| `GlobalExceptionHandler.HandleUserNotFoundException` | src/main/java/com/github/odyn666/atiperaRecrutationTask/exception/GlobalExceptionHandler.java:18-22 | the HTTP status is the exception's stored status and the body is its stored status and message |
| `GlobalExceptionHandler.HandleGeneralException` | src/main/java/com/github/odyn666/atiperaRecrutationTask/exception/GlobalExceptionHandler.java:24-28 | any other exception gives status 500 and a body carrying its message verbatim |
| `GlobalExceptionHandler.Handle` | src/main/java/com/github/odyn666/atiperaRecrutationTask/exception/GlobalExceptionHandler.java:12-28 | each exception kind reaches its own handler and, in every case, the body's status equals the HTTP status |
| `Endpoint.Serve` | src/main/java/com/github/odyn666/atiperaRecrutationTask/controller/GitHubTaskController.java:34 | a repository-list response is 200 and carries exactly the controller's result; an error response is the entity the exception handler builds for the exception the controller threw, with the body status equal to the HTTP status |
| `Endpoint.ServeBadHeader` | src/main/java/com/github/odyn666/atiperaRecrutationTask/controller/GitHubTaskController.java:27-28 | a wrong Accept header ends as 404 with body (404, "INVALID ACCEPT HEADER") |
| `Endpoint.ServeUserNotFound` | src/main/java/com/github/odyn666/atiperaRecrutationTask/controller/GitHubTaskController.java:31 | a null user payload ends as 404 with body (404, "USER NOT FOUND") |
| `Endpoint.ServeUpstreamFault` | src/main/java/com/github/odyn666/atiperaRecrutationTask/exception/GlobalExceptionHandler.java:24-28 | an exception from the user lookup or the repository fetch ends as 500 with that exception's message |
| `Endpoint.ServeBranchFault` | src/main/java/com/github/odyn666/atiperaRecrutationTask/service/GitHubService.java:54-60 | when a qualifying repository's branch fetch is the first to throw, the response is 500 carrying that exception's message |
| `Endpoint.ServeSuccess` | src/main/java/com/github/odyn666/atiperaRecrutationTask/controller/GitHubTaskController.java:31-34 | for an existing user the response is 200 if and only if `getDTOs` for the login completes, and its body is exactly that list (an empty list gives an empty body) |
| `Endpoint.ServeStatuses` | src/main/java/com/github/odyn666/atiperaRecrutationTask/exception/GlobalExceptionHandler.java:12-28 | every response is 200, 404 or 500; an error body's status equals the response status; 200 exactly when the body is the repository list |
| `Endpoint.ServeNullRepositories` | src/main/java/com/github/odyn666/atiperaRecrutationTask/service/GitHubService.java:50-62 | a null upstream repository array for an existing user ends as 200 with an empty list |
| `Endpoint.ServeScenario` | src/main/java/com/github/odyn666/atiperaRecrutationTask/service/GitHubService.java:46-63 | one non-fork repository "repo1" owned by "odyn666" with branch "main" at "abc" gives 200 with exactly that DTO |

## Left out

- HTTP transport, URL building and `RestTemplate` JSON deserialisation: replaced by the three oracle functions of `Upstream.GitHubApi`; no timeout, retry or connection behaviour is modelled.
- Spring wiring: routing, request-parameter binding (for a missing `username` parameter or `Accept` header Spring throws an exception, which the general handler at GlobalExceptionHandler.java:24-28 turns into a 500 carrying Spring's message; the model takes both as strings), content negotiation and JSON serialisation of the response (`Serve` gives the handler's entity as built and assumes its body can be written for the request's Accept value; for an Accept value that excludes JSON, such as `text/html`, Spring may answer differently from the 404 with a JSON body that `Endpoint.ServeBadHeader` states), Lombok builders, getters and setters.
- A repository with a null `owner` (a NullPointerException at GitHubService.java:52) and a user payload with a null `login`: owners and logins are always strings. A null username passed to `getDTOs` is modelled.
- `HttpStatus.valueOf` throws for a status code it does not know; every exception the controller builds stores 404, so the handlers take the stored status as is.
- `Exception.getMessage()` can be null; the general handler's message is modelled as a string.
- The class hierarchy of exceptions beyond the three handled kinds: every exception other than the two domain ones reaches `handleGeneralException`.
- `Model.Branch`, `Model.Commit`, `Model.User` and `Model.ErrorResponse` keep only the fields the service and its tests use (`Branch(name, commit(sha))`, `User(login)`, `ErrorResponse(status, message)`); the other fields of the upstream JSON and of BranchModel.java, CommitModel.java, GitHubUserModel.java and ErrorResponse.java are dropped.
- The live-server tests in GithubServiceTest.java:89-148, which call a running service.
