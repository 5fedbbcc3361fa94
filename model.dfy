/** Data shapes of the service: the upstream GitHub payloads, the response DTO,
    the two domain exceptions and the error body the handlers build. */
module Model {

  /** A Java reference that may be null: None stands for null. */
  datatype Option<T> = None | Some(value: T)

  /** GitHubUserModel: the user payload; only the login is used. */
  datatype User = User(login: string)

  /** CommitModel and BranchModel: one branch of a repository. */
  datatype Commit = Commit(sha: string)
  datatype Branch = Branch(name: string, commit: Commit)

  /** GitHubRepositoryModel as a value. `branches` is null (None) as
      deserialised from the repository list and set by the service. */
  datatype Repo = Repo(name: string, fork: bool, branches: Option<seq<Branch>>, owner: User)

  /** GitHubDTO, the record returned to the client. */
  datatype GitHubDTO = GitHubDTO(RepositoryName: string, ownerLogin: string, branch: Option<seq<Branch>>)

  /** The status codes the controller and the handlers use. */
  const HttpOk := 200
  const HttpNotFound := 404
  const HttpInternalServerError := 500

  /** BadHeaderException and UserNotFoundException each store a status and a message. */
  datatype BadHeaderException = BadHeaderException(status: int, message: string)
  datatype UserNotFoundException = UserNotFoundException(status: int, message: string)

  /** What a call can throw: one of the two domain exceptions, or any other
      exception (an upstream client error, a transport failure) with its message. */
  datatype Failure =
    | BadHeader(badHeader: BadHeaderException)
    | UserNotFound(notFound: UserNotFoundException)
    | Error(message: string)

  /** A Java call either returns a value or throws. */
  datatype Result<T> = Ok(value: T) | Throw(failure: Failure)

  /** ErrorResponse, the JSON error body `{status, message}`. */
  datatype ErrorResponse = ErrorResponse(status: int, message: string)

  /** GitHubRepositoryModel as the mutable object the service updates in place. */
  class RepositoryModel {
    var name: string
    var fork: bool
    var branches: Option<seq<Branch>>
    var owner: User

    constructor (name: string, fork: bool, branches: Option<seq<Branch>>, owner: User)
      ensures Value() == Repo(name, fork, branches, owner)
    {
      this.name := name;
      this.fork := fork;
      this.branches := branches;
      this.owner := owner;
    }

    /** The object's current field values. */
    function Value(): Repo
      reads this
    {
      Repo(name, fork, branches, owner)
    }
  }
}
