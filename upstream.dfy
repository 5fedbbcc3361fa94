/** The upstream GitHub REST API, seen only through what its three GET
    resources answer. Nothing about URLs or transport is modelled: each
    resource is an oracle function from its path parameters to a reply. */
module Upstream {
  import opened Model

  /** What `RestTemplate.getForObject` gives back: a deserialised body, which
      may be null (None), or an exception it throws (a 4xx/5xx client error or
      a transport failure), carrying its message. */
  datatype Reply<T> = Body(payload: Option<T>) | Fault(message: string)

  /** The three upstream resources. The repository list is keyed by the
      username as the service passes it, null included. This is more general
      than the service: it builds the URL by string concatenation, so a null
      username and the string "null" request the same resource, whereas here
      `repos(None)` need not equal `repos(Some("null"))`. */
  datatype GitHubApi = GitHubApi(
    user: string -> Reply<User>,
    repos: Option<string> -> Reply<seq<Repo>>,
    branches: (string, string) -> Reply<seq<Branch>>)

  /** One outbound GET, recorded in the order the service issues it. */
  datatype Call =
    | FetchUser(username: string)
    | FetchRepos(login: Option<string>)
    | FetchBranches(owner: string, repo: string)

  /** The outcome of a service operation and the upstream calls it made. */
  datatype Run<T> = Run(result: Result<T>, calls: seq<Call>)

}
