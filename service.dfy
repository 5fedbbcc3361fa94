/** GitHubService: user validation, branch fetching, and the repository
    pipeline that filters the upstream list and attaches branches. */
module GitHubService {
  import opened Model
  import opened Upstream
  import opened Sequences

  /** validateUsername: `Optional.ofNullable` of the user payload. A null body
      is the only way to get an empty Optional; a thrown fetch propagates. */
  function ValidateUsername(api: GitHubApi, username: string): (run: Run<Option<User>>)
    ensures run.calls == [FetchUser(username)]
    ensures run.result.Ok? <==> api.user(username).Body?
    ensures run.result == Ok(None) <==> api.user(username) == Body(None)
    ensures api.user(username).Body? && api.user(username).payload.Some? ==>
              run.result == Ok(Some(api.user(username).payload.value))
    ensures api.user(username).Fault? ==>
              run.result == Throw(Error(api.user(username).message))
  {
    match api.user(username)
    case Fault(m) => Run(Throw(Error(m)), [FetchUser(username)])
    case Body(user) => Run(Ok(user), [FetchUser(username)])
  }

  /** getBranches: the upstream branch list, with a null body read as no branches. */
  function GetBranches(api: GitHubApi, owner: string, repoName: string): (run: Run<seq<Branch>>)
    ensures run.calls == [FetchBranches(owner, repoName)]
    ensures run.result.Ok? <==> api.branches(owner, repoName).Body?
    ensures api.branches(owner, repoName) == Body(None) ==> run.result == Ok([])
    ensures api.branches(owner, repoName).Body? && api.branches(owner, repoName).payload.Some? ==>
              run.result == Ok(api.branches(owner, repoName).payload.value)
    ensures api.branches(owner, repoName).Fault? ==>
              run.result == Throw(Error(api.branches(owner, repoName).message))
  {
    match api.branches(owner, repoName)
    case Fault(m) => Run(Throw(Error(m)), [FetchBranches(owner, repoName)])
    case Body(None) => Run(Ok([]), [FetchBranches(owner, repoName)])
    case Body(Some(branches)) => Run(Ok(branches), [FetchBranches(owner, repoName)])
  }

  /** The effect of addBranchesToGithubRepository on the repository's value:
      its branches become the fetched list; nothing else changes. */
  function EnrichRepository(api: GitHubApi, r: Repo): (run: Run<Repo>)
    ensures run.calls == [FetchBranches(r.owner.login, r.name)]
    ensures run.result.Ok? <==> GetBranches(api, r.owner.login, r.name).result.Ok?
    ensures run.result.Ok? ==>
              run.result.value.name == r.name && run.result.value.fork == r.fork &&
              run.result.value.owner == r.owner && run.result.value.branches.Some? &&
              GetBranches(api, r.owner.login, r.name).result == Ok(run.result.value.branches.value)
    ensures run.result.Throw? ==> GetBranches(api, r.owner.login, r.name).result == Throw(run.result.failure)
  {
    var fetched := GetBranches(api, r.owner.login, r.name);
    match fetched.result
    case Throw(f) => Run(Throw(f), fetched.calls)
    case Ok(branches) => Run(Ok(r.(branches := Some(branches))), fetched.calls)
  }

  /** addBranchesToGithubRepository: fetch the branches, store them in the
      repository object with its setter, and return the same object. When the
      fetch throws, the object is left as it was. */
  method AddBranchesToGithubRepository(api: GitHubApi, repository: RepositoryModel)
      returns (outcome: Result<RepositoryModel>, calls: seq<Call>)
    modifies repository
    ensures calls == EnrichRepository(api, old(repository.Value())).calls
    ensures outcome.Ok? <==> EnrichRepository(api, old(repository.Value())).result.Ok?
    ensures outcome.Ok? ==>
              outcome.value == repository &&
              repository.Value() == EnrichRepository(api, old(repository.Value())).result.value
    ensures outcome.Throw? ==>
              outcome.failure == EnrichRepository(api, old(repository.Value())).result.failure &&
              repository.Value() == old(repository.Value())
  {
    var fetched := GetBranches(api, repository.owner.login, repository.name);
    calls := fetched.calls;
    match fetched.result
    case Throw(f) =>
      outcome := Throw(f);
    case Ok(branches) =>
      repository.branches := Some(branches);
      outcome := Ok(repository);
  }

  /** The first filter of getDTOs: the owner's login equals the username.
      `String.equals(null)` is false, so a null username keeps nothing. */
  function OwnedBy(username: Option<string>): (keep: Repo -> bool)
    ensures username.None? ==> forall r: Repo :: !keep(r)
    ensures username.Some? ==> forall r: Repo :: keep(r) <==> r.owner.login == username.value
  {
    (r: Repo) => username == Some(r.owner.login)
  }

  /** The second filter of getDTOs: the repository is not a fork. */
  function NotFork(): (keep: Repo -> bool)
    ensures forall r: Repo :: keep(r) <==> !r.fork
  {
    (r: Repo) => !r.fork
  }

  /** Both filters: the repositories getDTOs reports. */
  function Qualifies(username: Option<string>): (keep: Repo -> bool)
  {
    And(OwnedBy(username), NotFork())
  }

  /** True when fetching this repository's branches throws. */
  predicate BranchFetchFails(api: GitHubApi, r: Repo)
  {
    api.branches(r.owner.login, r.name).Fault?
  }

  /** What a DTO says about its repository: name and owner login copied verbatim,
      and a non-null branch list equal to what getBranches returns for it. */
  predicate Describes(api: GitHubApi, d: GitHubDTO, r: Repo)
  {
    && d.RepositoryName == r.name
    && d.ownerLogin == r.owner.login
    && d.branch.Some?
    && GetBranches(api, r.owner.login, r.name).result == Ok(d.branch.value)
  }

  /** The branch fetches for `rs`, one per repository, in order. */
  function BranchCalls(rs: seq<Repo>): (calls: seq<Call>)
    ensures |calls| == |rs|
    ensures forall k :: 0 <= k < |rs| ==> calls[k] == FetchBranches(rs[k].owner.login, rs[k].name)
  {
    if rs == [] then []
    else [FetchBranches(rs[0].owner.login, rs[0].name)] + BranchCalls(rs[1..])
  }

  /** The `map(...).toList()` stage of getDTOs: each repository in turn is
      enriched with its branches and turned into a DTO; the first fetch that
      throws aborts the stream. */
  function MapToDTOs(api: GitHubApi, rs: seq<Repo>): (run: Run<seq<GitHubDTO>>)
    ensures run.result.Ok? ==> |run.result.value| == |rs|
  {
    if rs == [] then Run(Ok([]), [])
    else
      var r := rs[0];
      var enriched := EnrichRepository(api, r);
      match enriched.result
      case Throw(f) => Run(Throw(f), enriched.calls)
      case Ok(withBranches) =>
        var rest := MapToDTOs(api, rs[1..]);
        var dto := GitHubDTO(r.name, r.owner.login, withBranches.branches);
        Run(if rest.result.Ok? then Ok([dto] + rest.result.value) else rest.result,
            enriched.calls + rest.calls)
  }

  /** getDTOs: fetch the user's repositories, keep those the username owns
      and that are not forks, and map each to a DTO with its branches. A null
      repository array gives an empty list. */
  function GetDTOs(api: GitHubApi, username: Option<string>): (run: Run<seq<GitHubDTO>>)
    ensures |run.calls| >= 1 && run.calls[0] == FetchRepos(username)
    ensures api.repos(username).Fault? ==>
              run == Run(Throw(Error(api.repos(username).message)), [FetchRepos(username)])
    ensures api.repos(username) == Body(None) ==> run == Run(Ok([]), [FetchRepos(username)])
    ensures api.repos(username) == Body(Some([])) ==> run == Run(Ok([]), [FetchRepos(username)])
    ensures run.result.Ok? && api.repos(username).Body? && api.repos(username).payload.Some? ==>
              |run.result.value| <= |api.repos(username).payload.value|
  {
    match api.repos(username)
    case Fault(m) => Run(Throw(Error(m)), [FetchRepos(username)])
    case Body(None) => Run(Ok([]), [FetchRepos(username)])
    case Body(Some(repositories)) =>
      var mapped := MapToDTOs(api, Filter(Filter(repositories, OwnedBy(username)), NotFork()));
      Run(mapped.result, [FetchRepos(username)] + mapped.calls)
  }

  /** The map stage completes if and only if no repository's branch fetch throws. */
  lemma {:induction false} MapToDTOsCompletes(api: GitHubApi, rs: seq<Repo>)
    ensures MapToDTOs(api, rs).result.Ok? <==>
              forall i :: 0 <= i < |rs| ==> !BranchFetchFails(api, rs[i])
  {
    if rs != [] {
      MapToDTOsCompletes(api, rs[1..]);
      if !MapToDTOs(api, rs).result.Ok? && !BranchFetchFails(api, rs[0]) {
        var i :| 0 <= i < |rs[1..]| && BranchFetchFails(api, rs[1..][i]);
        assert rs[i + 1] == rs[1..][i];
      }
    }
  }

  /** When the map stage completes, it fetched each repository's branches once,
      in order, and DTO k describes repository k. */
  lemma {:induction false} MapToDTOsSucceeds(api: GitHubApi, rs: seq<Repo>)
    requires MapToDTOs(api, rs).result.Ok?
    ensures MapToDTOs(api, rs).calls == BranchCalls(rs)
    ensures |MapToDTOs(api, rs).result.value| == |rs|
    ensures forall k :: 0 <= k < |rs| ==> Describes(api, MapToDTOs(api, rs).result.value[k], rs[k])
  {
    if rs != [] {
      MapToDTOsSucceeds(api, rs[1..]);
      var run, rest := MapToDTOs(api, rs), MapToDTOs(api, rs[1..]);
      assert run.result.value == [run.result.value[0]] + rest.result.value;
      forall k | 0 <= k < |rs|
        ensures Describes(api, run.result.value[k], rs[k])
      {
        if k > 0 {
          assert run.result.value[k] == rest.result.value[k - 1];
        }
      }
    }
  }

  /** When some branch fetch throws, the stream stops at the first such
      repository: its exception is the result and no later repository is fetched. */
  lemma {:induction false} MapToDTOsAbortsAtFirstFailure(api: GitHubApi, rs: seq<Repo>, j: nat)
    requires j < |rs| && BranchFetchFails(api, rs[j])
    requires forall i :: 0 <= i < j ==> !BranchFetchFails(api, rs[i])
    ensures MapToDTOs(api, rs) ==
              Run(Throw(Error(api.branches(rs[j].owner.login, rs[j].name).message)), BranchCalls(rs[..j + 1]))
  {
    if j > 0 {
      MapToDTOsAbortsAtFirstFailure(api, rs[1..], j - 1);
      assert rs[1..][..j] == rs[1..j + 1];
      assert BranchCalls(rs[..j + 1]) ==
               [FetchBranches(rs[0].owner.login, rs[0].name)] + BranchCalls(rs[1..][..j]);
    }
  }

  /** Over an upstream list `rs`, getDTOs fetches the list and then runs the map
      stage on the repositories that pass both filters. */
  lemma GetDTOsMapsQualifying(api: GitHubApi, username: Option<string>, rs: seq<Repo>)
    requires api.repos(username) == Body(Some(rs))
    ensures GetDTOs(api, username) ==
              Run(MapToDTOs(api, Filter(rs, Qualifies(username))).result,
                  [FetchRepos(username)] + MapToDTOs(api, Filter(rs, Qualifies(username))).calls)
  {
    FilterFilter(rs, OwnedBy(username), NotFork());
  }

  /** getDTOs over an upstream list `rs`: the DTOs correspond one-to-one and in
      order to the repositories that pass both filters, which sit at strictly
      increasing positions of `rs`, and every qualifying position is included. */
  lemma GetDTOsSelects(api: GitHubApi, username: Option<string>, rs: seq<Repo>)
    requires api.repos(username) == Body(Some(rs))
    ensures var idx := SelectedIndices(rs, Qualifies(username));
      && (forall k :: 0 <= k < |idx| ==> idx[k] < |rs| && Qualifies(username)(rs[idx[k]]))
      && (forall k, l :: 0 <= k < l < |idx| ==> idx[k] < idx[l])
      && (forall i :: 0 <= i < |rs| && Qualifies(username)(rs[i]) ==> i in idx)
      && (GetDTOs(api, username).result.Ok? ==>
            |GetDTOs(api, username).result.value| == |idx| &&
            forall k :: 0 <= k < |idx| ==>
              Describes(api, GetDTOs(api, username).result.value[k], rs[idx[k]]))
  {
    var kept := Filter(rs, Qualifies(username));
    var idx := SelectedIndices(rs, Qualifies(username));
    GetDTOsMapsQualifying(api, username, rs);
    FilterSelects(rs, Qualifies(username));
    var mapped := MapToDTOs(api, kept);
    if mapped.result.Ok? {
      MapToDTOsSucceeds(api, kept);
      forall k | 0 <= k < |idx|
        ensures Describes(api, mapped.result.value[k], rs[idx[k]])
      {
        assert kept[k] == rs[idx[k]];
      }
    }
  }

  /** getDTOs over an upstream list `rs` completes exactly when no repository
      that passes both filters has a branch fetch that throws; it then fetched
      the list and each such repository's branches, in upstream order. */
  lemma GetDTOsCompletes(api: GitHubApi, username: Option<string>, rs: seq<Repo>)
    requires api.repos(username) == Body(Some(rs))
    ensures GetDTOs(api, username).result.Ok? <==>
              forall i :: 0 <= i < |rs| && Qualifies(username)(rs[i]) ==> !BranchFetchFails(api, rs[i])
    ensures GetDTOs(api, username).result.Ok? ==>
              GetDTOs(api, username).calls == [FetchRepos(username)] + BranchCalls(Filter(rs, Qualifies(username)))
  {
    var kept := Filter(rs, Qualifies(username));
    GetDTOsMapsQualifying(api, username, rs);
    MapToDTOsCompletes(api, kept);
    FilterAll(rs, Qualifies(username), (r: Repo) => !BranchFetchFails(api, r));
    if GetDTOs(api, username).result.Ok? {
      MapToDTOsSucceeds(api, kept);
    }
  }

  /** Every DTO getDTOs returns is owned by the requested username (so the
      username is not null) and comes from a non-fork upstream repository of
      the same name and owner. */
  lemma GetDTOsOwnedNonForks(api: GitHubApi, username: Option<string>, d: GitHubDTO)
    requires GetDTOs(api, username).result.Ok? && d in GetDTOs(api, username).result.value
    ensures username == Some(d.ownerLogin)
    ensures api.repos(username).Body? && api.repos(username).payload.Some?
    ensures exists r :: r in api.repos(username).payload.value &&
              !r.fork && r.name == d.RepositoryName && r.owner.login == d.ownerLogin
  {
    var rs := api.repos(username).payload.value;
    GetDTOsSelects(api, username, rs);
    var dtos := GetDTOs(api, username).result.value;
    var k :| 0 <= k < |dtos| && dtos[k] == d;
    var r := rs[SelectedIndices(rs, Qualifies(username))[k]];
    assert r in rs && Qualifies(username)(r);
  }

  /** When every upstream repository is the user's own and not a fork and no
      branch fetch throws, getDTOs reports all of them, in upstream order. */
  lemma GetDTOsKeepsQualifyingInOrder(api: GitHubApi, username: Option<string>, rs: seq<Repo>)
    requires api.repos(username) == Body(Some(rs))
    requires forall i :: 0 <= i < |rs| ==> Qualifies(username)(rs[i]) && !BranchFetchFails(api, rs[i])
    ensures GetDTOs(api, username).result.Ok?
    ensures |GetDTOs(api, username).result.value| == |rs|
    ensures forall k :: 0 <= k < |rs| ==> Describes(api, GetDTOs(api, username).result.value[k], rs[k])
  {
    FilterFilter(rs, OwnedBy(username), NotFork());
    FilterKeepsAll(rs, Qualifies(username));
    MapToDTOsCompletes(api, rs);
    MapToDTOsSucceeds(api, rs);
  }

  /** A null username matches no owner login: after fetching the list, the
      result is empty and no branch is fetched (unless the list fetch throws). */
  lemma GetDTOsNullUsername(api: GitHubApi)
    requires !api.repos(None).Fault?
    ensures GetDTOs(api, None) == Run(Ok([]), [FetchRepos(None)])
  {
    if api.repos(None).payload.Some? {
      var owned := Filter(api.repos(None).payload.value, OwnedBy(None));
      if owned != [] {
        assert owned[0] in owned;
      }
    }
  }

  /** An empty username gives an empty result whenever no owner login is empty. */
  lemma GetDTOsEmptyUsername(api: GitHubApi, rs: seq<Repo>)
    requires api.repos(Some("")) == Body(Some(rs))
    requires forall i :: 0 <= i < |rs| ==> rs[i].owner.login != ""
    ensures GetDTOs(api, Some("")) == Run(Ok([]), [FetchRepos(Some(""))])
  {
    var owned := Filter(rs, OwnedBy(Some("")));
    if owned != [] {
      assert owned[0] in owned;
    }
  }

  /** getDTOs only ever throws a generic upstream exception, never one of the
      controller's two domain exceptions. */
  lemma GetDTOsFailsOnlyWithErrors(api: GitHubApi, username: Option<string>)
    ensures GetDTOs(api, username).result.Throw? ==> GetDTOs(api, username).result.failure.Error?
  {
    if api.repos(username).Body? && api.repos(username).payload.Some? {
      var rs := api.repos(username).payload.value;
      var kept := Filter(Filter(rs, OwnedBy(username)), NotFork());
      MapToDTOsFailsOnlyWithErrors(api, kept);
    }
  }

  lemma {:induction false} MapToDTOsFailsOnlyWithErrors(api: GitHubApi, rs: seq<Repo>)
    ensures MapToDTOs(api, rs).result.Throw? ==> MapToDTOs(api, rs).result.failure.Error?
  {
    if rs != [] {
      MapToDTOsFailsOnlyWithErrors(api, rs[1..]);
    }
  }
}
