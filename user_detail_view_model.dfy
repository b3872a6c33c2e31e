/** The user-detail screen's view-model: one state field, driven by a fetch
    cycle of two sequential repository calls with a fallback. The cycle's
    task is split at each suspension point: start, resume after the detail
    call, resume after the repositories call. */
module UserDetailScreen {
  import opened Errors
  import opened Models

  datatype UserDetailState =
    | Loading
    | Loaded(userDetail: Models.UserDetail, repositories: seq<Repository>)
    | Error(message: string)

  /** `repository.fetchUserDetail(username:)` */
  datatype DetailRequest = DetailRequest(username: string)

  /** `repository.fetchRepositories(username:perPage:)` */
  datatype RepositoriesRequest = RepositoriesRequest(username: string, perPage: int)

  /** A cycle suspended on its second call: the detail already fetched and
      the request now in flight. */
  datatype AwaitingRepositories = AwaitingRepositories(userDetail: Models.UserDetail, request: RepositoriesRequest)

  /** Repositories per page, the GitHub API's default. */
  const ReposPerPage: int := 30

  /** The localization key of the failure message. */
  const FailedToFetchUserInfo: string := "error.failed.user.info"

  /** The state a fetch cycle ends in, given the answers to its two calls
      (the second answer is not consulted when the first call failed). */
  function CycleOutcome(detail: Result<Models.UserDetail>, repositories: Result<seq<Repository>>)
    : (s: UserDetailState)
    ensures !s.Loading?
    ensures s.Error? <==> detail.Failure?
    ensures s.Error? ==> s.message == FailedToFetchUserInfo
    ensures s.Loaded? ==> s.userDetail == detail.value
    ensures (detail.Success? && repositories.Success?) ==> s.repositories == repositories.value
    ensures (detail.Success? && repositories.Failure?) ==> s.repositories == []
  {
    match detail
    case Failure(_) => Error(FailedToFetchUserInfo)
    case Success(d) =>
      match repositories
      case Success(repos) => Loaded(d, repos)
      case Failure(_) => Loaded(d, [])
  }

  class UserDetailViewModel {
    const username: string
    var state: UserDetailState
    /** Every value handed to `onStateChanged`, in order. */
    var notifications: seq<UserDetailState>

    /** The state is always the last value announced, or the initial
        `loading` before any announcement. */
    ghost predicate Valid()
      reads this
    {
      && (notifications == [] ==> state == Loading)
      && (notifications != [] ==> state == notifications[|notifications| - 1])
    }

    constructor (username: string)
      ensures Valid()
      ensures this.username == username && state == Loading && notifications == []
    {
      this.username := username;
      state := Loading;
      notifications := [];
    }

    /** Assigns the state, then notifies the observer once with it. */
    method UpdateState(newState: UserDetailState)
      modifies this
      ensures state == newState
      ensures notifications == old(notifications) + [newState]
    {
      state := newState;
      notifications := notifications + [state];
    }

    /** The start of `fetchUserData`: announces `loading` and asks for the detail. */
    method FetchUserData() returns (request: DetailRequest)
      requires Valid()
      modifies this
      ensures Valid()
      ensures request == DetailRequest(username)
      ensures state == Loading && notifications == old(notifications) + [Loading]
    {
      UpdateState(Loading);
      request := DetailRequest(username);
    }

    method ViewDidLoad() returns (request: DetailRequest)
      requires Valid()
      modifies this
      ensures Valid()
      ensures request == DetailRequest(username)
      ensures state == Loading && notifications == old(notifications) + [Loading]
    {
      request := FetchUserData();
    }

    /** The same cycle as `viewDidLoad`. */
    method RefreshData() returns (request: DetailRequest)
      requires Valid()
      modifies this
      ensures Valid()
      ensures request == DetailRequest(username)
      ensures state == Loading && notifications == old(notifications) + [Loading]
    {
      request := FetchUserData();
    }

    /** The cycle resumes with the detail call's answer. A failure ends the
        cycle in the error state and the repositories are never asked for;
        a success changes nothing yet and asks for the same user's
        repositories. */
    method ResumeWithUserDetail(detail: Result<Models.UserDetail>) returns (next: Option<AwaitingRepositories>)
      requires Valid()
      modifies this
      ensures Valid()
      ensures detail.Failure? ==>
                next == None && state == Error(FailedToFetchUserInfo)
                && notifications == old(notifications) + [state]
      ensures detail.Success? ==>
                next == Some(AwaitingRepositories(detail.value, RepositoriesRequest(username, ReposPerPage)))
                && state == old(state) && notifications == old(notifications)
    {
      match detail
      case Failure(_) =>
        UpdateState(Error(FailedToFetchUserInfo));
        next := None;
      case Success(userDetail) =>
        next := Some(AwaitingRepositories(userDetail, RepositoriesRequest(username, ReposPerPage)));
    }

    /** The cycle resumes with the repositories call's answer and ends in
        `loaded`; a failure falls back to an empty repository list. */
    method ResumeWithRepositories(pending: AwaitingRepositories, repositories: Result<seq<Repository>>)
      requires Valid()
      modifies this
      ensures Valid()
      ensures state == CycleOutcome(Success(pending.userDetail), repositories)
      ensures notifications == old(notifications) + [state]
    {
      match repositories
      case Success(repos) => UpdateState(Loaded(pending.userDetail, repos));
      case Failure(_) => UpdateState(Loaded(pending.userDetail, []));
    }

    /** One whole cycle run without interruption, given the repository's two
        answers: exactly two announcements, `loading` and then the outcome. */
    method RunFetchCycle(detail: Result<Models.UserDetail>, repositories: Result<seq<Repository>>)
      requires Valid()
      modifies this
      ensures Valid()
      ensures state == CycleOutcome(detail, repositories)
      ensures notifications == old(notifications) + [Loading, state]
    {
      var request := FetchUserData();
      var next := ResumeWithUserDetail(detail);
      if next.Some? {
        ResumeWithRepositories(next.value, repositories);
      }
    }
  }
}
