/** The users-list screen's view-model: a tagged state, two flags, the
    accumulated list and the pre-search snapshot, driven by five commands.
    Each command that starts a `Task` is split in two: the start method runs
    the synchronous prefix and returns the repository request it issues (or
    None when a guard returns early), and a completion method runs the body
    that is marshalled back to the main actor, given the repository's answer.
    A caller may complete requests in any order, so last-completion-wins
    races are expressible. */
module UsersListScreen {
  import opened Errors
  import opened Models

  datatype UsersListState =
    | Loading
    | Loaded(users: seq<User>)
    | LoadingMore
    | LoadedMore(users: seq<User>)
    | Error(message: string)

  /** The `repository.fetchUsers(perPage:since:)` call a fetch task makes,
      and whether that task appends a page. */
  datatype UsersRequest = UsersRequest(perPage: int, since: int, isPaginating: bool)

  /** The `repository.searchUsers(query:perPage:)` call a search task makes. */
  datatype SearchRequest = SearchRequest(query: string, perPage: int)

  /** Users per page, the GitHub API's default. */
  const UsersPerPage: int := 30

  /** The localization keys of the two failure messages. */
  const FetchUsersFailedMessage: string := "error.failed.fetch.users"
  const SearchFailedMessage: string := "error.failed.search"

  /** Swift's `CharacterSet.whitespacesAndNewlines`: the Unicode White_Space characters. */
  predicate IsWhitespaceOrNewline(c: char) {
    var n := c as int;
    (0x09 <= n <= 0x0D) || n == 0x20 || n == 0x85 || n == 0xA0 || n == 0x1680
    || (0x2000 <= n <= 0x200A) || n == 0x2028 || n == 0x2029 || n == 0x202F
    || n == 0x205F || n == 0x3000
  }

  /** `s` without its leading whitespace. */
  function TrimLeading(s: string): (r: string)
    ensures |r| <= |s| && r == s[|s| - |r|..]
    ensures forall i :: 0 <= i < |s| - |r| ==> IsWhitespaceOrNewline(s[i])
    ensures r != [] ==> !IsWhitespaceOrNewline(r[0])
  {
    if s != [] && IsWhitespaceOrNewline(s[0]) then TrimLeading(s[1..]) else s
  }

  /** `s` without its trailing whitespace. */
  function TrimTrailing(s: string): (r: string)
    ensures |r| <= |s| && r == s[..|r|]
    ensures forall i :: |r| <= i < |s| ==> IsWhitespaceOrNewline(s[i])
    ensures r != [] ==> !IsWhitespaceOrNewline(r[|r| - 1])
  {
    if s != [] && IsWhitespaceOrNewline(s[|s| - 1]) then TrimTrailing(s[..|s| - 1]) else s
  }

  /** `s.trimmingCharacters(in: .whitespacesAndNewlines)` */
  function Trimmed(s: string): string {
    TrimTrailing(TrimLeading(s))
  }

  /** The search guard: the query trims to nothing. */
  predicate IsBlank(query: string) {
    Trimmed(query) == []
  }

  /** Every character of the query is whitespace or a newline. */
  predicate AllWhitespace(query: string) {
    forall i :: 0 <= i < |query| ==> IsWhitespaceOrNewline(query[i])
  }

  /** A query is blank exactly when every character of it is whitespace or a newline. */
  lemma IsBlankIff(query: string)
    ensures IsBlank(query) <==> AllWhitespace(query)
  {
    var lead := TrimLeading(query);
    if lead != [] {
      assert !IsWhitespaceOrNewline(query[|query| - |lead|]);
    }
  }

  class UsersListViewModel {
    var state: UsersListState
    var isLoadingMore: bool
    var isSearching: bool
    /** The accumulated list that pagination appends to. */
    var currentUsers: seq<User>
    /** The list shown before the current search began. */
    var originalUsers: seq<User>
    /** Every value handed to `onStateChanged`, in order. */
    var notifications: seq<UsersListState>

    /** The state is always the last value announced (or the initial
        `loading` before any announcement), and a `loadedMore` state always
        shows exactly the accumulated list. */
    ghost predicate Valid()
      reads this
    {
      && (state.LoadedMore? ==> state.users == currentUsers)
      && (notifications == [] ==> state == Loading)
      && (notifications != [] ==> state == notifications[|notifications| - 1])
    }

    /** The three guards of `loadMoreUsers`: no page in flight, a loaded
        state, and a last user to take the cursor from. */
    predicate CanLoadMore()
      reads this
    {
      !isLoadingMore && (state.Loaded? || state.LoadedMore?) && currentUsers != []
    }

    constructor ()
      ensures Valid()
      ensures state == Loading && !isLoadingMore && !isSearching
      ensures currentUsers == [] && originalUsers == [] && notifications == []
    {
      state := Loading;
      isLoadingMore := false;
      isSearching := false;
      currentUsers := [];
      originalUsers := [];
      notifications := [];
    }

    /** Assigns the state, then notifies the observer once with that value. */
    method UpdateState(newState: UsersListState)
      modifies this`state, this`notifications
      ensures state == newState
      ensures notifications == old(notifications) + [newState]
    {
      state := newState;
      notifications := notifications + [newState];
    }

    /** The synchronous prefix of `fetchUsers(since:isPaginating:)`: a
        first-page fetch announces `loading`; a page append announces nothing
        here. */
    method FetchUsers(since: int, isPaginating: bool) returns (request: UsersRequest)
      modifies this`state, this`notifications
      ensures request == UsersRequest(UsersPerPage, since, isPaginating)
      ensures !isPaginating ==> state == Loading && notifications == old(notifications) + [Loading]
      ensures isPaginating ==> state == old(state) && notifications == old(notifications)
    {
      if !isPaginating {
        UpdateState(Loading);
      }
      request := UsersRequest(UsersPerPage, since, isPaginating);
    }

    method ViewDidLoad() returns (request: UsersRequest)
      requires Valid()
      modifies this`state, this`notifications
      ensures Valid()
      ensures request == UsersRequest(UsersPerPage, 0, false)
      ensures state == Loading && notifications == old(notifications) + [Loading]
    {
      request := FetchUsers(0, false);
    }

    /** Like `viewDidLoad`, after emptying the accumulated list. */
    method RefreshUsers() returns (request: UsersRequest)
      requires Valid()
      modifies this`currentUsers, this`state, this`notifications
      ensures Valid()
      ensures request == UsersRequest(UsersPerPage, 0, false)
      ensures currentUsers == []
      ensures state == Loading && notifications == old(notifications) + [Loading]
    {
      currentUsers := [];
      request := FetchUsers(0, false);
    }

    /** Requests the page after the last accumulated user, unless a guard
        returns early, in which case nothing changes and nothing is requested. */
    method LoadMoreUsers() returns (request: Option<UsersRequest>)
      requires Valid()
      modifies this`isLoadingMore, this`state, this`notifications
      ensures Valid()
      ensures !old(CanLoadMore()) ==>
                request == None && isLoadingMore == old(isLoadingMore)
                && state == old(state) && notifications == old(notifications)
      ensures old(CanLoadMore()) ==>
                request == Some(UsersRequest(UsersPerPage, old(currentUsers)[|old(currentUsers)| - 1].id, true))
                && isLoadingMore && state == LoadingMore
                && notifications == old(notifications) + [LoadingMore]
    {
      if isLoadingMore {
        return None;
      }
      match state {
        case Loaded(_) =>
        case LoadedMore(_) =>
        case _ => return None;
      }
      if currentUsers == [] {
        return None;
      }
      var lastUserId := currentUsers[|currentUsers| - 1].id;
      isLoadingMore := true;
      UpdateState(LoadingMore);
      var r := FetchUsers(lastUserId, true);
      request := Some(r);
    }

    /** The main-actor body of a fetch task, given the repository's answer. */
    method CompleteFetchUsers(request: UsersRequest, result: Result<seq<User>>)
      requires Valid()
      modifies this`isLoadingMore, this`currentUsers, this`state, this`notifications
      ensures Valid()
      ensures !isLoadingMore
      ensures (result.Success? && request.isPaginating) ==>
                currentUsers == old(currentUsers) + result.value && state == LoadedMore(currentUsers)
      ensures (result.Success? && !request.isPaginating) ==>
                currentUsers == result.value && state == Loaded(result.value)
      ensures result.Failure? ==>
                currentUsers == old(currentUsers) && state == Error(FetchUsersFailedMessage)
      ensures notifications == old(notifications) + [state]
    {
      match result
      case Success(newUsers) =>
        isLoadingMore := false;
        if request.isPaginating {
          currentUsers := currentUsers + newUsers;
          UpdateState(LoadedMore(currentUsers));
        } else {
          currentUsers := newUsers;
          UpdateState(Loaded(newUsers));
        }
      case Failure(_) =>
        isLoadingMore := false;
        UpdateState(Error(FetchUsersFailedMessage));
    }

    /** Starts a search, unless the query is blank. The list on screen is
        kept as the snapshot only when no search is already active and a
        list is on screen. */
    method SearchUsers(query: string) returns (request: Option<SearchRequest>)
      requires Valid()
      modifies this`originalUsers, this`isSearching, this`state, this`notifications
      ensures Valid()
      ensures AllWhitespace(query) ==>
                request == None && originalUsers == old(originalUsers) && isSearching == old(isSearching)
                && state == old(state) && notifications == old(notifications)
      ensures !AllWhitespace(query) ==>
                request == Some(SearchRequest(query, UsersPerPage))
                && isSearching && state == Loading
                && notifications == old(notifications) + [Loading]
                && originalUsers == (if !old(isSearching) && (old(state).Loaded? || old(state).LoadedMore?)
                                     then old(state).users else old(originalUsers))
    {
      IsBlankIff(query);
      if IsBlank(query) {
        return None;
      }
      if !isSearching {
        match state {
          case Loaded(users) => originalUsers := users;
          case LoadedMore(users) => originalUsers := users;
          case _ =>
        }
      }
      isSearching := true;
      UpdateState(Loading);
      request := Some(SearchRequest(query, UsersPerPage));
    }

    /** The main-actor body of a search task. The results are shown but are
        not made the accumulated list. */
    method CompleteSearch(result: Result<seq<User>>)
      requires Valid()
      modifies this`isSearching, this`state, this`notifications
      ensures Valid()
      ensures !isSearching
      ensures result.Success? ==> state == Loaded(result.value)
      ensures result.Failure? ==> state == Error(SearchFailedMessage)
      ensures notifications == old(notifications) + [state]
    {
      isSearching := false;
      match result
      case Success(searchResults) => UpdateState(Loaded(searchResults));
      case Failure(_) => UpdateState(Error(SearchFailedMessage));
    }

    /** Restores the snapshot, unless there is neither an active search nor
        a snapshot. */
    method CancelSearch()
      requires Valid()
      modifies this`isSearching, this`currentUsers, this`state, this`notifications
      ensures Valid()
      ensures (!old(isSearching) && originalUsers == []) ==>
                isSearching == old(isSearching) && currentUsers == old(currentUsers)
                && state == old(state) && notifications == old(notifications)
      ensures (old(isSearching) || originalUsers != []) ==>
                !isSearching && currentUsers == originalUsers && state == Loaded(originalUsers)
                && notifications == old(notifications) + [Loaded(originalUsers)]
    {
      if !isSearching && originalUsers == [] {
        return;
      }
      isSearching := false;
      currentUsers := originalUsers;
      UpdateState(Loaded(originalUsers));
    }
  }
}
