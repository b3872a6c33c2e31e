/** Client code: command sequences modelled on the app's unit tests,
    checked against the view-models' and coordinators' contracts alone. */
module Scenarios {
  import opened Errors
  import opened Models
  import opened UsersListScreen
  import UserDetailScreen
  import Coordinators

  /** viewDidLoad gives the mock users 1..3 and loadMore gives the mock
      users 1..2 again: the page is asked for after id 3, a second loadMore
      while it is in flight asks for nothing, and the five users accumulate
      as they came; a refresh starts again from 0. */
  method PaginationScenario() {
    var u1, u2, u3 := User(1, "user1", "a1"), User(2, "user2", "a2"), User(3, "user3", "a3");
    var vm := new UsersListViewModel();
    var first := vm.ViewDidLoad();
    assert first == UsersRequest(30, 0, false);
    vm.CompleteFetchUsers(first, Success([u1, u2, u3]));
    assert vm.notifications == [Loading, Loaded([u1, u2, u3])];
    var more := vm.LoadMoreUsers();
    assert more == Some(UsersRequest(30, 3, true));
    var again := vm.LoadMoreUsers();
    assert again == None;
    vm.CompleteFetchUsers(more.value, Success([u1, u2]));
    assert vm.state == LoadedMore([u1, u2, u3, u1, u2]);
    assert |vm.currentUsers| == 5;
    assert !vm.isLoadingMore;
    var refresh := vm.RefreshUsers();
    assert refresh.since == 0 && vm.currentUsers == [];
  }

  /** loadMore after a failed first load asks for nothing. */
  method LoadMoreAfterErrorScenario() {
    var vm := new UsersListViewModel();
    var first := vm.ViewDidLoad();
    vm.CompleteFetchUsers(first, Failure(Network(NoData)));
    assert vm.state == Error(FetchUsersFailedMessage);
    var more := vm.LoadMoreUsers();
    assert more == None && vm.state.Error?;
  }

  /** Search over an accumulated list, then cancel: the accumulated list
      comes back as it was, without a fetch. */
  method CancelSearchScenario(query: string, u1: User, u2: User, s1: User)
    requires !AllWhitespace(query)
  {
    var vm := new UsersListViewModel();
    var first := vm.ViewDidLoad();
    vm.CompleteFetchUsers(first, Success([u1]));
    var more := vm.LoadMoreUsers();
    vm.CompleteFetchUsers(more.value, Success([u2]));
    assert [u1] + [u2] == [u1, u2];
    assert vm.state == LoadedMore([u1, u2]);
    var search := vm.SearchUsers(query);
    assert search == Some(SearchRequest(query, 30));
    vm.CompleteSearch(Success([s1]));
    assert vm.state == Loaded([s1]) && !vm.isSearching;
    vm.CancelSearch();
    assert vm.state == Loaded([u1, u2]) && vm.currentUsers == [u1, u2];
  }

  /** A whitespace-only query issues no request and announces nothing. */
  method BlankSearchScenario() {
    var vm := new UsersListViewModel();
    var search := vm.SearchUsers("   ");
    assert search == None && vm.notifications == [] && vm.state == Loading;
  }

  /** Search results are shown but never become the accumulated list: a
      loadMore during a shown search pages on from the list before it. */
  method LoadMoreDuringSearchScenario(query: string, u1: User, u2: User, s1: User)
    requires !AllWhitespace(query)
  {
    var vm := new UsersListViewModel();
    var first := vm.ViewDidLoad();
    vm.CompleteFetchUsers(first, Success([u1]));
    assert vm.currentUsers == [u1] && !vm.isLoadingMore;
    var search := vm.SearchUsers(query);
    assert vm.currentUsers == [u1] && !vm.isLoadingMore;
    vm.CompleteSearch(Success([s1]));
    assert vm.state == Loaded([s1]) && vm.currentUsers == [u1] && !vm.isLoadingMore;
    var more := vm.LoadMoreUsers();
    assert more == Some(UsersRequest(30, u1.id, true));
    vm.CompleteFetchUsers(more.value, Success([u2]));
    assert vm.state == LoadedMore([u1, u2]);
  }

  /** A completed search clears `isSearching`, so a second search keeps the
      first search's results as the snapshot, and cancelling then brings
      those back rather than the list shown before searching. */
  method SecondSearchScenario(a: string, b: string, u1: User, s1: User, s2: User)
    requires !AllWhitespace(a) && !AllWhitespace(b)
  {
    var vm := new UsersListViewModel();
    var first := vm.ViewDidLoad();
    vm.CompleteFetchUsers(first, Success([u1]));
    var searchA := vm.SearchUsers(a);
    vm.CompleteSearch(Success([s1]));
    var searchB := vm.SearchUsers(b);
    vm.CompleteSearch(Success([s2]));
    vm.CancelSearch();
    assert vm.state == Loaded([s1]);
  }

  /** Overlapping primary fetches are not ordered: the answer that arrives
      last decides the state, even for the older request. */
  method LastCompletionWinsScenario(query: string, u1: User, s1: User)
    requires !AllWhitespace(query)
  {
    var vm := new UsersListViewModel();
    var first := vm.ViewDidLoad();
    var search := vm.SearchUsers(query);
    assert vm.notifications == [Loading, Loading];
    vm.CompleteSearch(Success([s1]));
    assert vm.notifications == [Loading, Loading, Loaded([s1])];
    vm.CompleteFetchUsers(first, Success([u1]));
    assert vm.state == Loaded([u1]);
    assert vm.notifications == [Loading, Loading, Loaded([s1]), Loaded([u1])];
  }

  /** The detail screen: a failed detail call ends the cycle without asking
      for repositories; a failed repositories call falls back to an empty list. */
  method UserDetailScenario(detail: Models.UserDetail) {
    var vm := new UserDetailScreen.UserDetailViewModel("octocat");
    var request := vm.ViewDidLoad();
    assert request == UserDetailScreen.DetailRequest("octocat");
    var next := vm.ResumeWithUserDetail(Failure(Network(ServerError(404))));
    assert next == None && vm.state == UserDetailScreen.Error(UserDetailScreen.FailedToFetchUserInfo);
    request := vm.RefreshData();
    next := vm.ResumeWithUserDetail(Success(detail));
    assert next.Some? && next.value.request == UserDetailScreen.RepositoriesRequest("octocat", 30);
    vm.ResumeWithRepositories(next.value, Failure(Network(DecodingError)));
    assert vm.state == UserDetailScreen.Loaded(detail, []);
    assert |vm.notifications| == 4;
  }

  /** The root coordinator removes one of two identical children; a flow
      coordinator removes both. */
  method CoordinatorScenario() {
    var app := new Coordinators.AppCoordinator();
    var usersList := app.Start();
    assert app.childCoordinators == [usersList];
    var child := new Coordinators.FlowCoordinator(Coordinators.UserDetailFlow("octocat"));
    app.AddChildCoordinator(child);
    app.AddChildCoordinator(child);
    app.RemoveChildCoordinator(child);
    Coordinators.RemoveFirstSplit([usersList], [child], child);
    assert app.childCoordinators == [usersList, child];
    usersList.AddChildCoordinator(child);
    usersList.AddChildCoordinator(child);
    usersList.RemoveChildCoordinator(child);
    assert child !in usersList.childCoordinators;
  }
}
