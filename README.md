# GitHub user browser: the data layer and view-models, in Dafny

This project models the non-UI core of a small iOS client for the GitHub REST
API (Coordinator + MVVM over a thin HTTP client):

- **Endpoints** (`endpoint.dfy`, with `decimal.dfy` for Swift's `Int`
  interpolation and `text.dfy` for string helpers): the four endpoint cases and
  the URL string each one interpolates over the base `https://api.github.com`.
  Whether `URL(string:)` accepts a string, and percent-encoding, are Foundation
  services kept uninterpreted as fields of a `Foundation` value; an accepted
  string becomes the URL's `absoluteString` unchanged.
- **Network service** (`network_service.dfy`): `fetch` as a guard chain over
  what the URL session answered: a transport error is rethrown as it is, a
  non-HTTP response gives `noData`, a non-2xx status gives
  `serverError(status)` before the body is looked at, an undecodable body
  gives `decodingError`. JSON decoding is an uninterpreted partial function.
- **Repository** (`github_repository.dfy`): four operations, each a guard on
  the endpoint's optional URL (`invalidURL`, without consulting the service)
  followed by one delegated call. Search unwraps `items`. The service is a
  parameter, so any service can stand behind it; one lemma composes it with the
  real network service.
- **Users-list view-model** (`users_list_view_model.dfy`): the class
  `UsersListViewModel` with its fields `state`, `isLoadingMore`, `isSearching`,
  `currentUsers` and `originalUsers`, plus `notifications`, the sequence of
  values handed to `onStateChanged`. Each command that spawns a `Task` is split into a start
  method, which returns the repository request it issues or `None` when a
  guard returns, and a completion method, which takes the repository's answer.
  Callers can complete requests in any order, so last-completion-wins races can
  be written down. The object invariant `Valid()` holds after every command:
  the state is the last value announced, and a `loadedMore` state shows
  exactly the accumulated list.
- **User-detail view-model** (`user_detail_view_model.dfy`): two sequential
  fetches, split at each suspension point, with the fallback to an empty
  repository list. `CycleOutcome` is the reference for the state a cycle
  ends in.
- **Coordinators** (`coordinator.dfy`): child-list bookkeeping. The root
  coordinator removes the first identical child. The protocol's default
  removal filters out every identical child.
- **Scenarios** (`scenarios.dfy`): command sequences modelled on the app's unit
  tests, checked against the view-models' and coordinators' contracts alone.

The model reproduces several behaviours of the code exactly as written:
- Search results are shown but never replace `currentUsers`, so a `loadMoreUsers`
  during a shown search pages on from the list before the search.
- A completed search clears `isSearching`, so a second search snapshots the
  first search's results, and `cancelSearch` then restores those.
- The snapshot is never cleared, so `cancelSearch` with no search active still
  restores it.
- Overlapping fetches are not ordered.

`SecondSearchScenario`, `LoadMoreDuringSearchScenario` and
`LastCompletionWinsScenario` show these.

## Model

| member | source | states |
|---|---|---|
| `Decimal.NatToString` | git-test/Common/Networking/GitHubEndpoint.swift:18 | the decimal digits of a natural number: at least one digit, digits only, no leading zero |
| `Decimal.IntToString` | git-test/Common/Networking/GitHubEndpoint.swift:18 | Swift's rendering of an `Int`: non-empty, digits with a leading `-` exactly for negative numbers |
| `Decimal.ParseNatToString` | git-test/Common/Networking/GitHubEndpoint.swift:18 | reading the digits back gives the number |
| `Decimal.ParseIntToString` | git-test/Common/Networking/GitHubEndpoint.swift:18 | parsing a rendered integer gives that integer back |
| `Decimal.IntToStringInjective` | git-test/Common/Networking/GitHubEndpoint.swift:18 | two integers render alike exactly when they are equal |
| `Text.IndexOf` | git-test/Coordinator/AppCoordinator.swift:46 | `firstIndex`: an index holding the element with no earlier occurrence, or None exactly when the element is absent |
| `Text.IndexOfShift` | git-test/Coordinator/AppCoordinator.swift:46 | searching past a prefix that lacks the element finds the rest's first occurrence, shifted by the prefix's length |
| `Endpoint.EncodedQuery` | git-test/Common/Networking/GitHubEndpoint.swift:22 | the percent-encoded query, or the raw query when encoding returns nil |
| `Endpoint.UrlOf` | git-test/Common/Networking/GitHubEndpoint.swift:13-25 | `url` is nil exactly when `URL(string:)` rejects the interpolated string; otherwise it starts with the base URL |
| `Endpoint.StartsWithBase` | git-test/Common/Networking/GitHubEndpoint.swift:9-23 | every case's string starts with `https://api.github.com` |
| `Endpoint.UsernameVerbatim` | git-test/Common/Networking/GitHubEndpoint.swift:16-20 | the detail and repositories URLs contain the username unencoded, right after `/users/` |
| `Endpoint.PathQueryOf` | git-test/Common/Networking/GitHubEndpoint.swift:18-23 | splitting a base-plus-path-plus-`?query` string at its first `?` gives back the base and path, and the query |
| `Endpoint.ParseUsersListQueryOf` | git-test/Common/Networking/GitHubEndpoint.swift:18 | reading `per_page=<n>&since=<m>` back yields `n` and `m` |
| `Endpoint.UsersListRoundTrip` | git-test/Common/Networking/GitHubEndpoint.swift:18 | the users-list URL has path `/users`, its query is literally `per_page=<perPage>&since=<since>`, and parsing the query returns both arguments |
| `Endpoint.UsersListInjective` | git-test/Common/Networking/GitHubEndpoint.swift:18 | distinct page-size/cursor pairs give distinct URLs, and equal pairs equal URLs |
| `Endpoint.SearchUsersQuery` | git-test/Common/Networking/GitHubEndpoint.swift:22-23 | the search URL has path `/search/users` and query `q=<encoded>&per_page=<n>` |
| `Endpoint.SearchUsersRawFallback` | git-test/Common/Networking/GitHubEndpoint.swift:22 | when encoding fails, the raw text stands right after `q=` |
| `NetworkService.Fetch` | git-test/Common/Networking/NetworkService.swift:48-64 | transport errors rethrown unchanged; non-HTTP gives `noData`; status outside [200,300) gives `serverError` with that status; a 2xx undecodable body gives `decodingError` |
| `NetworkService.FetchSucceedsIff` | git-test/Common/Networking/NetworkService.swift:55-60 | success exactly on a 2xx HTTP response with a decodable body, returning exactly the decoded value |
| `NetworkService.StatusCheckedBeforeDecoding` | git-test/Common/Networking/NetworkService.swift:55-60 | a non-2xx response is `serverError(status)` whatever the decoder would make of the body |
| `NetworkService.FetchErrorKinds` | git-test/Common/Networking/NetworkService.swift:48-64 | every error is the session's own or one of `noData`, non-2xx `serverError`, `decodingError`; never `invalidURL` |
| `GitHubRepository.Guarded` | git-test/Common/Networking/GitHubRepository.swift:53-57 | `invalidURL` when the URL is nil, otherwise the service's answer for that URL, unchanged |
| `GitHubRepository.FetchUserDetail` | git-test/Common/Networking/GitHubRepository.swift:52-58 | `invalidURL` without a URL; otherwise the service's answer (value or error) unchanged, for a URL containing the username |
| `GitHubRepository.FetchUsers` | git-test/Common/Networking/GitHubRepository.swift:67-73 | `invalidURL` without a URL; otherwise the service's answer unchanged, for a URL whose query is `per_page=<perPage>&since=<since>`; `since` defaults to 0 |
| `GitHubRepository.FetchRepositories` | git-test/Common/Networking/GitHubRepository.swift:82-88 | `invalidURL` without a URL; otherwise the service's answer unchanged, for a URL containing the username |
| `GitHubRepository.SearchUsers` | git-test/Common/Networking/GitHubRepository.swift:97-104 | `invalidURL` without a URL; a decoded response yields exactly its `items`; a service error is rethrown unchanged |
| `GitHubRepository.InvalidUrlSkipsNetwork` | git-test/Common/Networking/GitHubRepository.swift:52-104 | with no URL, every operation gives the same answer whatever service stands behind it |
| `GitHubRepository.ErrorsOverNetworkService` | git-test/Common/Networking/GitHubRepository.swift:53-57 | over the real service, a failure is `invalidURL`, the session's own error, `noData`, non-2xx `serverError` or `decodingError` |
| `UsersListScreen.TrimLeading` | git-test/Features/UsersList/ViewModel/UsersListViewModel.swift:127 | the result is a suffix of the input, every character dropped is whitespace, and it does not start with whitespace |
| `UsersListScreen.TrimTrailing` | git-test/Features/UsersList/ViewModel/UsersListViewModel.swift:127 | the result is a prefix of the input, every character dropped is whitespace, and it does not end with whitespace |
| `UsersListScreen.IsBlankIff` | git-test/Features/UsersList/ViewModel/UsersListViewModel.swift:127-129 | a query trims to nothing exactly when all its characters are whitespace or newlines |
| `UsersListScreen.UsersListViewModel.constructor` | git-test/Features/UsersList/ViewModel/UsersListViewModel.swift:63-75 | starts in `loading`, both flags false, both lists empty, nothing announced |
| `UsersListScreen.UsersListViewModel.UpdateState` | git-test/Features/UsersList/ViewModel/UsersListViewModel.swift:203-206 | sets the state and announces that same value exactly once |
| `UsersListScreen.UsersListViewModel.FetchUsers` | git-test/Features/UsersList/ViewModel/UsersListViewModel.swift:173-182 | requests 30 users after the given cursor; announces `loading` only when not paginating |
| `UsersListScreen.UsersListViewModel.ViewDidLoad` | git-test/Features/UsersList/ViewModel/UsersListViewModel.swift:98-100 | announces `loading` and requests page size 30 from cursor 0 |
| `UsersListScreen.UsersListViewModel.RefreshUsers` | git-test/Features/UsersList/ViewModel/UsersListViewModel.swift:102-105 | empties the accumulated list, announces `loading`, requests from cursor 0 |
| `UsersListScreen.UsersListViewModel.LoadMoreUsers` | git-test/Features/UsersList/ViewModel/UsersListViewModel.swift:107-123 | when a page is in flight, the state is not loaded, or the list is empty: no change and no request; otherwise sets the flag, announces `loadingMore` and requests after the last user's id |
| `UsersListScreen.UsersListViewModel.CompleteFetchUsers` | git-test/Features/UsersList/ViewModel/UsersListViewModel.swift:183-199 | clears the flag; a page is appended and shown as `loadedMore`; a first page replaces the list and is shown as `loaded`; a failure shows the fetch error message and keeps the list; one announcement |
| `UsersListScreen.UsersListViewModel.SearchUsers` | git-test/Features/UsersList/ViewModel/UsersListViewModel.swift:125-148 | a query made only of whitespace and newlines (equivalently, one that trims to nothing) changes nothing and requests nothing; otherwise snapshots the shown list only when not already searching, sets the search flag, announces `loading`, requests 30 results |
| `UsersListScreen.UsersListViewModel.CompleteSearch` | git-test/Features/UsersList/ViewModel/UsersListViewModel.swift:149-157 | clears the search flag and shows the results as `loaded`, or the search error message; the accumulated list is untouched |
| `UsersListScreen.UsersListViewModel.CancelSearch` | git-test/Features/UsersList/ViewModel/UsersListViewModel.swift:162-169 | with neither an active search nor a snapshot, nothing changes; otherwise the snapshot becomes the list and is shown as `loaded` |
| `UserDetailScreen.CycleOutcome` | git-test/Features/UserDetail/ViewModel/UserDetailViewModel.swift:94-118 | error (with the user-info message) exactly when the detail failed; otherwise `loaded` with that detail and the repositories, or none when they failed |
| `UserDetailScreen.UserDetailViewModel.constructor` | git-test/Features/UserDetail/ViewModel/UserDetailViewModel.swift:49-71 | starts in `loading` for the given username, nothing announced |
| `UserDetailScreen.UserDetailViewModel.UpdateState` | git-test/Features/UserDetail/ViewModel/UserDetailViewModel.swift:122-125 | sets the state and announces it once |
| `UserDetailScreen.UserDetailViewModel.FetchUserData` | git-test/Features/UserDetail/ViewModel/UserDetailViewModel.swift:88-96 | announces `loading` and requests the detail of its username |
| `UserDetailScreen.UserDetailViewModel.ViewDidLoad` | git-test/Features/UserDetail/ViewModel/UserDetailViewModel.swift:76-78 | the same as a fetch cycle start |
| `UserDetailScreen.UserDetailViewModel.RefreshData` | git-test/Features/UserDetail/ViewModel/UserDetailViewModel.swift:82-84 | the same as a fetch cycle start |
| `UserDetailScreen.UserDetailViewModel.ResumeWithUserDetail` | git-test/Features/UserDetail/ViewModel/UserDetailViewModel.swift:96-117 | a failed detail ends in the error state with no repositories request; a success requests the same user's repositories, 30 per page, without announcing |
| `UserDetailScreen.UserDetailViewModel.ResumeWithRepositories` | git-test/Features/UserDetail/ViewModel/UserDetailViewModel.swift:99-111 | ends in `loaded` with the detail and the repositories unchanged, or an empty list on failure |
| `UserDetailScreen.UserDetailViewModel.RunFetchCycle` | git-test/Features/UserDetail/ViewModel/UserDetailViewModel.swift:88-120 | an uninterrupted cycle announces exactly `loading` and then `CycleOutcome` |
| `Coordinators.RemoveAll` | git-test/Coordinator/Coordinator.swift:35 | the result never holds the coordinator, holds nothing new, keeps every other child's count, and equals the input when the coordinator is absent |
| `Coordinators.RemoveFirst` | git-test/Coordinator/AppCoordinator.swift:45-49 | exactly one occurrence fewer when present (multiset and length), the input unchanged when absent |
| `Coordinators.RemoveAllConcat` | git-test/Coordinator/Coordinator.swift:35 | filtering distributes over concatenation, so survivors keep their relative order |
| `Coordinators.RemoveFirstSplit` | git-test/Coordinator/AppCoordinator.swift:46-47 | only the first identical child goes; the children before and after it stay in order |
| `Coordinators.RemoveAllSingle` | git-test/Coordinator/Coordinator.swift:35 | filtering a single occurrence leaves the rest in order |
| `Coordinators.RemoveFirstAgreesWhenUnique` | git-test/Coordinator/AppCoordinator.swift:45-49 | with at most one occurrence, first-match removal and filtering agree |
| `Coordinators.RemoveFirstLeavesDuplicates` | git-test/Coordinator/AppCoordinator.swift:45-49 | with two or more occurrences, first-match removal leaves one behind |
| `Coordinators.AddThenRemove` | git-test/Coordinator/Coordinator.swift:28-35 | removing what was just appended gives back the filtered list, or the original list under first-match removal when it was absent |
| `Coordinators.FlowCoordinator.constructor` | git-test/Coordinator/UsersListCoordinator.swift:11 | a new coordinator has no children |
| `Coordinators.FlowCoordinator.AddChildCoordinator` | git-test/Coordinator/Coordinator.swift:28-30 | appends the coordinator at the end |
| `Coordinators.FlowCoordinator.RemoveChildCoordinator` | git-test/Coordinator/Coordinator.swift:34-36 | drops every identical child; the coordinator is no longer among the children |
| `Coordinators.AppCoordinator.constructor` | git-test/Coordinator/AppCoordinator.swift:11-20 | the child list starts empty |
| `Coordinators.AppCoordinator.Start` | git-test/Coordinator/AppCoordinator.swift:24-34 | appends exactly one new child, a users-list coordinator |
| `Coordinators.AppCoordinator.AddChildCoordinator` | git-test/Coordinator/AppCoordinator.swift:38-40 | appends the coordinator at the end |
| `Coordinators.AppCoordinator.RemoveChildCoordinator` | git-test/Coordinator/AppCoordinator.swift:45-49 | removes the first identical child only, in place; exactly one occurrence fewer when present |

## Left out

- View controllers, table cells, the web view, image loading and the
  scroll-threshold arithmetic: UIKit layout and floating-point geometry.
- Navigation (`pushViewController`, `present`), `UsersListCoordinator.start`/
  `didSelectUser` and `UserDetailCoordinator`: UIKit navigation. Starting the
  users-list child coordinator is modelled only as its creation.
- `Task`/`MainActor` scheduling and `[weak self]`: completions are explicit method
  calls, and the view-model is assumed to be alive when a completion runs.
- Localization: the failure messages are their localization keys, opaque
  non-empty constants.
- JSON decoding (`JSONDecoder`, `CodingKeys`): an uninterpreted partial
  function from bytes to a value.
- `URLSession`, `URL(string:)` validity and `addingPercentEncoding`: uninterpreted
  Foundation services. The session is a value describing what it answered.
- `Endpoint.UrlOf`: the model takes `URL(string:)` to keep an accepted string
  verbatim as `absoluteString`, as the parse did before iOS 17; since iOS 17 the
  parse percent-encodes characters outside RFC 3986 instead of returning nil.
  The `Contains(url.absoluteString, username)` clauses of
  `GitHubRepository.FetchUserDetail` and `GitHubRepository.FetchRepositories`
  rest on that; they hold under either parse for GitHub logins, which are
  letters, digits and hyphens only.
- `UserEntity`, a field copy whose only logic is Foundation URL parsing.
- `UsersListScreen.IsBlankIff`: whitespace is judged per Unicode scalar against the
  White_Space set. Swift's grapheme clusters are not modelled, e.g. a space carrying a
  combining mark.
- Swift's 64-bit `Int` bounds: ids, page sizes and status codes are unbounded
  integers. The code does no arithmetic on them, so no wrap-around can occur.
