/** The repository: four domain operations, each a guard on the endpoint's
    optional URL followed by one call of the network service. The service
    is a parameter (`fetch`), so that any service, real or mock, can stand
    behind it. */
module GitHubRepository {
  import opened Errors
  import opened Text
  import opened Decimal
  import opened Models
  import opened Endpoint
  import NetworkService

  /** The guard every operation starts with: `invalidURL` when the URL could
      not be built, otherwise whatever the service answers for that URL. */
  function Guarded<T>(url: Option<Url>, fetch: Url -> Result<T>): (r: Result<T>)
    ensures url.None? ==> r == Failure(Network(InvalidURL))
    ensures url.Some? ==> r == fetch(url.value)
  {
    match url
    case None => Failure(Network(InvalidURL))
    case Some(u) => fetch(u)
  }

  function FetchUserDetail(env: Foundation, fetch: Url -> Result<Models.UserDetail>, username: string)
    : (r: Result<Models.UserDetail>)
    ensures UrlOf(Endpoint.UserDetail(username), env).None? ==> r == Failure(Network(InvalidURL))
    ensures UrlOf(Endpoint.UserDetail(username), env).Some? ==>
              var url := UrlOf(Endpoint.UserDetail(username), env).value;
              r == fetch(url) && Contains(url.absoluteString, username)
  {
    UsernameVerbatim(username, 0, env);
    Guarded(UrlOf(Endpoint.UserDetail(username), env), fetch)
  }

  /** `since` defaults to 0, the first page. */
  function FetchUsers(env: Foundation, fetch: Url -> Result<seq<User>>, perPage: int, since: int := 0)
    : (r: Result<seq<User>>)
    ensures UrlOf(UsersList(perPage, since), env).None? ==> r == Failure(Network(InvalidURL))
    ensures UrlOf(UsersList(perPage, since), env).Some? ==>
              var url := UrlOf(UsersList(perPage, since), env).value;
              r == fetch(url)
              && Query(url.absoluteString) == "per_page=" + IntToString(perPage) + "&since=" + IntToString(since)
  {
    UsersListRoundTrip(perPage, since, env);
    Guarded(UrlOf(UsersList(perPage, since), env), fetch)
  }

  function FetchRepositories(env: Foundation, fetch: Url -> Result<seq<Repository>>, username: string, perPage: int)
    : (r: Result<seq<Repository>>)
    ensures UrlOf(UserRepositories(username, perPage), env).None? ==> r == Failure(Network(InvalidURL))
    ensures UrlOf(UserRepositories(username, perPage), env).Some? ==>
              var url := UrlOf(UserRepositories(username, perPage), env).value;
              r == fetch(url) && Contains(url.absoluteString, username)
  {
    UsernameVerbatim(username, perPage, env);
    Guarded(UrlOf(UserRepositories(username, perPage), env), fetch)
  }

  /** The service decodes the search wrapper; the caller gets its `items`. */
  function SearchUsers(env: Foundation, fetch: Url -> Result<UserSearchResponse>, query: string, perPage: int)
    : (r: Result<seq<User>>)
    ensures UrlOf(Endpoint.SearchUsers(query, perPage), env).None? ==> r == Failure(Network(InvalidURL))
    ensures UrlOf(Endpoint.SearchUsers(query, perPage), env).Some? ==>
              var answer := fetch(UrlOf(Endpoint.SearchUsers(query, perPage), env).value);
              (answer.Success? ==> r == Success(answer.value.items))
              && (answer.Failure? ==> r == Failure(answer.error))
  {
    match Guarded(UrlOf(Endpoint.SearchUsers(query, perPage), env), fetch)
    case Success(response) => Success(response.items)
    case Failure(error) => Failure(error)
  }

  /** When the URL cannot be built, the service is never consulted: any two
      services give the same `invalidURL` answer. */
  lemma InvalidUrlSkipsNetwork(env: Foundation, username: string, perPage: int, since: int, query: string,
                               d1: Url -> Result<Models.UserDetail>, d2: Url -> Result<Models.UserDetail>,
                               u1: Url -> Result<seq<User>>, u2: Url -> Result<seq<User>>,
                               r1: Url -> Result<seq<Repository>>, r2: Url -> Result<seq<Repository>>,
                               s1: Url -> Result<UserSearchResponse>, s2: Url -> Result<UserSearchResponse>)
    ensures UrlOf(Endpoint.UserDetail(username), env).None? ==>
              FetchUserDetail(env, d1, username) == FetchUserDetail(env, d2, username)
    ensures UrlOf(UsersList(perPage, since), env).None? ==>
              FetchUsers(env, u1, perPage, since) == FetchUsers(env, u2, perPage, since)
    ensures UrlOf(UserRepositories(username, perPage), env).None? ==>
              FetchRepositories(env, r1, username, perPage) == FetchRepositories(env, r2, username, perPage)
    ensures UrlOf(Endpoint.SearchUsers(query, perPage), env).None? ==>
              SearchUsers(env, s1, query, perPage) == SearchUsers(env, s2, query, perPage)
  {
  }

  /** Over the real network service, every error a repository operation
      throws is `invalidURL`, one of the service's own classifications, or
      exactly what the URL session threw. */
  lemma ErrorsOverNetworkService<T>(url: Option<Url>, session: Url -> NetworkService.SessionOutcome, decode: NetworkService.Decoder<T>)
    ensures var r := Guarded(url, NetworkService.Service(session, decode));
            r.Failure? ==>
              r.error == Network(InvalidURL)
              || (url.Some? && session(url.value).Threw? && r.error == session(url.value).error)
              || (r.error.Network? && (r.error.err == NoData || r.error.err == DecodingError
                                       || (r.error.err.ServerError? && !NetworkService.IsSuccessStatus(r.error.err.status))))
  {
    if url.Some? {
      NetworkService.FetchErrorKinds(session(url.value), decode);
    }
  }
}
