/** The four GitHub REST endpoints the app calls, and the URL each one
    builds by string interpolation over a fixed base. */
module Endpoint {
  import opened Errors
  import opened Text
  import opened Decimal

  datatype GitHubEndpoint =
    | UserDetail(username: string)
    | UsersList(perPage: int, since: int)
    | UserRepositories(username: string, perPage: int)
    | SearchUsers(query: string, perPage: int)

  const BaseURL: string := "https://api.github.com"

  /** A parsed URL, known by its absolute string. */
  datatype Url = Url(absoluteString: string)

  /** The Foundation services the endpoint relies on, left uninterpreted:
      whether `URL(string:)` accepts a string, and
      `addingPercentEncoding(withAllowedCharacters: .urlQueryAllowed)`. */
  datatype Foundation = Foundation(
    acceptsURL: string -> bool,
    percentEncoded: string -> Option<string>)

  /** The search text as it goes into the query: percent-encoded, or the raw
      text when the encoder gives up. */
  function EncodedQuery(env: Foundation, query: string): (q: string)
    ensures env.percentEncoded(query).Some? ==> q == env.percentEncoded(query).value
    ensures env.percentEncoded(query).None? ==> q == query
  {
    match env.percentEncoded(query)
    case Some(encoded) => encoded
    case None => query
  }

  /** What each case interpolates after the base URL, split where its query
      string begins. */
  function Route(endpoint: GitHubEndpoint, env: Foundation): string {
    match endpoint
    case UserDetail(username) =>
      "/users/" + username
    case UsersList(perPage, since) =>
      "/users" + ("?per_page=" + IntToString(perPage) + "&since=" + IntToString(since))
    case UserRepositories(username, perPage) =>
      "/users/" + username + "/repos" + ("?type=owner&per_page=" + IntToString(perPage))
    case SearchUsers(query, perPage) =>
      "/search/users" + ("?q=" + EncodedQuery(env, query) + "&per_page=" + IntToString(perPage))
  }

  /** The interpolated string handed to `URL(string:)`. */
  function UrlString(endpoint: GitHubEndpoint, env: Foundation): string {
    BaseURL + Route(endpoint, env)
  }

  /** `endpoint.url`: nil exactly when Foundation rejects the string. */
  function UrlOf(endpoint: GitHubEndpoint, env: Foundation): (r: Option<Url>)
    ensures r.None? <==> !env.acceptsURL(UrlString(endpoint, env))
    ensures r.Some? ==> StartsWith(r.value.absoluteString, BaseURL)
  {
    var s := UrlString(endpoint, env);
    StartsWithBase(endpoint, env);
    if env.acceptsURL(s) then Some(Url(s)) else None
  }

  /** The part of a URL string before its first `?`. */
  function Path(s: string): string {
    match IndexOf(s, '?')
    case None => s
    case Some(i) => s[..i]
  }

  /** The part of a URL string after its first `?` (empty when there is none). */
  function Query(s: string): string {
    match IndexOf(s, '?')
    case None => ""
    case Some(i) => s[i + 1..]
  }

  /** Reads `per_page=<n>&since=<m>` back into its two integers. */
  function ParseUsersListQuery(q: string): Option<(int, int)> {
    if !StartsWith(q, "per_page=") then None
    else
      var rest := q[|"per_page="|..];
      match IndexOf(rest, '&')
      case None => None
      case Some(i) =>
        var second := rest[i + 1..];
        if !StartsWith(second, "since=") then None
        else
          match (ParseInt(rest[..i]), ParseInt(second[|"since="|..]))
          case (Some(perPage), Some(since)) => Some((perPage, since))
          case _ => None
  }

  lemma StartsWithBase(endpoint: GitHubEndpoint, env: Foundation)
    ensures StartsWith(UrlString(endpoint, env), BaseURL)
  {
    assert UrlString(endpoint, env)[..|BaseURL|] == BaseURL;
  }

  /** A string placed after two others is found right after them. */
  lemma OccursAfter(p: string, q: string, t: string, r: string)
    ensures OccursAt(p + (q + t + r), t, |p| + |q|)
  {
    assert (p + (q + t + r))[|p| + |q|..|p| + |q| + |t|] == t;
  }

  /** Both username endpoints put the username into the URL verbatim, after
      `/users/`; it is not percent-encoded. */
  lemma UsernameVerbatim(username: string, perPage: int, env: Foundation)
    ensures OccursAt(UrlString(UserDetail(username), env), username, |BaseURL| + |"/users/"|)
    ensures OccursAt(UrlString(UserRepositories(username, perPage), env), username, |BaseURL| + |"/users/"|)
    ensures Contains(UrlString(UserDetail(username), env), username)
    ensures Contains(UrlString(UserRepositories(username, perPage), env), username)
  {
    OccursAfter(BaseURL, "/users/", username, "");
    assert "/users/" + username + "" == "/users/" + username;
    var tail := "/repos" + ("?type=owner&per_page=" + IntToString(perPage));
    OccursAfter(BaseURL, "/users/", username, tail);
    assert Route(UserRepositories(username, perPage), env) == "/users/" + username + tail;
    var s := UrlString(UserRepositories(username, perPage), env);
    assert OccursAt(s, username, |BaseURL| + |"/users/"|);
  }

  /** A prefix without `?` leaves the query untouched and stays in the path. */
  lemma PathQueryShift(a: string, r: string)
    requires '?' !in a
    ensures Path(a + r) == a + Path(r)
    ensures Query(a + r) == Query(r)
  {
    IndexOfShift(a, r, '?');
    match IndexOf(r, '?')
    case None =>
    case Some(i) =>
      assert (a + r)[..|a| + i] == a + r[..i];
      assert (a + r)[|a| + i + 1..] == r[i + 1..];
  }

  /** A string that starts with `?` is all query. */
  lemma PathQueryAtMark(r: string)
    requires |r| > 0 && r[0] == '?'
    ensures Path(r) == "" && Query(r) == r[1..]
  {
  }

  /** The path and query of `base + path + ("?" ...)`. */
  lemma PathQueryOf(path: string, query: string)
    requires '?' !in path && |query| > 0 && query[0] == '?'
    ensures Path(BaseURL + (path + query)) == BaseURL + path
    ensures Query(BaseURL + (path + query)) == query[1..]
  {
    PathQueryShift(BaseURL, path + query);
    PathQueryShift(path, query);
    PathQueryAtMark(query);
    assert path + "" == path;
  }

  /** Reading a users-list query back yields the two integers it was built from. */
  lemma {:induction false} ParseUsersListQueryOf(perPage: int, since: int)
    ensures ParseUsersListQuery("per_page=" + IntToString(perPage) + "&since=" + IntToString(since))
         == Some((perPage, since))
  {
    var a := IntToString(perPage);
    var b := IntToString(since);
    var q := "per_page=" + a + "&since=" + b;
    var rest := q[|"per_page="|..];
    assert q[..|"per_page="|] == "per_page=";
    assert rest == a + ("&since=" + b);
    assert '&' !in a;
    IndexOfAfter(a, "&since=" + b, '&');
    assert rest[..|a|] == a;
    var second := rest[|a| + 1..];
    assert second == "since=" + b;
    assert second[..|"since="|] == "since=";
    assert second[|"since="|..] == b;
    ParseIntToString(perPage);
    ParseIntToString(since);
  }

  /** The users-list URL has path `/users` and its query is literally
      `per_page=<perPage>&since=<since>`; reading the query back yields the
      two arguments. */
  lemma UsersListRoundTrip(perPage: int, since: int, env: Foundation)
    ensures Path(UrlString(UsersList(perPage, since), env)) == BaseURL + "/users"
    ensures Query(UrlString(UsersList(perPage, since), env))
         == "per_page=" + IntToString(perPage) + "&since=" + IntToString(since)
    ensures ParseUsersListQuery(Query(UrlString(UsersList(perPage, since), env))) == Some((perPage, since))
  {
    var query := "?per_page=" + IntToString(perPage) + "&since=" + IntToString(since);
    PathQueryOf("/users", query);
    assert query[1..] == "per_page=" + IntToString(perPage) + "&since=" + IntToString(since);
    ParseUsersListQueryOf(perPage, since);
  }

  /** Distinct users-list arguments give distinct URLs. */
  lemma UsersListInjective(n1: int, s1: int, n2: int, s2: int, env: Foundation)
    ensures UrlString(UsersList(n1, s1), env) == UrlString(UsersList(n2, s2), env) <==> n1 == n2 && s1 == s2
  {
    UsersListRoundTrip(n1, s1, env);
    UsersListRoundTrip(n2, s2, env);
  }

  /** The search URL's path is `/search/users` and its query carries the
      encoded text (or the raw text when encoding fails) followed by the page size. */
  lemma SearchUsersQuery(query: string, perPage: int, env: Foundation)
    ensures Path(UrlString(SearchUsers(query, perPage), env)) == BaseURL + "/search/users"
    ensures Query(UrlString(SearchUsers(query, perPage), env))
         == "q=" + EncodedQuery(env, query) + "&per_page=" + IntToString(perPage)
  {
    var q := "?q=" + EncodedQuery(env, query) + "&per_page=" + IntToString(perPage);
    PathQueryOf("/search/users", q);
    assert q[1..] == "q=" + EncodedQuery(env, query) + "&per_page=" + IntToString(perPage);
  }

  /** When the encoder gives up, the raw search text stands in the URL right after `q=`. */
  lemma SearchUsersRawFallback(query: string, perPage: int, env: Foundation)
    requires env.percentEncoded(query).None?
    ensures OccursAt(UrlString(SearchUsers(query, perPage), env), query, |BaseURL| + |"/search/users?q="|)
  {
    var tail := "&per_page=" + IntToString(perPage);
    assert Route(SearchUsers(query, perPage), env) == "/search/users?q=" + query + tail;
    OccursAfter(BaseURL, "/search/users?q=", query, tail);
  }
}
