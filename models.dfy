/** The decoded value types of the GitHub API. They are immutable structs in
    the app; their JSON decoding is not modelled (see NetworkService). */
module Models {
  import opened Errors

  /** A user summary as returned by the list and search endpoints. */
  datatype User = User(id: int, login: string, avatarUrl: string)

  /** A user's profile. */
  datatype UserDetail = UserDetail(
    login: string,
    avatarUrl: string,
    name: Option<string>,
    followers: int,
    following: int)

  /** A repository summary. */
  datatype Repository = Repository(
    id: int,
    name: string,
    language: Option<string>,
    starsCount: int,
    description: Option<string>,
    htmlUrl: string)

  /** The wrapper object of the search endpoint. */
  datatype UserSearchResponse = UserSearchResponse(
    totalCount: int,
    incompleteResults: bool,
    items: seq<User>)
}
