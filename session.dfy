/**
 * The session queries of `ApiService` over `localStorage`: the persisted
 * user record under `user` and the tokens under `accessToken` and
 * `refreshToken`.
 */
module Session {
  import opened Wrappers
  import opened Entities
  import opened Storage

  const UserKey := "user"
  const AccessTokenKey := "accessToken"
  const RefreshTokenKey := "refreshToken"

  /** The keys `logout` clears. */
  const SessionKeys: set<string> := {UserKey, AccessTokenKey, RefreshTokenKey}

  /**
   * `getCurrentUser`: the parsed `user` entry; an absent or empty entry and
   * text that does not parse both read as `null`, never as an error.
   */
  function GetCurrentUser(items: map<string, string>, codec: JsonCodec): (u: Json)
    ensures u != Null ==> UserKey in items && items[UserKey] != "" && codec.parse(items[UserKey]) == Some(u)
    ensures UserKey in items && items[UserKey] != "" && codec.parse(items[UserKey]).Some? ==>
              u == codec.parse(items[UserKey]).value
  {
    if UserKey in items && items[UserKey] != "" then
      match codec.parse(items[UserKey])
      case None => Null
      case Some(j) => j
    else
      Null
  }

  /** `getAccessToken` */
  function GetAccessToken(items: map<string, string>): (t: Option<string>)
    ensures t.Some? <==> AccessTokenKey in items
    ensures t.Some? ==> t.value == items[AccessTokenKey]
  {
    if AccessTokenKey in items then Some(items[AccessTokenKey]) else None
  }

  /**
   * `isLoggedIn`: the `user` entry parses to a truthy value and the access
   * token is a non-empty string. Neither is checked any further.
   */
  function IsLoggedIn(items: map<string, string>, codec: JsonCodec): (r: bool)
    ensures r <==>
              && UserKey in items && items[UserKey] != ""
              && codec.parse(items[UserKey]).Some? && Truthy(codec.parse(items[UserKey]).value)
              && AccessTokenKey in items && items[AccessTokenKey] != ""
  {
    Truthy(GetCurrentUser(items, codec)) && GetAccessToken(items).Some? && GetAccessToken(items).value != ""
  }

  /** `logout`: removes `user`, `accessToken` and `refreshToken`, in that order, and nothing else. */
  method Logout(store: LocalStorage)
    modifies store
    ensures store.items == old(store.items) - SessionKeys
  {
    store.RemoveItem(UserKey);
    store.RemoveItem(AccessTokenKey);
    store.RemoveItem(RefreshTokenKey);
  }

  /** After `logout` nobody is logged in, and neither the user nor the token can be read back. */
  lemma LoggedOutAfterLogout(items: map<string, string>, codec: JsonCodec)
    ensures !IsLoggedIn(items - SessionKeys, codec)
    ensures GetCurrentUser(items - SessionKeys, codec) == Null
    ensures GetAccessToken(items - SessionKeys) == None
  {
  }

  /** Persisting a user record and a non-empty access token logs the user in. */
  lemma LoggedInAfterPersist(items: map<string, string>, codec: JsonCodec, user: User, token: string)
    requires RoundTrips(codec, Record(user)) && token != ""
    ensures IsLoggedIn(items[UserKey := codec.stringify(Record(user))][AccessTokenKey := token], codec)
    ensures GetCurrentUser(items[UserKey := codec.stringify(Record(user))][AccessTokenKey := token], codec) == Record(user)
  {
  }
}
