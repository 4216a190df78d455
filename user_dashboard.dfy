/**
 * The customer dashboard page: the profile load (browser storage first,
 * then the profile endpoint), the name shown in the sidebar, the profile
 * edit form and its save to storage, and logout.
 */
module UserDashboardPage {
  import opened Wrappers
  import opened Entities
  import opened Http
  import opened Auth
  import opened Storage
  import opened Session

  const LoginPath := "/login"
  const HomePath := "/"

  /** The keys the page's logout removes; no code in this model writes the first two. */
  const DashboardLogoutKeys: set<string> := {"access_token", "refresh_token", UserKey}

  /** `user ? (user.first_name || user.username) : 'Guest User'` */
  function DisplayName(user: Json): (name: string)
    ensures !Truthy(user) ==> name == "Guest User"
    ensures user.Record? && user.user.firstName != "" ==> name == user.user.firstName
    ensures user.Record? && user.user.firstName == "" ==> name == user.user.username
    ensures user.Scalar? ==> name == ""
  {
    match user
    case Null => "Guest User"
    case Falsy => "Guest User"
    case Scalar => ""
    case Record(u) => if u.firstName != "" then u.firstName else u.username
  }

  /** A signed-in user with a first name is greeted by it, never as a guest. */
  lemma SignedInUserIsNotGuest(u: User)
    requires u.firstName != "" && u.firstName != "Guest User"
    ensures DisplayName(Record(u)) != "Guest User"
  {
  }

  /** An input of the profile form. */
  datatype ProfileField = FirstNameField | LastNameField | PhoneField | AddressField

  /** `profileData.<field> || ''`, what the input shows. */
  function ProfileFieldValue(profile: Json, field: ProfileField): string {
    if profile.Record? then
      match field
      case FirstNameField => profile.user.firstName
      case LastNameField => profile.user.lastName
      case PhoneField => profile.user.phone
      case AddressField => profile.user.address
    else ""
  }

  /**
   * `{...profileData, <field>: value}`: spreading a value that is not an
   * object contributes no field, leaving an object with that one field.
   */
  function WithProfileField(profile: Json, field: ProfileField, value: string): (edited: Json)
    ensures edited.Record?
  {
    var u := if profile.Record? then profile.user else NoUser;
    match field
    case FirstNameField => Record(u.(firstName := value))
    case LastNameField => Record(u.(lastName := value))
    case PhoneField => Record(u.(phone := value))
    case AddressField => Record(u.(address := value))
  }

  /**
   * An edit shows its value in its own input, leaves the other inputs as they
   * were, and keeps the identity and role fields of the profile.
   */
  lemma WithProfileFieldChangesOnlyThatField(profile: Json, field: ProfileField, value: string)
    ensures ProfileFieldValue(WithProfileField(profile, field, value), field) == value
    ensures forall g :: g != field ==>
              ProfileFieldValue(WithProfileField(profile, field, value), g) == ProfileFieldValue(profile, g)
    ensures profile.Record? ==>
              && WithProfileField(profile, field, value).user.username == profile.user.username
              && WithProfileField(profile, field, value).user.email == profile.user.email
              && WithProfileField(profile, field, value).user.isStaff == profile.user.isStaff
              && WithProfileField(profile, field, value).user.isSuperuser == profile.user.isSuperuser
  {
  }

  /**
   * The page calls `getProfile()` with no argument: the request carries no
   * `Authorization` header, whatever token the session holds.
   */
  lemma ProfileRequestIsAnonymous(items: map<string, string>, outcome: Outcome<User>)
    ensures GetProfile(None, outcome).authorization == None
    ensures GetAccessToken(items).Some? && GetAccessToken(items).value != "" ==>
              GetProfile(GetAccessToken(items), outcome).authorization.Some?
  {
  }

  /** Storage holds a `user` entry that `if (storedUser)` accepts. */
  predicate HasStoredUser(items: map<string, string>) {
    UserKey in items && items[UserKey] != ""
  }

  class UserDashboardPage {
    var user: Json
    var profileData: Json
    var loading: bool
    var editingProfile: bool
    var saving: bool
    /** The `router.push` targets, in order. */
    var navigation: seq<string>

    constructor ()
      ensures user == Null && profileData == Record(NoUser) && loading && !editingProfile && !saving && navigation == []
    {
      user := Null;
      profileData := Record(NoUser);
      loading := true;
      editingProfile := false;
      saving := false;
      navigation := [];
    }

    /**
     * `loadUserProfile`, the profile endpoint answering `outcome`. A stored
     * user is used as is and the endpoint is not asked (`requested` is
     * false); stored text that is not JSON sends the visitor to the login
     * page; without a stored user the endpoint is asked, and a failure
     * also sends the visitor to the login page.
     */
    method LoadUserProfile(store: LocalStorage, codec: JsonCodec, outcome: Outcome<User>) returns (requested: bool)
      modifies this`user, this`profileData, this`loading, this`navigation
      ensures !loading
      ensures requested <==> !HasStoredUser(store.items)
      ensures HasStoredUser(store.items) && codec.parse(store.items[UserKey]).Some? ==>
                && user == codec.parse(store.items[UserKey]).value && profileData == user
                && navigation == old(navigation)
      ensures HasStoredUser(store.items) && codec.parse(store.items[UserKey]).None? ==>
                user == old(user) && profileData == old(profileData) && navigation == old(navigation) + [LoginPath]
      ensures !HasStoredUser(store.items) && outcome.Ok? ==>
                user == Record(outcome.value) && profileData == user && navigation == old(navigation)
      ensures !HasStoredUser(store.items) && !outcome.Ok? ==>
                user == old(user) && profileData == old(profileData) && navigation == old(navigation) + [LoginPath]
    {
      loading := true;
      var stored := store.GetItem(UserKey);
      if stored.Some? && stored.value != "" {
        requested := false;
        match codec.parse(stored.value) {
          case Some(userData) =>
            user := userData;
            profileData := userData;
          case None =>
            navigation := navigation + [LoginPath];
        }
        loading := false;
        return;
      }
      requested := true;
      var sent := GetProfile(None, outcome);
      match sent.result {
        case Success(userData) =>
          user := Record(userData);
          profileData := Record(userData);
        case Failure(_) =>
          navigation := navigation + [LoginPath];
      }
      loading := false;
    }

    /** An input of the edit form: `setProfileData({...profileData, <field>: value})`. */
    method EditProfileField(field: ProfileField, value: string)
      modifies this`profileData
      ensures profileData == WithProfileField(old(profileData), field, value)
    {
      profileData := WithProfileField(profileData, field, value);
    }

    /** `handleProfileUpdate`: stores the edited profile as the user and leaves edit mode. */
    method HandleProfileUpdate(store: LocalStorage, codec: JsonCodec)
      modifies store, this`user, this`editingProfile, this`saving
      ensures store.items == old(store.items)[UserKey := codec.stringify(profileData)]
      ensures user == profileData && !editingProfile && !saving
    {
      saving := true;
      store.SetItem(UserKey, codec.stringify(profileData));
      user := profileData;
      editingProfile := false;
      saving := false;
    }

    /**
     * `handleLogout` as written: removes `access_token`, `refresh_token` and
     * `user`, then goes home. The session's token keys are `accessToken` and
     * `refreshToken`, so both tokens stay behind.
     */
    method HandleLogout(store: LocalStorage)
      modifies store, this`navigation
      ensures store.items == old(store.items) - DashboardLogoutKeys
      ensures navigation == old(navigation) + [HomePath]
    {
      store.RemoveItem("access_token");
      store.RemoveItem("refresh_token");
      store.RemoveItem(UserKey);
      navigation := navigation + [HomePath];
    }

    /** Logout as evidently intended: the session's own `logout`, then home. */
    method HandleLogoutClearingSession(store: LocalStorage)
      modifies store, this`navigation
      ensures store.items == old(store.items) - SessionKeys
      ensures navigation == old(navigation) + [HomePath]
    {
      Logout(store);
      navigation := navigation + [HomePath];
    }
  }

  /**
   * After the page's logout as written the visitor counts as logged out, but
   * the access and refresh tokens are still stored, and every authenticated
   * request still sends `Bearer <token>`.
   */
  lemma LogoutAsWrittenKeepsTokens(items: map<string, string>, codec: JsonCodec)
    requires AccessTokenKey in items && items[AccessTokenKey] != ""
    ensures !IsLoggedIn(items - DashboardLogoutKeys, codec)
    ensures GetAccessToken(items - DashboardLogoutKeys) == Some(items[AccessTokenKey])
    ensures RefreshTokenKey in items ==> RefreshTokenKey in items - DashboardLogoutKeys
    ensures AuthorizationHeader(GetAccessToken(items - DashboardLogoutKeys)) == Some("Bearer " + items[AccessTokenKey])
  {
    assert AccessTokenKey !in DashboardLogoutKeys;
  }

  /** After the corrected logout no token is stored and requests go out without a header. */
  lemma LogoutClearingSessionDropsTokens(items: map<string, string>, codec: JsonCodec)
    ensures !IsLoggedIn(items - SessionKeys, codec)
    ensures RefreshTokenKey !in items - SessionKeys
    ensures AuthorizationHeader(GetAccessToken(items - SessionKeys)) == None
  {
    LoggedOutAfterLogout(items, codec);
  }
}
