/**
 * TravelPlannerApp/src/store/userStore.ts: the signed-in user, the
 * preferences, and the flags around them. Saved copies of the user and of
 * the preferences live under two storage keys (`storedUser`,
 * `storedPreferences`; `None` when absent). The storage service is not
 * part of this model: writes are taken to succeed, and a failing read is
 * the `readOk` parameter.
 */
module UserStore {
  import opened Wrappers

  datatype Theme = Light | Dark

  datatype UserPreferences = UserPreferences(
    currency: string,
    language: string,
    notifications: bool,
    theme: Theme)

  datatype User = User(
    id: string,
    name: string,
    email: string,
    avatar: Option<string>,
    preferences: UserPreferences)

  /** `Partial<User>`. */
  datatype UserPatch = UserPatch(
    id: Option<string>,
    name: Option<string>,
    email: Option<string>,
    avatar: Option<Option<string>>,
    preferences: Option<UserPreferences>)

  /** `Partial<UserPreferences>`. */
  datatype PreferencesPatch = PreferencesPatch(
    currency: Option<string>,
    language: Option<string>,
    notifications: Option<bool>,
    theme: Option<Theme>)

  /** `DEFAULT_PREFERENCES`. */
  const DefaultPreferences := UserPreferences("USD", "en", true, Light)

  /** `{ ...currentUser, ...updates }`: each supplied field replaces the old one, the others stay. */
  function MergeUser(u: User, p: UserPatch): (r: User)
    ensures r.id == if p.id.Some? then p.id.value else u.id
    ensures r.name == if p.name.Some? then p.name.value else u.name
    ensures r.email == if p.email.Some? then p.email.value else u.email
    ensures r.avatar == if p.avatar.Some? then p.avatar.value else u.avatar
    ensures r.preferences == if p.preferences.Some? then p.preferences.value else u.preferences
  {
    User(p.id.GetOr(u.id), p.name.GetOr(u.name), p.email.GetOr(u.email), p.avatar.GetOr(u.avatar),
      p.preferences.GetOr(u.preferences))
  }

  /** `{ ...p, ...q }` for two user patches: the fields `q` supplies win. */
  function ThenUser(p: UserPatch, q: UserPatch): UserPatch
  {
    UserPatch(q.id.OrElse(p.id), q.name.OrElse(p.name), q.email.OrElse(p.email), q.avatar.OrElse(p.avatar),
      q.preferences.OrElse(p.preferences))
  }

  /** An empty patch changes nothing, merging twice is merging once, and two merges compose into one. */
  lemma MergeUserLaws(u: User, p: UserPatch, q: UserPatch)
    ensures MergeUser(u, UserPatch(None, None, None, None, None)) == u
    ensures MergeUser(MergeUser(u, p), p) == MergeUser(u, p)
    ensures MergeUser(MergeUser(u, p), q) == MergeUser(u, ThenUser(p, q))
  {
  }

  /** `{ ...currentPreferences, ...newPreferences }`. */
  function MergePreferences(c: UserPreferences, p: PreferencesPatch): (r: UserPreferences)
    ensures r.currency == if p.currency.Some? then p.currency.value else c.currency
    ensures r.language == if p.language.Some? then p.language.value else c.language
    ensures r.notifications == if p.notifications.Some? then p.notifications.value else c.notifications
    ensures r.theme == if p.theme.Some? then p.theme.value else c.theme
  {
    UserPreferences(p.currency.GetOr(c.currency), p.language.GetOr(c.language),
      p.notifications.GetOr(c.notifications), p.theme.GetOr(c.theme))
  }

  /** Merging is idempotent, an empty patch changes nothing, and two merges compose into one. */
  lemma MergePreferencesLaws(c: UserPreferences, p: PreferencesPatch, q: PreferencesPatch)
    ensures MergePreferences(MergePreferences(c, p), p) == MergePreferences(c, p)
    ensures MergePreferences(c, PreferencesPatch(None, None, None, None)) == c
    ensures MergePreferences(MergePreferences(c, p), q) == MergePreferences(c, PreferencesPatch(
      if q.currency.Some? then q.currency else p.currency,
      if q.language.Some? then q.language else p.language,
      if q.notifications.Some? then q.notifications else p.notifications,
      if q.theme.Some? then q.theme else p.theme))
  {
  }

  class UserStore {
    var user: Option<User>
    var preferences: UserPreferences
    var isAuthenticated: bool
    var loading: bool
    var error: Option<string>
    var storedUser: Option<User>
    var storedPreferences: Option<UserPreferences>

    /** Authenticated exactly when a user is set. */
    ghost predicate Valid()
      reads this
    {
      isAuthenticated <==> user.Some?
    }

    /** The initial state: no user, not authenticated, the default preferences. */
    constructor (savedUser: Option<User>, savedPreferences: Option<UserPreferences>)
      ensures user == None && !isAuthenticated && preferences == DefaultPreferences
      ensures !loading && error == None
      ensures storedUser == savedUser && storedPreferences == savedPreferences
      ensures Valid()
    {
      user := None;
      preferences := DefaultPreferences;
      isAuthenticated := false;
      loading := false;
      error := None;
      storedUser := savedUser;
      storedPreferences := savedPreferences;
    }

    /** `setUser`: the user is set, authenticated, and saved. */
    method SetUser(u: User)
      modifies this
      ensures user == Some(u) && isAuthenticated && storedUser == Some(u)
      ensures preferences == old(preferences) && storedPreferences == old(storedPreferences)
      ensures loading == old(loading) && error == old(error)
      ensures Valid()
    {
      user := Some(u);
      isAuthenticated := true;
      storedUser := Some(u);
    }

    /** `updateUser`: nothing without a user; otherwise the supplied fields replace the old ones. */
    method UpdateUser(updates: UserPatch)
      modifies this
      ensures old(user).None? ==> user == None && storedUser == old(storedUser)
      ensures old(user).Some? ==>
        user == Some(MergeUser(old(user).value, updates)) && storedUser == user
      ensures isAuthenticated == old(isAuthenticated) && preferences == old(preferences)
      ensures storedPreferences == old(storedPreferences) && loading == old(loading) && error == old(error)
      ensures old(Valid()) ==> Valid()
    {
      if user.None? {
        return;
      }
      var updatedUser := MergeUser(user.value, updates);
      user := Some(updatedUser);
      storedUser := Some(updatedUser);
    }

    /** `updatePreferences`: only the supplied preference fields change. */
    method UpdatePreferences(newPreferences: PreferencesPatch)
      modifies this
      ensures preferences == MergePreferences(old(preferences), newPreferences)
      ensures storedPreferences == Some(preferences)
      ensures user == old(user) && isAuthenticated == old(isAuthenticated) && storedUser == old(storedUser)
      ensures loading == old(loading) && error == old(error)
    {
      var updatedPreferences := MergePreferences(preferences, newPreferences);
      preferences := updatedPreferences;
      storedPreferences := Some(updatedPreferences);
    }

    /** `logout`: no user, not authenticated, the saved user removed; preferences stay. */
    method Logout()
      modifies this
      ensures user == None && !isAuthenticated && storedUser == None
      ensures preferences == old(preferences) && storedPreferences == old(storedPreferences)
      ensures loading == old(loading) && error == old(error)
      ensures Valid()
    {
      user := None;
      isAuthenticated := false;
      storedUser := None;
    }

    /**
     * `loadUser`: the saved user (or none) and the saved preferences, or the
     * defaults when none are saved; on a failed read only `error` is set.
     */
    method LoadUser(readOk: bool)
      modifies this
      ensures readOk ==>
        && user == old(storedUser)
        && preferences == old(storedPreferences).GetOr(DefaultPreferences)
        && (isAuthenticated <==> user.Some?)
        && error == old(error)
      ensures !readOk ==>
        && user == old(user) && preferences == old(preferences)
        && isAuthenticated == old(isAuthenticated) && error == Some("Failed to load user data")
      ensures !loading && storedUser == old(storedUser) && storedPreferences == old(storedPreferences)
      ensures old(Valid()) ==> Valid()
    {
      loading := true;
      if readOk {
        user := storedUser;
        preferences := storedPreferences.GetOr(DefaultPreferences);
        isAuthenticated := user.Some?;
        loading := false;
      } else {
        error := Some("Failed to load user data");
        loading := false;
      }
    }
  }
}
