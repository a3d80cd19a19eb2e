/**
 * The client's user store: the signed-in user's record (with its relations as
 * `GET /api/user` returns them), the public profile being viewed, and a loading flag.
 */
module UserStore {
  import opened Wrappers
  import opened Json
  import opened Model
  import opened Fetch

  class UserStore {
    var user: Option<UserData>
    var userProfile: Option<Json>
    var loading: bool

    constructor ()
      ensures user.None? && userProfile.None? && !loading
    {
      user := None;
      userProfile := None;
      loading := false;
    }

    /** The computed `preferences`: the user's own when loaded, else the defaults (the
        contents of `DEFAULT_PREFERENCES` are a parameter). */
    function PreferencesView(defaults: map<string, Json>): (r: map<string, Json>)
      reads this
      ensures user.Some? && user.value.preferences.Some? ==> r == user.value.preferences.value.fields
      ensures user.None? || user.value.preferences.None? ==> r == defaults
    {
      if user.Some? && user.value.preferences.Some? then user.value.preferences.value.fields else defaults
    }

    /** `getUser`: `user` becomes the fetched record. */
    method GetUser(response: Fetched<UserData>) returns (r: Result<UserData, Option<Json>>)
      modifies this
      ensures !loading && userProfile == old(userProfile)
      ensures response.Fetched? ==> r == Ok(response.value) && user == Some(response.value)
      ensures response.FetchFailed? ==> r == Err(response.error) && user == old(user)
    {
      loading := true;
      match response {
      case Fetched(userData) =>
        user := Some(userData);
        r := Ok(userData);
      case FetchFailed(err) =>
        r := Err(err);
      }
      loading := false;
    }

    /** `getUserProfile(slug)`: sets `userProfile`, never `user`. */
    method GetUserProfile(slug: string, response: Fetched<Json>) returns (r: Result<Json, Option<Json>>)
      modifies this
      ensures !loading && user == old(user)
      ensures response.Fetched? ==> r == Ok(response.value) && userProfile == Some(response.value)
      ensures response.FetchFailed? ==> r == Err(response.error) && userProfile == old(userProfile)
    {
      loading := true;
      match response {
      case Fetched(profile) =>
        userProfile := Some(profile);
        r := Ok(profile);
      case FetchFailed(err) =>
        r := Err(err);
      }
      loading := false;
    }

    /** `updateUser`: `user` becomes the returned row, which carries no relations, so the
        computed preferences fall back to the defaults until the next `getUser`. */
    method UpdateUser(response: Fetched<User>) returns (r: Result<User, Option<Json>>)
      modifies this
      ensures !loading && userProfile == old(userProfile)
      ensures response.Fetched? ==> (r == Ok(response.value)
        && user == Some(UserData(response.value, None, [], []))
        && forall defaults :: PreferencesView(defaults) == defaults)
      ensures response.FetchFailed? ==> r == Err(response.error) && user == old(user)
    {
      loading := true;
      match response {
      case Fetched(updatedUser) =>
        user := Some(UserData(updatedUser, None, [], []));
        r := Ok(updatedUser);
      case FetchFailed(err) =>
        r := Err(err);
      }
      loading := false;
    }

    /** `updateUserImage`: only `user.image` changes, and only with a loaded user and a
        truthy `imageUrl`. */
    method UpdateUserImage(response: Fetched<Option<string>>) returns (r: Result<Option<string>, Option<Json>>)
      modifies this
      ensures !loading && userProfile == old(userProfile)
      ensures response.Fetched? ==> r == Ok(response.value)
      ensures response.Fetched? && old(user).Some? && TruthyStr(response.value) ==>
        user == Some(old(user).value.(user := old(user).value.user.(image := response.value)))
      ensures response.FetchFailed? || old(user).None? || !TruthyStr(response.value) ==> user == old(user)
      ensures response.FetchFailed? ==> r == Err(response.error)
    {
      loading := true;
      match response {
      case Fetched(imageUrl) =>
        if user.Some? && TruthyStr(imageUrl) {
          user := Some(user.value.(user := user.value.user.(image := imageUrl)));
        }
        r := Ok(imageUrl);
      case FetchFailed(err) =>
        r := Err(err);
      }
      loading := false;
    }

    /** `updatePreferences`: only `user.preferences` changes, and only with a loaded user
        and preferences in the response; the computed preferences then show them. */
    method UpdatePreferences(response: Fetched<Option<Preferences>>) returns (r: Result<Option<Preferences>, Option<Json>>)
      modifies this
      ensures !loading && userProfile == old(userProfile)
      ensures response.Fetched? ==> r == Ok(response.value)
      ensures response.Fetched? && old(user).Some? && response.value.Some? ==>
        (user == Some(old(user).value.(preferences := response.value))
        && forall defaults :: PreferencesView(defaults) == response.value.value.fields)
      ensures response.FetchFailed? || old(user).None? || response.value.None? ==> user == old(user)
      ensures response.FetchFailed? ==> r == Err(response.error)
    {
      loading := true;
      match response {
      case Fetched(updatedPreferences) =>
        if user.Some? && updatedPreferences.Some? {
          user := Some(user.value.(preferences := updatedPreferences));
        }
        r := Ok(updatedPreferences);
      case FetchFailed(err) =>
        r := Err(err);
      }
      loading := false;
    }

    /** `deleteUser`: `user` is cleared only after the request succeeds. */
    method DeleteUser(response: Fetched<()>) returns (r: Result<(), Option<Json>>)
      modifies this
      ensures !loading && userProfile == old(userProfile)
      ensures response.Fetched? ==> r == Ok(()) && user.None?
      ensures response.FetchFailed? ==> r == Err(response.error) && user == old(user)
    {
      loading := true;
      match response {
      case Fetched(_) =>
        user := None;
        r := Ok(());
      case FetchFailed(err) =>
        r := Err(err);
      }
      loading := false;
    }
  }
}
