/** The `/api/update-profile` route: a name and/or avatar URL written first to the auth user's
    metadata and then to the `users` row. */
module UpdateProfile {
  import opened Wrappers
  import opened Http

  const NotAuthenticated: string := "Not authenticated"
  const NoUpdateData: string := "No update data provided"
  const ProfileUpdated: string := "Profile updated successfully"

  /** A column or metadata map: key to value. */
  type Fields = map<string, string>

  /** `if (value)` on a form field that is a string or `null`. */
  predicate Provided(value: Option<string>) {
    value.Some? && value.value != ""
  }

  /** `authUpdateData.data`: `full_name` and `avatar_url`, each only when provided. */
  function AuthData(name: Option<string>, avatarUrl: Option<string>): (r: Fields)
    ensures "full_name" in r <==> Provided(name)
    ensures "avatar_url" in r <==> Provided(avatarUrl)
    ensures r.Keys <= {"full_name", "avatar_url"}
    ensures "full_name" in r ==> r["full_name"] == name.value
    ensures "avatar_url" in r ==> r["avatar_url"] == avatarUrl.value
  {
    var withName: Fields := if Provided(name) then map["full_name" := name.value] else map[];
    if Provided(avatarUrl) then withName["avatar_url" := avatarUrl.value] else withName
  }

  /** `profileUpdateData`: the name goes to both `full_name` and `name`. */
  function ProfileData(name: Option<string>, avatarUrl: Option<string>): (r: Fields)
    ensures "full_name" in r <==> Provided(name)
    ensures "name" in r <==> Provided(name)
    ensures "avatar_url" in r <==> Provided(avatarUrl)
    ensures r.Keys <= {"full_name", "name", "avatar_url"}
    ensures Provided(name) ==> r["full_name"] == name.value && r["name"] == name.value
    ensures "avatar_url" in r ==> r["avatar_url"] == avatarUrl.value
  {
    var withName: Fields := if Provided(name) then map["full_name" := name.value, "name" := name.value] else map[];
    if Provided(avatarUrl) then withName["avatar_url" := avatarUrl.value] else withName
  }

  /** The two objects carry the same information: the profile has exactly the auth keys plus
      `name` alongside `full_name`, so both are empty together. */
  lemma SameProvidedKeys(name: Option<string>, avatarUrl: Option<string>)
    ensures ProfileData(name, avatarUrl).Keys == AuthData(name, avatarUrl).Keys + (if Provided(name) then {"name"} else {})
    ensures |AuthData(name, avatarUrl)| > 0 <==> |ProfileData(name, avatarUrl)| > 0
  {
    var a := AuthData(name, avatarUrl);
    var p := ProfileData(name, avatarUrl);
    if |a| == 0 {
      assert a == map[];
      assert !Provided(name) && !Provided(avatarUrl);
      assert p.Keys == {};
    } else {
      var k :| k in a;
      assert k in p;
    }
  }

  /** The auth users' metadata and the `users` table, each keyed by user id. */
  class ProfileApi {
    var metadata: map<string, Fields>
    var profiles: map<string, Fields>

    constructor(metadata: map<string, Fields>, profiles: map<string, Fields>)
      ensures this.metadata == metadata && this.profiles == profiles
    {
      this.metadata := metadata;
      this.profiles := profiles;
    }

    /** POST with the form fields `name` and `avatarUrl`. `authFault` and `profileFault` are
        the error messages of the two writes, when they fail. */
    method Post(user: Option<string>, name: Option<string>, avatarUrl: Option<string>,
                authFault: Option<string>, profileFault: Option<string>) returns (r: Response<string>)
      modifies this
      ensures user.None? ==> r == Error(401, NotAuthenticated)
      ensures user.Some? && !Provided(name) && !Provided(avatarUrl) ==> r == Error(400, NoUpdateData)
      // The auth write comes first; when it fails the profile is not written.
      ensures user.Some? && (Provided(name) || Provided(avatarUrl)) && authFault.Some? ==>
        r == Error(500, authFault.value)
      ensures !(user.Some? && (Provided(name) || Provided(avatarUrl)) && authFault.None?) ==>
        metadata == old(metadata) && profiles == old(profiles)
      ensures user.Some? && (Provided(name) || Provided(avatarUrl)) && authFault.None? ==>
        && metadata == old(metadata)[user.value := MetadataOf(old(metadata), user.value) + AuthData(name, avatarUrl)]
        && (profileFault.Some? ==> profiles == old(profiles) && r == Error(500, profileFault.value))
        && (profileFault.None? ==>
              r == Ok(ProfileUpdated)
              && profiles == (if user.value in old(profiles)
                              then old(profiles)[user.value := old(profiles)[user.value] + ProfileData(name, avatarUrl)]
                              else old(profiles)))
    {
      if user.None? {
        return Error(401, NotAuthenticated);
      }
      var userId := user.value;
      var authUpdateData: Fields := map[];
      var profileUpdateData: Fields := map[];
      if name.Some? && name.value != "" {
        authUpdateData := authUpdateData["full_name" := name.value];
        profileUpdateData := profileUpdateData["full_name" := name.value];
        profileUpdateData := profileUpdateData["name" := name.value];
      }
      if avatarUrl.Some? && avatarUrl.value != "" {
        authUpdateData := authUpdateData["avatar_url" := avatarUrl.value];
        profileUpdateData := profileUpdateData["avatar_url" := avatarUrl.value];
      }
      assert authUpdateData == AuthData(name, avatarUrl);
      assert profileUpdateData == ProfileData(name, avatarUrl);
      if |authUpdateData| > 0 {
        if authFault.Some? {
          return Error(500, authFault.value);
        }
        metadata := metadata[userId := MetadataOf(metadata, userId) + authUpdateData];
        if profileFault.Some? {
          return Error(500, profileFault.value);
        }
        if userId in profiles {
          profiles := profiles[userId := profiles[userId] + profileUpdateData];
        }
      } else {
        return Error(400, NoUpdateData);
      }
      r := Ok(ProfileUpdated);
    }
  }

  /** The user's current metadata, empty when none has been stored. */
  function MetadataOf(metadata: map<string, Fields>, userId: string): Fields {
    if userId in metadata then metadata[userId] else map[]
  }

  /** Updating only the avatar leaves a stored name alone, and vice versa. */
  lemma UpdateKeepsOtherField(row: Fields, name: Option<string>, avatarUrl: Option<string>)
    ensures !Provided(name) && "full_name" in row ==> (row + ProfileData(name, avatarUrl))["full_name"] == row["full_name"]
    ensures !Provided(avatarUrl) && "avatar_url" in row ==> (row + ProfileData(name, avatarUrl))["avatar_url"] == row["avatar_url"]
    ensures Provided(avatarUrl) ==> (row + ProfileData(name, avatarUrl))["avatar_url"] == avatarUrl.value
  {
  }
}
