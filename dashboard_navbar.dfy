/** The dashboard navigation bar's avatar: the picture URL and the initials shown in its place. */
module DashboardNavbar {
  import opened Wrappers
  import opened SettingsPage

  /** The signed-in user as `auth.getUser()` returns it. */
  datatype User = User(id: string, email: Option<string>)

  /** The `avatar_url, full_name` columns of the user's row, as far as they are set. */
  datatype Profile = Profile(avatarUrl: Option<string>, fullName: Option<string>)

  /** The initials shown before the profile has loaded or with nobody signed in. */
  const DefaultInitials: string := "U"

  class Navbar {
    var userAvatar: Option<string>
    var userInitials: string

    constructor()
      ensures userAvatar.None? && userInitials == DefaultInitials
    {
      userAvatar := None;
      userInitials := DefaultInitials;
    }

    /** The mount effect: `user` from the session, `userData` the row read (`null` when the
        read failed). */
    method FetchUserData(user: Option<User>, userData: Option<Profile>)
      modifies this
      ensures user.None? ==> userAvatar == old(userAvatar) && userInitials == old(userInitials)
      // The avatar is replaced only by a non-empty URL.
      ensures user.Some? ==>
        userAvatar == (if userData.Some? && userData.value.avatarUrl.Some? && userData.value.avatarUrl.value != ""
                       then userData.value.avatarUrl else old(userAvatar))
      // The same derivation as the account page.
      ensures user.Some? ==>
        userInitials == Initials(DisplayName(if userData.Some? then userData.value.fullName else None, user.value.email))
      // Never more than two characters once derived.
      ensures user.Some? ==> |userInitials| <= 2
    {
      if user.Some? {
        if userData.Some? && userData.value.avatarUrl.Some? && userData.value.avatarUrl.value != "" {
          userAvatar := userData.value.avatarUrl;
        }
        var fullName := DisplayName(if userData.Some? then userData.value.fullName else None, user.value.email);
        userInitials := Initials(fullName);
      }
    }
  }
}
