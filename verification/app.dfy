/** The top of the client: which screen shows for the session's `loading` and `user` and
    the page the navigation bar last chose. */
module App {
  import opened Common
  import opened Api

  /** The page chosen when the application starts. */
  const InitialView: string := "feed"

  /** What is on screen: the start-up spinner, the sign-in card (with its login form or its
      registration form), or the signed-in layout with the feed and/or the profile. */
  datatype Screen = Spinner | AuthCard(showsLogin: bool) | Main(showsFeed: bool, showsProfile: bool)

  /** `AppContent`: the spinner while the session starts, whatever the user; the sign-in
      card without a user; the signed-in pages only with a user. */
  function ScreenOf(loading: bool, user: Option<UserView>, currentView: string): (s: Screen)
    ensures loading ==> s == Spinner
    ensures s.Main? <==> !loading && user.Some?
    ensures !loading && user.None? ==> s.AuthCard? && (s.showsLogin <==> currentView == "login")
    ensures s.Main? ==> (s.showsFeed <==> currentView == "feed") && (s.showsProfile <==> currentView == "profile")
    ensures s.Main? ==> !(s.showsFeed && s.showsProfile)
  {
    if loading then Spinner
    else if user.None? then AuthCard(currentView == "login")
    else Main(currentView == "feed", currentView == "profile")
  }

  /** At start-up the chosen page is the feed, so a visitor who is not signed in sees the
      registration form, not the login form. */
  lemma StartShowsRegistration()
    ensures ScreenOf(false, None, InitialView) == AuthCard(false)
  {
  }

  /** A user who signs in from the login form lands on an empty page: "login" names
      neither the feed nor the profile. */
  lemma SignInFromLoginShowsNoPage(user: UserView)
    ensures ScreenOf(false, Some(user), "login") == Main(false, false)
  {
  }

  /** The signed-in layout as evidently meant: the profile on "profile", the feed on any
      other page name, including the "login" and "register" left over from the sign-in
      card. Everything else is as in `ScreenOf`. */
  function IntendedScreenOf(loading: bool, user: Option<UserView>, currentView: string): (s: Screen)
    ensures s.Main? <==> !loading && user.Some?
    ensures s.Main? ==> (s.showsFeed <==> !s.showsProfile)
    ensures s.Main? ==> (s.showsProfile <==> currentView == "profile")
  {
    if loading || user.None? then ScreenOf(loading, user, currentView)
    else Main(currentView != "profile", currentView == "profile")
  }

  /** The intended screen differs from the written one only where the written one shows an
      empty signed-in page. */
  lemma IntendedDiffersOnlyOnEmptyPage(loading: bool, user: Option<UserView>, currentView: string)
    ensures ScreenOf(loading, user, currentView) != IntendedScreenOf(loading, user, currentView)
      <==> ScreenOf(loading, user, currentView) == Main(false, false)
  {
  }
}
