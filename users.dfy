/** The last step of `POST /login`: where a visitor goes once signed in, and
    how `isLoggedIn` and `storeReturnTo` together bring them back to the page
    they were turned away from. */
module UserRoutes {
  import opened Js
  import opened Gate
  import opened Middleware

  const WelcomeBack := "Welcome back!"
  const CampgroundsIndex := "/campgrounds"

  /** The login handler: `res.locals.returnTo || '/campgrounds'`, with a
      success flash. */
  function LoginRedirect(localsReturnTo: Option<string>): (o: Outcome)
    ensures o.Redirect? && o.flash == Flash("success", WelcomeBack)
    ensures o.url != ""
    ensures StringTruthy(localsReturnTo) ==> o.url == localsReturnTo.value
    ensures !StringTruthy(localsReturnTo) ==> o.url == CampgroundsIndex
  {
    Redirect(if StringTruthy(localsReturnTo) then localsReturnTo.value else CampgroundsIndex,
             Flash("success", WelcomeBack))
  }

  /** A signed-out visitor, whatever their session already holds, asks for
      `url` and is sent to the login page; the login request, in the same
      session, runs `storeReturnTo` before authentication, and the login
      handler then sends the visitor back to `url`. */
  method ReturnAfterLogin(url: string, session: Session) returns (turnedAway: Outcome, welcomed: Outcome)
    requires url != ""
    modifies session
    ensures turnedAway == Redirect(LoginPage, Flash("error", SignInRequired))
    ensures welcomed == Redirect(url, Flash("success", WelcomeBack))
  {
    var visit := new Exchange(None, url, session);
    turnedAway := visit.IsLoggedIn();
    var login := new Exchange(None, LoginPage, session);
    var stored := login.StoreReturnTo();
    welcomed := LoginRedirect(login.localsReturnTo);
  }
}
