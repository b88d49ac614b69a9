/** The account routes of routes/users.js. POST /register and GET /logout run the same
    code as `UsersController.Register` and `UsersController.Logout`; POST /login puts
    passport's authentication in front of the `login` handler. */
module UserRoutes {
  import opened Common
  import opened Context
  import opened Middleware
  import opened UsersController

  /** `passport.authenticate("local", {failureFlash: true, failureRedirect: "/login"})`:
      `auth` is the strategy's verdict on the submitted credentials, the user's id or the
      message it failed with. A failure is shown as an error and sends the user back to
      the login form; a success logs the user in and passes on. */
  method Authenticate(session: Session, auth: Result<Id>) returns (o: Outcome)
    modifies session`user, session`flash
    ensures auth.Err? ==> o == Redirect(LoginUrl) && session.user == old(session.user)
                          && session.flash == old(session.flash) + [Flash(Error, auth.message)]
    ensures auth.Ok? ==> o == Next && session.user == Some(auth.value) && session.flash == old(session.flash)
  {
    match auth
    case Err(message) =>
      session.AddFlash(Error, message);
      o := Redirect(LoginUrl);
    case Ok(user) =>
      session.user := Some(user);
      o := Next;
  }

  /** POST /login. */
  method PostLogin(session: Session, auth: Result<Id>) returns (o: Outcome)
    modifies session`user, session`returnTo, session`flash
    ensures auth.Err? ==> o == Redirect(LoginUrl) && session.user == old(session.user)
                          && session.returnTo == old(session.returnTo)
                          && session.flash == old(session.flash) + [Flash(Error, auth.message)]
    ensures auth.Ok? ==> o == Redirect(ReturnPath(old(session.returnTo))) && session.user == Some(auth.value)
                         && session.returnTo == None
                         && session.flash == old(session.flash) + [Flash(Success, WelcomeBack)]
  {
    o := Authenticate(session, auth);
    if o != Next {
      return;
    }
    o := Login(session);
  }

  /** The detour through the login page: an anonymous request for `url` is sent to sign
      in, signing in then leads back to `url` (a non-empty original URL), and the saved
      path is used only once, so signing in again leads to the campground list. */
  method SignInDetour(session: Session, url: string, user: Id) returns (asked: Outcome, back: Outcome, again: Outcome)
    requires session.user.None? && url != ""
    modifies session`user, session`returnTo, session`flash
    ensures asked == Redirect(LoginUrl)
    ensures back == Redirect(url)
    ensures again == Redirect(CampgroundsUrl)
    ensures session.user == Some(user) && session.returnTo == None
    ensures session.flash == old(session.flash) + [Flash(Error, SignInFirst), Flash(Success, WelcomeBack), Flash(Success, WelcomeBack)]
  {
    asked := IsLoggedIn(session, url);
    back := PostLogin(session, Ok(user));
    again := PostLogin(session, Ok(user));
  }
}
