/** The account handlers of controllers/users.js. Passport and passport-local-mongoose
    are outside the model: `User.register` arrives as a function parameter and what
    `req.login` decides as a flag. */
module UsersController {
  import opened Common
  import opened Context

  const Welcome := "Welcome to Yelp Camp!"
  const WelcomeBack := "Welcome back!"
  const Goodbye := "Goodbye!"

  /** `req.session.returnTo || "/campgrounds"`: the saved path unless it is missing or
      empty. */
  function ReturnPath(returnTo: Option<string>): (r: string)
    ensures returnTo.Some? && returnTo.value != "" ==> r == returnTo.value
    ensures returnTo.None? || returnTo.value == "" ==> r == CampgroundsUrl
    ensures r != ""
  {
    if returnTo.Some? && returnTo.value != "" then returnTo.value else CampgroundsUrl
  }

  /** `new User({ email, username })`: the account fields the user document is built
      from; the password is not one of them. */
  datatype NewUser = NewUser(email: Option<string>, username: Option<string>)

  /** `register`: takes `email`, `username` and `password` from the body (absent ones
      are undefined), builds the user from the first two only, and hands it to
      `User.register` together with the password. `userRegister` is that call: the new
      user's id, or the message of the error it threw (a taken username, say).
      `loginFails` is whether `req.login` then reported an error. Passport leaves no
      user on the request when logging in fails, and the error is passed to `next`,
      which is not bound in the handler, so what the request ends with is not
      determined. */
  method Register(session: Session, email: Option<string>, username: Option<string>, password: Option<string>,
                  userRegister: (NewUser, Option<string>) -> Result<Id>, loginFails: bool) returns (o: Outcome)
    modifies session`user, session`flash
    ensures var registered := userRegister(NewUser(email, username), password);
            && (registered.Err? ==> o == Redirect(RegisterUrl) && session.user == old(session.user)
                                    && session.flash == old(session.flash) + [Flash(Error, registered.message)])
            && (registered.Ok? && loginFails ==> o == Fail(Unspecified) && session.user == None
                                                 && session.flash == old(session.flash))
            && (registered.Ok? && !loginFails ==> o == Redirect(CampgroundsUrl) && session.user == Some(registered.value)
                                                  && session.flash == old(session.flash) + [Flash(Success, Welcome)])
  {
    var user := NewUser(email, username);
    var registered := userRegister(user, password);
    match registered
    case Err(message) =>
      session.AddFlash(Error, message);
      o := Redirect(RegisterUrl);
    case Ok(id) =>
      if loginFails {
        session.user := None;
        return Fail(Unspecified);
      }
      session.user := Some(id);
      session.AddFlash(Success, Welcome);
      o := Redirect(CampgroundsUrl);
  }

  /** `login`, run once passport has authenticated the user: greets them and sends them
      where they were going before they were asked to sign in, forgetting that path. */
  method Login(session: Session) returns (o: Outcome)
    modifies session`returnTo, session`flash
    ensures o == Redirect(ReturnPath(old(session.returnTo)))
    ensures session.returnTo == None
    ensures session.flash == old(session.flash) + [Flash(Success, WelcomeBack)]
  {
    session.AddFlash(Success, WelcomeBack);
    var target := ReturnPath(session.returnTo);
    session.returnTo := None;
    o := Redirect(target);
  }

  /** `logout`. */
  method Logout(session: Session) returns (o: Outcome)
    modifies session`user, session`flash
    ensures session.user == None
    ensures session.flash == old(session.flash) + [Flash(Success, Goodbye)]
    ensures o == Redirect(CampgroundsUrl)
  {
    session.user := None;
    session.AddFlash(Success, Goodbye);
    o := Redirect(CampgroundsUrl);
  }
}
