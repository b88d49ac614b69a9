/** The per-request context that Express and passport attach to `req`: the session
    (logged-in user, saved return path, queued flash messages) and the outcome a
    middleware or handler produces. */
module Context {
  import opened Common

  /** A value of the parsed request body (`req.body`): a string, a number, a nested
      object, or anything else (an array, a boolean). */
  datatype Value = Str(s: string) | Num(n: real) | Obj(fields: map<string, Value>) | Other

  /** The top level of `req.body`. */
  type Body = map<string, Value>

  datatype FlashKind = Success | Error

  /** One `req.flash(kind, message)` entry, shown once by the next page. */
  datatype Flash = Flash(kind: FlashKind, message: string)

  /** What a handler throws or rejects with; the error pipeline turns it into a response. */
  datatype Failure =
    | ExpressError(message: string, status: nat)  // utils/ExpressError: a message and an HTTP status
    | TypeError(message: string)                  // a property read on null or undefined
    | MongooseError(message: string)              // a cast or validation error raised by Mongoose
    | Unspecified                                 // an error whose value the source leaves undetermined

  /** How one stage of a route ends: hand over to the next stage (`next()`), answer the
      request (redirect or render), or fail (throw, or reject the handler's promise,
      which the async wrapper forwards to `next(err)` unchanged). */
  datatype Outcome = Next | Redirect(url: string) | Render(view: string) | Fail(error: Failure)

  const CampgroundsUrl := "/campgrounds"
  const LoginUrl := "/login"
  const RegisterUrl := "/register"

  function CampgroundUrl(id: Id): string {
    "/campgrounds/" + NatText(id)
  }

  /** The TypeError text Node gives for reading `property` of null. */
  function NullRead(property: string): string {
    "Cannot read property '" + property + "' of null"
  }

  /** The TypeError text Node gives for reading `property` of undefined. */
  function UndefinedRead(property: string): string {
    "Cannot read property '" + property + "' of undefined"
  }

  class Session {
    /** `req.user`, restored by passport from the session; None when not authenticated. */
    var user: Option<Id>
    /** `req.session.returnTo`: where to go after logging in. */
    var returnTo: Option<string>
    /** Messages queued with `req.flash`, oldest first. */
    var flash: seq<Flash>

    constructor ()
      ensures user == None && returnTo == None && flash == []
    {
      user, returnTo, flash := None, None, [];
    }

    method AddFlash(kind: FlashKind, message: string)
      modifies this`flash
      ensures flash == old(flash) + [Flash(kind, message)]
    {
      flash := flash + [Flash(kind, message)];
    }
  }
}
