/** The route middleware of middleware.js: the two payload validators, the login gate
    and the two ownership gates. The validators in routes/campgrounds.js:16-25 and
    routes/reviews.js:16-24 are the same code as the ones here. */
module Middleware {
  import opened Common
  import opened Context
  import opened Schemas
  import opened CampgroundModel
  import opened Database

  /** `validateCampground`: `next()` for a payload that satisfies `campgroundSchema`;
      otherwise an ExpressError with status 400 whose message is the violations joined
      by "," (so splitting it at "," gives the violations back). */
  function ValidateCampground(body: Body): (o: Outcome)
    ensures o == Next <==> CampgroundPayloadOk(body)
    ensures o != Next ==> o.Fail? && o.error.ExpressError? && o.error.status == 400
                          && Split(o.error.message, ',') == CampgroundViolations(body)
  {
    var violations := CampgroundViolations(body);
    if violations == [] then Next
    else
      SplitJoin(violations, ',');
      Fail(ExpressError(Join(violations, ','), 400))
  }

  /** `validateReview`, the same check against `reviewSchema`. */
  function ValidateReview(body: Body): (o: Outcome)
    ensures o == Next <==> ReviewPayloadOk(body)
    ensures o != Next ==> o.Fail? && o.error.ExpressError? && o.error.status == 400
                          && Split(o.error.message, ',') == ReviewViolations(body)
  {
    var violations := ReviewViolations(body);
    if violations == [] then Next
    else
      SplitJoin(violations, ',');
      Fail(ExpressError(Join(violations, ','), 400))
  }

  const SignInFirst := "You must be signed in!"
  const NoEditPermission := "You do not have permission to edit!"
  const NoDeletePermission := "You do not have permission to delete!"

  /** `isLoggedIn`: an anonymous request remembers where it was going, is told to sign
      in and is sent to the login page; an authenticated one passes on untouched. */
  method IsLoggedIn(session: Session, originalUrl: string) returns (o: Outcome)
    modifies session`returnTo, session`flash
    ensures session.user.None? ==> o == Redirect(LoginUrl) && session.returnTo == Some(originalUrl)
                                   && session.flash == old(session.flash) + [Flash(Error, SignInFirst)]
    ensures session.user.Some? ==> o == Next && session.returnTo == old(session.returnTo)
                                   && session.flash == old(session.flash)
  {
    if session.user.None? {
      session.returnTo := Some(originalUrl);
      session.AddFlash(Error, SignInFirst);
      return Redirect(LoginUrl);
    }
    o := Next;
  }

  /** `doc.author.equals(req.user._id)` for a looked-up document `doc` whose author is
      `author`: the TypeError raised by the first missing link (the document, its author,
      the user, in evaluation order), or whether the two ids are equal. */
  function AuthorIs(found: bool, author: Option<Id>, user: Option<Id>): Result<bool> {
    if !found then Err(NullRead("author"))
    else if author.None? then Err(UndefinedRead("equals"))
    else if user.None? then Err(UndefinedRead("_id"))
    else Ok(author.value == user.value)
  }

  /** The shared tail of `isAuthor` and `isReviewAuthor`: fail on a broken lookup,
      deny with `denial` and a redirect to the campground page on a mismatch, or pass. */
  method RequireAuthor(session: Session, check: Result<bool>, id: Id, denial: string) returns (o: Outcome)
    modifies session`flash
    ensures check.Err? ==> o == Fail(TypeError(check.message)) && session.flash == old(session.flash)
    ensures check == Ok(false) ==> o == Redirect(CampgroundUrl(id))
                                   && session.flash == old(session.flash) + [Flash(Error, denial)]
    ensures check == Ok(true) ==> o == Next && session.flash == old(session.flash)
  {
    match check
    case Err(message) =>
      o := Fail(TypeError(message));
    case Ok(same) =>
      if !same {
        session.AddFlash(Error, denial);
        return Redirect(CampgroundUrl(id));
      }
      o := Next;
  }

  /** `isAuthor`: lets the campground's author through, turns anyone else back to the
      campground page; it reads the store and changes no document. */
  method IsAuthor(store: Store, session: Session, id: Id) returns (o: Outcome)
    modifies session`flash
    ensures id !in store.campgrounds ==> o == Fail(TypeError(NullRead("author"))) && session.flash == old(session.flash)
    ensures id in store.campgrounds && store.campgrounds[id].author.None?
            ==> o == Fail(TypeError(UndefinedRead("equals"))) && session.flash == old(session.flash)
    ensures id in store.campgrounds && store.campgrounds[id].author.Some? && session.user.None?
            ==> o == Fail(TypeError(UndefinedRead("_id"))) && session.flash == old(session.flash)
    ensures id in store.campgrounds && store.campgrounds[id].author.Some? && session.user.Some?
            && store.campgrounds[id].author != session.user
            ==> o == Redirect(CampgroundUrl(id)) && session.flash == old(session.flash) + [Flash(Error, NoEditPermission)]
    ensures id in store.campgrounds && store.campgrounds[id].author.Some? && store.campgrounds[id].author == session.user
            ==> o == Next && session.flash == old(session.flash)
  {
    var campground := store.FindCampground(id);
    var author := if campground.Some? then campground.value.author else None;
    o := RequireAuthor(session, AuthorIs(campground.Some?, author, session.user), id, NoEditPermission);
  }

  /** `isReviewAuthor`: the same gate for the review's author, redirecting to the page
      of campground `id`. */
  method IsReviewAuthor(store: Store, session: Session, id: Id, reviewId: Id) returns (o: Outcome)
    modifies session`flash
    ensures reviewId !in store.reviews ==> o == Fail(TypeError(NullRead("author"))) && session.flash == old(session.flash)
    ensures reviewId in store.reviews && store.reviews[reviewId].author.None?
            ==> o == Fail(TypeError(UndefinedRead("equals"))) && session.flash == old(session.flash)
    ensures reviewId in store.reviews && store.reviews[reviewId].author.Some? && session.user.None?
            ==> o == Fail(TypeError(UndefinedRead("_id"))) && session.flash == old(session.flash)
    ensures reviewId in store.reviews && store.reviews[reviewId].author.Some? && session.user.Some?
            && store.reviews[reviewId].author != session.user
            ==> o == Redirect(CampgroundUrl(id)) && session.flash == old(session.flash) + [Flash(Error, NoDeletePermission)]
    ensures reviewId in store.reviews && store.reviews[reviewId].author.Some? && store.reviews[reviewId].author == session.user
            ==> o == Next && session.flash == old(session.flash)
  {
    var review := store.FindReview(reviewId);
    var author := if review.Some? then review.value.author else None;
    o := RequireAuthor(session, AuthorIs(review.Some?, author, session.user), id, NoDeletePermission);
  }
}
