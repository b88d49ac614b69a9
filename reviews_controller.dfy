/** The review handlers of controllers/reviews.js. */
module ReviewsController {
  import opened Common
  import opened Context
  import opened CampgroundModel
  import opened Database

  const ReviewAdded := "Successfully added a review!"
  const ReviewRemoved := "Successfully deleted the review!"
  /** The prefix of the error `review.save()` rejects with when a field could not be cast. */
  const ReviewInvalid := "Review validation failed"
  /** The error `new Review(value)` throws for a value that is not an object. */
  const NotADocument := "Parameter \"obj\" to Document() must be an object"

  /** What happens from `campground.reviews.push(review)` to the redirect, for the
      campground `id` as found before, and the review built from the request (None when
      one of its fields could not be cast): a missing campground fails on reading its
      `reviews` and an uncastable review fails its save, both writing nothing. Otherwise
      the review is stored under `rid`; then the campground, with `rid` appended to its
      list, is saved and the user is sent to the campground page, unless the campground
      fails save validation, in which case the request fails with the review stored and
      listed by no campground. */
  twostate predicate Attached(store: Store, session: Session, id: Id, rid: Id, review: Option<Review>, o: Outcome)
    reads store, session
  {
    if id !in old(store.campgrounds) then
      o == Fail(TypeError(NullRead("reviews"))) && unchanged(store) && session.flash == old(session.flash)
    else if review.None? then
      o == Fail(MongooseError(ReviewInvalid)) && unchanged(store) && session.flash == old(session.flash)
    else if !Savable(old(store.campgrounds)[id]) then
      && o == Fail(MongooseError(CampgroundInvalid))
      && store.reviews == old(store.reviews)[rid := review.value]
      && store.campgrounds == old(store.campgrounds)
      && store.writes == old(store.writes) + [ReviewSaved(rid)]
      && session.flash == old(session.flash)
    else
      && store.reviews == old(store.reviews)[rid := review.value]
      && store.campgrounds == old(store.campgrounds)[id := old(store.campgrounds)[id].(reviews := old(store.campgrounds)[id].reviews + [rid])]
      && store.writes == old(store.writes) + [ReviewSaved(rid), CampgroundSaved(id)]
      && session.flash == old(session.flash) + [Flash(Success, ReviewAdded)]
      && o == Redirect(CampgroundUrl(id))
  }

  /** The shared tail of `createReview` and of the inline POST handler of
      routes/reviews.js; `rid` is the id `new Review()` drew. */
  method AttachReview(store: Store, session: Session, id: Id, rid: Id, review: Option<Review>) returns (o: Outcome)
    requires store.Fresh(rid)
    modifies store, session`flash
    ensures Attached(store, session, id, rid, review, o)
    ensures old(store.Consistent()) ==> store.Consistent()
  {
    ghost var cgs, rvs := store.campgrounds, store.reviews;
    var campground := store.FindCampground(id);
    if campground.None? {
      return Fail(TypeError(NullRead("reviews")));
    }
    var pushed := campground.value.(reviews := campground.value.reviews + [rid]);
    if review.None? {
      return Fail(MongooseError(ReviewInvalid));
    }
    store.SaveReview(rid, review.value);
    var ok := store.SaveCampground(id, pushed);
    if !ok {
      // The review is stored already; no campground lists it.
      return Fail(MongooseError(CampgroundInvalid));
    }
    session.AddFlash(Success, ReviewAdded);
    o := Redirect(CampgroundUrl(id));
    if old(store.Consistent()) {
      AttachKeepsConsistency(cgs, rvs, id, rid, review.value);
    }
  }

  /** `review.author = req.user._id` on the built review. */
  function Authored(review: Option<Review>, user: Id): Option<Review> {
    if review.Some? then Some(review.value.(author := Some(user))) else None
  }

  /** `createReview`: builds the review from `req.body.review` (`payload`), signs it with
      the current user, and attaches it to campground `id`. */
  method CreateReview(store: Store, session: Session, id: Id, rid: Id, payload: Option<Value>) returns (o: Outcome)
    requires store.Fresh(rid)
    modifies store, session`flash
    ensures payload.Some? && !payload.value.Obj?
            ==> o == Fail(MongooseError(NotADocument)) && unchanged(store) && session.flash == old(session.flash)
    ensures (payload.None? || payload.value.Obj?) && session.user.None?
            ==> o == Fail(TypeError(UndefinedRead("_id"))) && unchanged(store) && session.flash == old(session.flash)
    ensures (payload.None? || payload.value.Obj?) && session.user.Some?
            ==> Attached(store, session, id, rid, Authored(CastReview(Spread(payload)), session.user.value), o)
    ensures old(store.Consistent()) ==> store.Consistent()
  {
    if payload.Some? && !payload.value.Obj? {
      return Fail(MongooseError(NotADocument));
    }
    var review := CastReview(Spread(payload));
    if session.user.None? {
      return Fail(TypeError(UndefinedRead("_id")));
    }
    o := AttachReview(store, session, id, rid, Authored(review, session.user.value));
  }

  /** `deleteReview`: `$pull`s `reviewId` from campground `id`'s list, deletes the review
      document, and sends the user to the campground page. Neither call checks that the
      review belongs to that campground. */
  method DeleteReview(store: Store, session: Session, id: Id, reviewId: Id) returns (o: Outcome)
    modifies store, session`flash
    ensures store.campgrounds == PullReviewFrom(old(store.campgrounds), id, reviewId)
    ensures store.reviews == old(store.reviews) - {reviewId}
    ensures store.writes == old(store.writes) + [CampgroundUpdated(id), ReviewDeleted(reviewId)]
    ensures session.flash == old(session.flash) + [Flash(Success, ReviewRemoved)]
    ensures o == Redirect(CampgroundUrl(id))
    ensures old(store.Consistent()) && (forall c :: c in old(store.campgrounds) && reviewId in old(store.campgrounds)[c].reviews ==> c == id)
            ==> store.Consistent()
  {
    ghost var cgs, rvs := store.campgrounds, store.reviews;
    store.PullReview(id, reviewId);
    store.DeleteReview(reviewId);
    session.AddFlash(Success, ReviewRemoved);
    o := Redirect(CampgroundUrl(id));
    if old(store.Consistent()) && (forall c :: c in cgs && reviewId in cgs[c].reviews ==> c == id) {
      DetachKeepsConsistency(cgs, rvs, id, reviewId);
    }
  }
}
