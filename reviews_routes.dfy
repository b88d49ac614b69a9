/** The inline handlers of routes/reviews.js, mounted under /campgrounds/:id/reviews.
    The DELETE handler there is the same code as `ReviewsController.DeleteReview`. */
module ReviewRoutes {
  import opened Common
  import opened Context
  import opened Schemas
  import opened CampgroundModel
  import opened Database
  import opened Middleware
  import opened ReviewsController

  /** POST /campgrounds/:id/reviews: `validateReview`, then the handler, which stores
      the review without an author; there is no login check on this route. */
  method PostReview(store: Store, session: Session, id: Id, rid: Id, body: Body) returns (o: Outcome)
    requires store.Fresh(rid)
    modifies store, session`flash
    ensures !ReviewPayloadOk(body) ==> o == ValidateReview(body) && unchanged(store) && session.flash == old(session.flash)
    ensures ReviewPayloadOk(body) ==>
              var f := body["review"].fields;
              Attached(store, session, id, rid, Some(Review(Some(f["rating"].n), Some(f["body"].s), None)), o)
    ensures old(store.Consistent()) ==> store.Consistent()
  {
    o := ValidateReview(body);
    if o != Next {
      return;
    }
    ValidReviewCasts(body);
    o := AttachReview(store, session, id, rid, CastReview(Spread(Some(body["review"]))));
  }
}
