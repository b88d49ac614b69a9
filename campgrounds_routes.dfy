/** The routes of routes/campgrounds.js, mounted at /campgrounds, as the chain of
    middleware each runs. None of them checks ownership: `isAuthor` exists but no
    route uses it, so any signed-in user may edit or delete any campground. */
module CampgroundRoutes {
  import opened Common
  import opened Context
  import opened Schemas
  import opened CampgroundModel
  import opened Database
  import opened Middleware
  import opened CampgroundsController

  /** GET /campgrounds/new (`url` is the request's original URL). */
  method NewForm(session: Session, url: string) returns (o: Outcome)
    modifies session`returnTo, session`flash
    ensures session.user.None? ==> o == Redirect(LoginUrl) && session.returnTo == Some(url)
                                   && session.flash == old(session.flash) + [Flash(Error, SignInFirst)]
    ensures session.user.Some? ==> o == Render("campgrounds/new") && session.returnTo == old(session.returnTo)
                                   && session.flash == old(session.flash)
  {
    o := IsLoggedIn(session, url);
    if o != Next {
      return;
    }
    o := Render("campgrounds/new");
  }

  /** The four schema paths a valid campground payload sets, as submitted. */
  function SubmittedPatch(body: Body): (p: Patch)
    requires CampgroundPayloadOk(body)
    ensures CastPatch(Spread(Some(body["campground"]))) == Some(p)
    ensures p.title.Some? && p.price.Some? && p.description.Some? && p.location.Some?
    ensures p.price.value >= 0.0
  {
    ValidCampgroundCasts(body);
    var f := body["campground"].fields;
    Patch(Some(f["title"].s), Some(f["price"].n), Some(f["description"].s), Some(f["location"].s))
  }

  /** POST /campgrounds: `isLoggedIn`, `validateCampground`, then `new Campground(...)`
      and `save()`. The payload carries no geometry and the schema requires one, so the
      save is rejected every time: this route never creates a campground. `newId` is
      the id the new document drew. */
  method PostCampground(store: Store, session: Session, url: string, newId: Id, body: Body) returns (o: Outcome)
    requires store.Fresh(newId)
    modifies store, session`returnTo, session`flash
    ensures unchanged(store)
    ensures session.user.None? ==> o == Redirect(LoginUrl) && session.returnTo == Some(url)
                                   && session.flash == old(session.flash) + [Flash(Error, SignInFirst)]
    ensures session.user.Some? && !CampgroundPayloadOk(body)
            ==> o == ValidateCampground(body) && session.returnTo == old(session.returnTo)
                && session.flash == old(session.flash)
    ensures session.user.Some? && CampgroundPayloadOk(body)
            ==> o == Fail(MongooseError(CampgroundInvalid)) && session.returnTo == old(session.returnTo)
                && session.flash == old(session.flash)
  {
    o := IsLoggedIn(session, url);
    if o != Next {
      return;
    }
    o := ValidateCampground(body);
    if o != Next {
      return;
    }
    var campground := NewCampground(SubmittedPatch(body));
    var ok := store.SaveCampground(newId, campground);
    // `geometry` is required and nothing above sets it.
    assert !ok;
    o := Fail(MongooseError(CampgroundInvalid));
  }

  /** GET /campgrounds/:id/edit. */
  method EditForm(store: Store, session: Session, url: string, id: Id) returns (o: Outcome)
    modifies session`returnTo, session`flash
    ensures session.user.None? ==> o == Redirect(LoginUrl) && session.returnTo == Some(url)
                                   && session.flash == old(session.flash) + [Flash(Error, SignInFirst)]
    ensures session.user.Some? && id in store.campgrounds
            ==> o == Render("campgrounds/edit") && session.returnTo == old(session.returnTo)
                && session.flash == old(session.flash)
    ensures session.user.Some? && id !in store.campgrounds
            ==> o == Redirect(CampgroundsUrl) && session.returnTo == old(session.returnTo)
                && session.flash == old(session.flash) + [Flash(Error, NotFound)]
  {
    o := IsLoggedIn(session, url);
    if o != Next {
      return;
    }
    o := RenderEditForm(store, session, id);
  }

  /** PUT /campgrounds/:id: `isLoggedIn`, `validateCampground`, then the submitted
      fields are merged into the campground (images, geometry, author and reviews are
      kept). The success message is queued before the handler reads the returned
      document's `_id`, so a missing campground fails with that message queued. */
  method PutCampground(store: Store, session: Session, url: string, id: Id, body: Body) returns (o: Outcome)
    modifies store, session`returnTo, session`flash
    ensures session.user.None? || !CampgroundPayloadOk(body) ==> unchanged(store)
    ensures session.user.None? ==> o == Redirect(LoginUrl) && session.returnTo == Some(url)
                                   && session.flash == old(session.flash) + [Flash(Error, SignInFirst)]
    ensures session.user.Some? && !CampgroundPayloadOk(body)
            ==> o == ValidateCampground(body) && session.returnTo == old(session.returnTo)
                && session.flash == old(session.flash)
    ensures session.user.Some? && CampgroundPayloadOk(body)
            ==> && store.campgrounds == (if id in old(store.campgrounds)
                                         then old(store.campgrounds)[id := Merge(old(store.campgrounds)[id], SubmittedPatch(body))]
                                         else old(store.campgrounds))
                && store.reviews == old(store.reviews)
                && store.writes == old(store.writes) + [CampgroundUpdated(id)]
                && session.returnTo == old(session.returnTo)
                && session.flash == old(session.flash) + [Flash(Success, Updated)]
                && o == if id in old(store.campgrounds) then Redirect(CampgroundUrl(id)) else Fail(TypeError(NullRead("_id")))
    ensures old(store.Consistent()) ==> store.Consistent()
  {
    ghost var cgs, rvs := store.campgrounds, store.reviews;
    o := IsLoggedIn(session, url);
    if o != Next {
      return;
    }
    o := ValidateCampground(body);
    if o != Next {
      return;
    }
    var campground := store.FindByIdAndUpdate(id, SubmittedPatch(body));
    session.AddFlash(Success, Updated);
    if campground.None? {
      return Fail(TypeError(NullRead("_id")));
    }
    o := Redirect(CampgroundUrl(id));
    if old(store.Consistent()) {
      SameListsKeepConsistency(cgs, store.campgrounds, rvs);
    }
  }

  /** DELETE /campgrounds/:id: `isLoggedIn`, then the same steps as `deleteCampground`. */
  method DeleteCampgroundRoute(store: Store, session: Session, url: string, id: Id) returns (o: Outcome)
    modifies store, session`returnTo, session`flash
    ensures session.user.None? ==> o == Redirect(LoginUrl) && session.returnTo == Some(url)
                                   && session.flash == old(session.flash) + [Flash(Error, SignInFirst)]
                                   && unchanged(store)
    ensures session.user.Some?
            ==> && store.campgrounds == old(store.campgrounds) - {id}
                && store.reviews == Cascade(old(store.reviews), Lookup(old(store.campgrounds), id))
                && store.writes == old(store.writes) + [CampgroundDeleted(id)]
                                   + (if id in old(store.campgrounds)
                                      then [ReviewsDeleted(set x | x in old(store.campgrounds)[id].reviews)] else [])
                && session.returnTo == old(session.returnTo)
                && session.flash == old(session.flash) + [Flash(Success, Deleted)]
                && o == Redirect(CampgroundsUrl)
    ensures old(store.Consistent()) ==> store.Consistent()
  {
    o := IsLoggedIn(session, url);
    if o != Next {
      return;
    }
    o := DeleteCampground(store, session, id);
  }
}
