/** The campground handlers of controllers/campgrounds.js that read or change the
    store. */
module CampgroundsController {
  import opened Common
  import opened Context
  import opened Mongo
  import opened CampgroundModel
  import opened Database

  const NotFound := "Cannot find that campground!"
  const Updated := "Successfully updated the campground!"
  const Deleted := "Successfully deleted the campground!"
  /** The CastError a query rejects with when an update value cannot be cast to its
      path's type (its full text, naming the path and value, is not modelled). */
  const CastFailed := "Cast failed"

  /** `findById(id)`, then the page `view` of the campground, or, when there is none,
      an error message and the way back to the list. Nothing is written. */
  method FindAndRender(store: Store, session: Session, id: Id, view: string) returns (o: Outcome)
    modifies session`flash
    ensures id in store.campgrounds ==> o == Render(view) && session.flash == old(session.flash)
    ensures id !in store.campgrounds ==> o == Redirect(CampgroundsUrl)
                                         && session.flash == old(session.flash) + [Flash(Error, NotFound)]
  {
    var campground := store.FindCampground(id);
    if campground.None? {
      session.AddFlash(Error, NotFound);
      return Redirect(CampgroundsUrl);
    }
    o := Render(view);
  }

  /** `showCampground`, and the inline GET /campgrounds/:id of routes/campgrounds.js. */
  method ShowCampground(store: Store, session: Session, id: Id) returns (o: Outcome)
    modifies session`flash
    ensures id in store.campgrounds ==> o == Render("campgrounds/show") && session.flash == old(session.flash)
    ensures id !in store.campgrounds ==> o == Redirect(CampgroundsUrl)
                                         && session.flash == old(session.flash) + [Flash(Error, NotFound)]
  {
    o := FindAndRender(store, session, id, "campgrounds/show");
  }

  /** `renderEditForm`, and the handler of GET /campgrounds/:id/edit. */
  method RenderEditForm(store: Store, session: Session, id: Id) returns (o: Outcome)
    modifies session`flash
    ensures id in store.campgrounds ==> o == Render("campgrounds/edit") && session.flash == old(session.flash)
    ensures id !in store.campgrounds ==> o == Redirect(CampgroundsUrl)
                                         && session.flash == old(session.flash) + [Flash(Error, NotFound)]
  {
    o := FindAndRender(store, session, id, "campgrounds/edit");
  }

  /** `updateCampground`: merges `req.body.campground` (`payload`) into campground `id`,
      appends the uploaded `files` to its images, and, when `deleteImages` is present,
      pulls every image whose filename it lists. `findByIdAndUpdate` hands back the
      document as it was, so a missing campground fails only after the update was sent,
      a payload that sets no path sends no update at all, and a campground that fails
      save validation keeps the merged fields but gets no
      uploads and no `$pull`. The review list is never touched. */
  method UpdateCampground(store: Store, session: Session, id: Id, payload: Option<Value>,
                          files: seq<UploadedFile>, deleteImages: Option<seq<string>>) returns (o: Outcome)
    modifies store, session`flash
    ensures CastPatch(Spread(payload)).None?
            ==> o == Fail(MongooseError(CastFailed)) && unchanged(store) && session.flash == old(session.flash)
    ensures CastPatch(Spread(payload)).Some? && id !in old(store.campgrounds)
            ==> && o == Fail(TypeError(NullRead("images")))
                && store.campgrounds == old(store.campgrounds) && store.reviews == old(store.reviews)
                && store.writes == old(store.writes) + UpdateSent(id, CastPatch(Spread(payload)).value)
                && session.flash == old(session.flash)
    ensures CastPatch(Spread(payload)).Some? && id in old(store.campgrounds) && !Savable(old(store.campgrounds)[id])
            ==> && o == Fail(MongooseError(CampgroundInvalid))
                && store.campgrounds == old(store.campgrounds)[id := Merge(old(store.campgrounds)[id], CastPatch(Spread(payload)).value)]
                && store.reviews == old(store.reviews)
                && store.writes == old(store.writes) + UpdateSent(id, CastPatch(Spread(payload)).value)
                && session.flash == old(session.flash)
    ensures CastPatch(Spread(payload)).Some? && id in old(store.campgrounds) && Savable(old(store.campgrounds)[id])
            ==> var before := old(store.campgrounds)[id];
                && store.campgrounds == old(store.campgrounds)[id := Merge(before, CastPatch(Spread(payload)).value)
                                                                       .(images := UpdatedImages(before.images, Uploaded(files), deleteImages))]
                && store.reviews == old(store.reviews)
                && store.writes == old(store.writes) + UpdateSent(id, CastPatch(Spread(payload)).value) + [CampgroundSaved(id)]
                                   + (if deleteImages.Some? then [CampgroundUpdated(id)] else [])
                && session.flash == old(session.flash) + [Flash(Success, Updated)]
                && o == Redirect(CampgroundUrl(id))
    ensures old(store.Consistent()) ==> store.Consistent()
  {
    ghost var cgs, rvs := store.campgrounds, store.reviews;
    var patch := CastPatch(Spread(payload));
    if patch.None? {
      return Fail(MongooseError(CastFailed));
    }
    var campground := store.FindByIdAndUpdate(id, patch.value);
    var imgs := Uploaded(files);
    if campground.None? {
      return Fail(TypeError(NullRead("images")));
    }
    ghost var merged := Merge(cgs[id], patch.value);
    assert store.campgrounds == cgs[id := merged];
    // `save` sends only the pushed images; the merged fields stay as updated.
    var ok := store.SaveCampground(id, store.campgrounds[id].(images := campground.value.images + imgs));
    if !ok {
      if old(store.Consistent()) {
        SameListsKeepConsistency(cgs, store.campgrounds, rvs);
      }
      return Fail(MongooseError(CampgroundInvalid));
    }
    assert store.campgrounds == cgs[id := merged.(images := cgs[id].images + imgs)];
    if deleteImages.Some? {
      store.PullImages(id, deleteImages.value);
    }
    assert store.campgrounds == cgs[id := merged.(images := UpdatedImages(cgs[id].images, imgs, deleteImages))];
    session.AddFlash(Success, Updated);
    o := Redirect(CampgroundUrl(id));
    if old(store.Consistent()) {
      SameListsKeepConsistency(cgs, store.campgrounds, rvs);
    }
  }

  /** `deleteCampground`: deletes campground `id` through `findByIdAndDelete`, which
      deletes the reviews it listed too, and returns to the list whether or not the
      campground existed. */
  method DeleteCampground(store: Store, session: Session, id: Id) returns (o: Outcome)
    modifies store, session`flash
    ensures store.campgrounds == old(store.campgrounds) - {id}
    ensures store.reviews == Cascade(old(store.reviews), Lookup(old(store.campgrounds), id))
    ensures store.writes == old(store.writes) + [CampgroundDeleted(id)]
                            + if id in old(store.campgrounds)
                              then [ReviewsDeleted(set x | x in old(store.campgrounds)[id].reviews)] else []
    ensures id in old(store.campgrounds) ==> forall x :: x in old(store.campgrounds)[id].reviews ==> x !in store.reviews
    ensures id !in old(store.campgrounds) ==> store.reviews == old(store.reviews)
    ensures session.flash == old(session.flash) + [Flash(Success, Deleted)]
    ensures o == Redirect(CampgroundsUrl)
    ensures old(store.Consistent()) ==> store.Consistent()
  {
    var campground := store.FindByIdAndDelete(id);
    session.AddFlash(Success, Deleted);
    o := Redirect(CampgroundsUrl);
  }
}
