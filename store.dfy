/** The two MongoDB collections the handlers use, as one in-memory store. Each method
    is one single-document (or single `deleteMany`) command; `writes` records the
    commands in the order they were sent. */
module Database {
  import opened Common
  import opened Mongo
  import opened CampgroundModel

  /** One command that changes the database. */
  datatype Write =
    | ReviewSaved(id: Id)
    | CampgroundSaved(id: Id)
    | CampgroundUpdated(id: Id)
    | CampgroundDeleted(id: Id)
    | ReviewDeleted(id: Id)
    | ReviewsDeleted(ids: set<Id>)

  /** The update `findByIdAndUpdate(id, p)` sends: one, unless `p` sets no path. */
  function UpdateSent(id: Id, p: Patch): (r: seq<Write>)
    ensures SetsSomePath(p) <==> r == [CampgroundUpdated(id)]
    ensures !SetsSomePath(p) <==> r == []
  {
    if SetsSomePath(p) then [CampgroundUpdated(id)] else []
  }

  class Store {
    var campgrounds: map<Id, Campground>
    var reviews: map<Id, Review>
    ghost var writes: seq<Write>

    /** Every listed review exists and belongs to one campground only. */
    ghost predicate Consistent()
      reads this
    {
      CampgroundModel.Consistent(campgrounds, reviews)
    }

    /** An id `new Campground()` or `new Review()` may draw. */
    ghost predicate Fresh(id: Id)
      reads this
    {
      FreshId(campgrounds, reviews, id)
    }

    constructor ()
      ensures Consistent()
      ensures campgrounds == map[] && reviews == map[] && writes == []
    {
      campgrounds, reviews, writes := map[], map[], [];
    }

    /** `Campground.findById(id)`. */
    function FindCampground(id: Id): (r: Option<Campground>)
      reads this
      ensures r.Some? <==> id in campgrounds
      ensures r.Some? ==> r.value == campgrounds[id]
    {
      Lookup(campgrounds, id)
    }

    /** `Review.findById(id)`. */
    function FindReview(id: Id): (r: Option<Review>)
      reads this
      ensures r.Some? <==> id in reviews
      ensures r.Some? ==> r.value == reviews[id]
    {
      Lookup(reviews, id)
    }

    /** `review.save()`. */
    method SaveReview(id: Id, r: Review)
      modifies this`reviews, this`writes
      ensures reviews == old(reviews)[id := r]
      ensures writes == old(writes) + [ReviewSaved(id)]
    {
      reviews := reviews[id := r];
      writes := writes + [ReviewSaved(id)];
    }

    /** `campground.save()`: rejected by validation, writing nothing, unless the
        document is savable. */
    method SaveCampground(id: Id, c: Campground) returns (ok: bool)
      modifies this`campgrounds, this`writes
      ensures ok == Savable(c)
      ensures campgrounds == if ok then old(campgrounds)[id := c] else old(campgrounds)
      ensures writes == if ok then old(writes) + [CampgroundSaved(id)] else old(writes)
    {
      ok := Savable(c);
      if ok {
        campgrounds := campgrounds[id := c];
        writes := writes + [CampgroundSaved(id)];
      }
    }

    /** `Campground.findByIdAndUpdate(id, {...fields})`: returns the document as it was
        before the update (None when no document matched). No validators run. When the
        cast update sets no path, Mongoose runs a `findOne` instead and sends no update. */
    method FindByIdAndUpdate(id: Id, p: Patch) returns (doc: Option<Campground>)
      modifies this`campgrounds, this`writes
      ensures doc == Lookup(old(campgrounds), id)
      ensures campgrounds == if id in old(campgrounds) then old(campgrounds)[id := Merge(old(campgrounds)[id], p)]
                             else old(campgrounds)
      ensures !SetsSomePath(p) ==> campgrounds == old(campgrounds)
      ensures writes == old(writes) + UpdateSent(id, p)
    {
      doc := Lookup(campgrounds, id);
      if !SetsSomePath(p) {
        return;
      }
      if id in campgrounds {
        campgrounds := campgrounds[id := Merge(campgrounds[id], p)];
      }
      writes := writes + [CampgroundUpdated(id)];
    }

    /** `Campground.findByIdAndUpdate(id, {$pull: {reviews: reviewId}})`. */
    method PullReview(id: Id, reviewId: Id)
      modifies this`campgrounds, this`writes
      ensures campgrounds == PullReviewFrom(old(campgrounds), id, reviewId)
      ensures writes == old(writes) + [CampgroundUpdated(id)]
    {
      campgrounds := PullReviewFrom(campgrounds, id, reviewId);
      writes := writes + [CampgroundUpdated(id)];
    }

    /** `campground.updateOne({$pull: {images: {filename: {$in: names}}}})`. */
    method PullImages(id: Id, names: seq<string>)
      modifies this`campgrounds, this`writes
      ensures campgrounds == if id in old(campgrounds)
                             then old(campgrounds)[id := old(campgrounds)[id].(images := Pull(old(campgrounds)[id].images, NamedIn(names)))]
                             else old(campgrounds)
      ensures writes == old(writes) + [CampgroundUpdated(id)]
    {
      if id in campgrounds {
        campgrounds := campgrounds[id := campgrounds[id].(images := Pull(campgrounds[id].images, NamedIn(names)))];
      }
      writes := writes + [CampgroundUpdated(id)];
    }

    /** `Review.findByIdAndDelete(id)`. */
    method DeleteReview(id: Id)
      modifies this`reviews, this`writes
      ensures reviews == old(reviews) - {id}
      ensures writes == old(writes) + [ReviewDeleted(id)]
    {
      reviews := reviews - {id};
      writes := writes + [ReviewDeleted(id)];
    }

    /** `Campground.findByIdAndDelete(id)`, which runs the schema's `findOneAndDelete`
        post hook with the deleted document: whichever handler deletes a campground this
        way, the reviews it listed are deleted with it. */
    method FindByIdAndDelete(id: Id) returns (doc: Option<Campground>)
      modifies this`campgrounds, this`reviews, this`writes
      ensures doc == Lookup(old(campgrounds), id)
      ensures campgrounds == old(campgrounds) - {id}
      ensures reviews == Cascade(old(reviews), doc)
      ensures writes == old(writes) + [CampgroundDeleted(id)]
                        + if doc.Some? then [ReviewsDeleted(set x | x in doc.value.reviews)] else []
      ensures old(Consistent()) ==> Consistent()
    {
      doc := Lookup(campgrounds, id);
      campgrounds := campgrounds - {id};
      writes := writes + [CampgroundDeleted(id)];
      AfterFindOneAndDelete(doc);
      if old(Consistent()) {
        CascadeKeepsConsistency(old(campgrounds), old(reviews), id);
      }
    }

    /** The `findOneAndDelete` post hook: when a document was deleted, delete every
        review whose id it lists (`Review.deleteMany({_id: {$in: doc.reviews}})`). */
    method AfterFindOneAndDelete(doc: Option<Campground>)
      modifies this`reviews, this`writes
      ensures reviews == Cascade(old(reviews), doc)
      ensures writes == old(writes) + if doc.Some? then [ReviewsDeleted(set x | x in doc.value.reviews)] else []
    {
      if doc.Some? {
        reviews := reviews - (set x | x in doc.value.reviews);
        writes := writes + [ReviewsDeleted(set x | x in doc.value.reviews)];
      }
    }
  }
}
