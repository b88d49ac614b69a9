/** The campground and review documents (models/campground.js and the review model
    it references), the `thumbnail` virtual of an image, and the pure effect of each
    update the handlers send to the database. */
module CampgroundModel {
  import opened Common
  import opened Context
  import opened Mongo
  import opened Schemas

  datatype Image = Image(url: string, filename: string)

  /** The GeoJSON point the schema requires. */
  datatype Geometry = Geometry(kind: string, coordinates: seq<real>)

  /** A campground document: one author id and an ordered list of review ids. */
  datatype Campground = Campground(
    title: Option<string>,
    images: seq<Image>,
    price: Option<real>,
    geometry: Option<Geometry>,
    description: Option<string>,
    location: Option<string>,
    author: Option<Id>,
    reviews: seq<Id>)

  /** A review document. */
  datatype Review = Review(rating: Option<real>, body: Option<string>, author: Option<Id>)

  /** A file multer put in `req.files`. */
  datatype UploadedFile = UploadedFile(path: string, filename: string)

  /** What Mongoose's save-time validation demands of a campground: `geometry.type` and
      `geometry.coordinates` are required and the type is the enum value "Point".
      `required` on an array only rejects a missing one, and `coordinates` is always an
      array, so any coordinates, none at all included, are accepted. */
  predicate Savable(c: Campground) {
    c.geometry.Some? && c.geometry.value.kind == "Point"
  }

  /** The prefix of the error `save()` rejects with when a campground is not savable. */
  const CampgroundInvalid := "Campground validation failed"

  // ---------------------------------------------------------------------------
  // The thumbnail virtual: `url.replace("/upload", "/upload/w_200")`

  const Upload := "/upload"
  const UploadThumb := "/upload/w_200"

  predicate OccursAt(s: string, p: string, i: nat) {
    i + |p| <= |s| && s[i..i + |p|] == p
  }

  predicate FirstOccurrence(s: string, p: string, i: nat) {
    OccursAt(s, p, i) && forall j: nat :: j < i ==> !OccursAt(s, p, j)
  }

  /** `s.indexOf(p, from)`, None for -1. */
  function IndexOf(s: string, p: string, from: nat): (r: Option<nat>)
    ensures r.Some? ==> from <= r.value && OccursAt(s, p, r.value)
    ensures r.Some? ==> forall j: nat :: from <= j < r.value ==> !OccursAt(s, p, j)
    ensures r.None? ==> forall j: nat :: from <= j ==> !OccursAt(s, p, j)
    decreases |s| - from
  {
    if from + |p| > |s| then None
    else if OccursAt(s, p, from) then Some(from)
    else IndexOf(s, p, from + 1)
  }

  /** The thumbnail URL: the first "/upload" becomes "/upload/w_200", the text before
      and after it is kept (later occurrences included); a URL without "/upload" is
      returned as it is. */
  function Thumbnail(url: string): (r: string)
    ensures (forall j: nat :: !OccursAt(url, Upload, j)) ==> r == url
    ensures forall i: nat :: FirstOccurrence(url, Upload, i) ==>
              r == url[..i] + UploadThumb + url[i + |Upload|..] && |r| == |url| + 6
  {
    match IndexOf(url, Upload, 0)
    case None => url
    case Some(i) => url[..i] + UploadThumb + url[i + |Upload|..]
  }

  // ---------------------------------------------------------------------------
  // Building documents from a request body

  /** How Mongoose casts one submitted field: absent, a value of the path's type, or a
      value it cannot cast. */
  datatype Cast<T> = Absent | Given(value: T) | Uncastable {
    function ToOption(): Option<T> {
      if Given? then Some(value) else None
    }
  }

  function CastText(fields: map<string, Value>, key: string): (r: Cast<string>)
    ensures r.Absent? <==> key !in fields
    ensures r.Given? <==> key in fields && fields[key].Str?
    ensures r.Given? ==> fields[key] == Str(r.value)
  {
    if key !in fields then Absent
    else match fields[key]
      case Str(s) => Given(s)
      case _ => Uncastable
  }

  function CastNumber(fields: map<string, Value>, key: string): (r: Cast<real>)
    ensures r.Absent? <==> key !in fields
    ensures r.Given? <==> key in fields && fields[key].Num?
    ensures r.Given? ==> fields[key] == Num(r.value)
  {
    if key !in fields then Absent
    else match fields[key]
      case Num(n) => Given(n)
      case _ => Uncastable
  }

  /** The keys of `{...value}`: an object's own fields; nothing for undefined or a
      primitive (a string spreads into index keys that are no schema path). */
  function Spread(value: Option<Value>): map<string, Value> {
    if value.Some? && value.value.Obj? then value.value.fields else map[]
  }

  /** The campground paths a submitted object sets. `image` is no path of the schema and
      is dropped. */
  datatype Patch = Patch(title: Option<string>, price: Option<real>, description: Option<string>, location: Option<string>)

  /** Whether the patch sets any path at all; an update that sets none is not sent. */
  predicate SetsSomePath(p: Patch) {
    p.title.Some? || p.price.Some? || p.description.Some? || p.location.Some?
  }

  /** The patch for `req.body.campground`, or None when a field cannot be cast. */
  function CastPatch(fields: map<string, Value>): (r: Option<Patch>)
    ensures r.Some? <==> !CastText(fields, "title").Uncastable? && !CastNumber(fields, "price").Uncastable?
                         && !CastText(fields, "description").Uncastable? && !CastText(fields, "location").Uncastable?
    ensures r.Some? ==> (r.value.title.Some? <==> "title" in fields) && (r.value.price.Some? <==> "price" in fields)
    ensures r.Some? ==> (r.value.description.Some? <==> "description" in fields) && (r.value.location.Some? <==> "location" in fields)
    ensures r.Some? && r.value.title.Some? ==> fields["title"] == Str(r.value.title.value)
    ensures r.Some? && r.value.price.Some? ==> fields["price"] == Num(r.value.price.value)
    ensures r.Some? && r.value.description.Some? ==> fields["description"] == Str(r.value.description.value)
    ensures r.Some? && r.value.location.Some? ==> fields["location"] == Str(r.value.location.value)
  {
    var title, price := CastText(fields, "title"), CastNumber(fields, "price");
    var description, location := CastText(fields, "description"), CastText(fields, "location");
    if title.Uncastable? || price.Uncastable? || description.Uncastable? || location.Uncastable? then None
    else Some(Patch(title.ToOption(), price.ToOption(), description.ToOption(), location.ToOption()))
  }

  function Override<T>(current: Option<T>, submitted: Option<T>): Option<T> {
    if submitted.Some? then submitted else current
  }

  /** `findByIdAndUpdate(id, {...fields})`: submitted fields overwrite, the others,
      and the images, geometry, author and review list, are kept. */
  function Merge(c: Campground, p: Patch): (r: Campground)
    ensures p.title.Some? ==> r.title == p.title
    ensures p.title.None? ==> r.title == c.title
    ensures p.price.Some? ==> r.price == p.price
    ensures p.price.None? ==> r.price == c.price
    ensures p.description.Some? ==> r.description == p.description
    ensures p.description.None? ==> r.description == c.description
    ensures p.location.Some? ==> r.location == p.location
    ensures p.location.None? ==> r.location == c.location
    ensures r.images == c.images && r.geometry == c.geometry && r.author == c.author && r.reviews == c.reviews
    ensures !SetsSomePath(p) ==> r == c
  {
    c.(title := Override(c.title, p.title), price := Override(c.price, p.price),
       description := Override(c.description, p.description), location := Override(c.location, p.location))
  }

  /** `new Campground(req.body.campground)`: the submitted fields, and nothing else. */
  function NewCampground(p: Patch): (r: Campground)
    ensures r.title == p.title && r.price == p.price && r.description == p.description && r.location == p.location
    ensures r.images == [] && r.reviews == [] && r.author == None
    ensures r.geometry == None
    ensures !Savable(r)
  {
    Campground(p.title, [], p.price, None, p.description, p.location, None, [])
  }

  /** `req.files.map(f => ({url: f.path, filename: f.filename}))`. */
  function Uploaded(files: seq<UploadedFile>): (r: seq<Image>)
    ensures |r| == |files|
    ensures forall i :: 0 <= i < |files| ==> r[i] == Image(files[i].path, files[i].filename)
  {
    seq(|files|, i requires 0 <= i < |files| => Image(files[i].path, files[i].filename))
  }

  /** The `$pull` condition `{filename: {$in: names}}`. */
  function NamedIn(names: seq<string>): Image -> bool {
    (img: Image) => img.filename in names
  }

  /** The `$pull` condition of `{$pull: {reviews: id}}`. */
  function IsId(id: Id): Id -> bool {
    (x: Id) => x == id
  }

  /** The images after `updateCampground`: uploads appended at the end, then, when
      `deleteImages` is present, every image whose filename it lists removed. The old
      images that stay come first, then the uploads that stay, each in their order. */
  function UpdatedImages(current: seq<Image>, uploads: seq<Image>, deleteImages: Option<seq<string>>): (r: seq<Image>)
    ensures deleteImages.None? ==> r == current + uploads
    ensures deleteImages.Some? ==> forall i :: 0 <= i < |r| ==> r[i].filename !in deleteImages.value
    ensures deleteImages.Some? ==>
              r == Pull(current, NamedIn(deleteImages.value)) + Pull(uploads, NamedIn(deleteImages.value))
    ensures forall i :: 0 <= i < |r| ==> r[i] in current + uploads
  {
    if deleteImages.None? then current + uploads
    else
      PullConcat(current, uploads, NamedIn(deleteImages.value));
      Pull(current + uploads, NamedIn(deleteImages.value))
  }

  /** The campground table after `$pull`ing `reviewId` from campground `id`'s reviews. */
  function PullReviewFrom(cgs: map<Id, Campground>, id: Id, reviewId: Id): (r: map<Id, Campground>)
    ensures r.Keys == cgs.Keys
    ensures forall c :: c in cgs && c != id ==> r[c] == cgs[c]
    ensures id in cgs ==> reviewId !in r[id].reviews
    ensures id in cgs ==> r[id] == cgs[id].(reviews := Pull(cgs[id].reviews, IsId(reviewId)))
  {
    if id in cgs then cgs[id := cgs[id].(reviews := Pull(cgs[id].reviews, IsId(reviewId)))] else cgs
  }

  /** The review table after the `findOneAndDelete` post hook has run for `doc`: when a
      campground was deleted, every review it listed is gone and every other review is
      kept; when nothing matched, nothing is removed. */
  function Cascade(rvs: map<Id, Review>, doc: Option<Campground>): (r: map<Id, Review>)
    ensures doc.None? ==> r == rvs
    ensures doc.Some? ==> forall x :: x in doc.value.reviews ==> x !in r
    ensures forall x :: x in r <==> x in rvs && !(doc.Some? && x in doc.value.reviews)
    ensures forall x :: x in r ==> r[x] == rvs[x]
  {
    if doc.None? then rvs else rvs - (set x | x in doc.value.reviews)
  }

  /** `new Review(fields)` as saved, or None when a field cannot be cast. */
  function CastReview(fields: map<string, Value>): (r: Option<Review>)
    ensures r.Some? <==> !CastNumber(fields, "rating").Uncastable? && !CastText(fields, "body").Uncastable?
    ensures r.Some? ==> r.value.author == None
    ensures r.Some? ==> (r.value.rating.Some? <==> "rating" in fields) && (r.value.body.Some? <==> "body" in fields)
    ensures r.Some? && r.value.rating.Some? ==> fields["rating"] == Num(r.value.rating.value)
    ensures r.Some? && r.value.body.Some? ==> fields["body"] == Str(r.value.body.value)
  {
    var rating, body := CastNumber(fields, "rating"), CastText(fields, "body");
    if rating.Uncastable? || body.Uncastable? then None
    else Some(Review(rating.ToOption(), body.ToOption(), None))
  }

  /** A payload that passed `campgroundSchema` casts without error and sets all four
      campground paths to the submitted values. */
  lemma ValidCampgroundCasts(body: Body)
    requires CampgroundPayloadOk(body)
    ensures var f := body["campground"].fields;
            CastPatch(Spread(Some(body["campground"]))) ==
              Some(Patch(Some(f["title"].s), Some(f["price"].n), Some(f["description"].s), Some(f["location"].s)))
  {
  }

  /** A payload that passed `reviewSchema` casts to a review with the submitted rating
      and body and no author. */
  lemma ValidReviewCasts(body: Body)
    requires ReviewPayloadOk(body)
    ensures var f := body["review"].fields;
            CastReview(f) == Some(Review(Some(f["rating"].n), Some(f["body"].s), None))
  {
  }

  // ---------------------------------------------------------------------------
  // Referential integrity between the two tables

  /** Every id a campground lists names an existing review. */
  ghost predicate Referenced(cgs: map<Id, Campground>, rvs: map<Id, Review>) {
    forall c, x :: c in cgs && x in cgs[c].reviews ==> x in rvs
  }

  /** No review id is listed by two campgrounds. */
  ghost predicate Exclusive(cgs: map<Id, Campground>) {
    forall c, d, x :: c in cgs && d in cgs && x in cgs[c].reviews && x in cgs[d].reviews ==> c == d
  }

  ghost predicate Consistent(cgs: map<Id, Campground>, rvs: map<Id, Review>) {
    Referenced(cgs, rvs) && Exclusive(cgs)
  }

  /** A new ObjectId: it names no document and no campground lists it. */
  ghost predicate FreshId(cgs: map<Id, Campground>, rvs: map<Id, Review>, id: Id) {
    id !in cgs && id !in rvs && forall c :: c in cgs ==> id !in cgs[c].reviews
  }

  /** Deleting a campground through the cascade leaves no dangling review id behind. */
  lemma CascadeKeepsConsistency(cgs: map<Id, Campground>, rvs: map<Id, Review>, id: Id)
    requires Consistent(cgs, rvs)
    ensures Consistent(cgs - {id}, Cascade(rvs, Lookup(cgs, id)))
  {
    var cgs', rvs' := cgs - {id}, Cascade(rvs, Lookup(cgs, id));
    forall c, x | c in cgs' && x in cgs'[c].reviews
      ensures x in rvs'
    {
      assert x in cgs[c].reviews;
      if id in cgs {
        assert x !in cgs[id].reviews;
      }
    }
  }

  /** Attaching a fresh review to an existing campground keeps the tables consistent. */
  lemma AttachKeepsConsistency(cgs: map<Id, Campground>, rvs: map<Id, Review>, id: Id, rid: Id, r: Review)
    requires Consistent(cgs, rvs) && id in cgs && FreshId(cgs, rvs, rid)
    ensures Consistent(cgs[id := cgs[id].(reviews := cgs[id].reviews + [rid])], rvs[rid := r])
  {
    var cgs' := cgs[id := cgs[id].(reviews := cgs[id].reviews + [rid])];
    forall c, d, x | c in cgs' && d in cgs' && x in cgs'[c].reviews && x in cgs'[d].reviews
      ensures c == d
    {
      if x == rid {
        assert rid !in cgs[c].reviews && rid !in cgs[d].reviews;
      } else {
        assert x in cgs[c].reviews && x in cgs[d].reviews;
      }
    }
  }

  /** Detaching and deleting a review keeps the tables consistent when no campground
      other than `id` lists it. */
  lemma DetachKeepsConsistency(cgs: map<Id, Campground>, rvs: map<Id, Review>, id: Id, rid: Id)
    requires Consistent(cgs, rvs)
    requires forall c :: c in cgs && rid in cgs[c].reviews ==> c == id
    ensures Consistent(PullReviewFrom(cgs, id, rid), rvs - {rid})
  {
    var cgs' := PullReviewFrom(cgs, id, rid);
    forall c, x | c in cgs' && x in cgs'[c].reviews
      ensures x in rvs - {rid} && x in cgs[c].reviews
    {
      if c == id {
        assert x in cgs[c].reviews;
      }
    }
  }

  /** A review listed by campground 1, deleted through the URL of campground 2,
      leaves campground 1 listing a review that no longer exists. */
  lemma DetachElsewhereDangles(cgs: map<Id, Campground>, rvs: map<Id, Review>)
    requires cgs == map[1 := Campground(None, [], None, None, None, None, None, [5]),
                        2 := Campground(None, [], None, None, None, None, None, [])]
    requires rvs == map[5 := Review(Some(4.0), Some("fine"), None)]
    ensures Consistent(cgs, rvs)
    ensures !Referenced(PullReviewFrom(cgs, 2, 5), rvs - {5})
  {
    forall c, x | c in cgs && x in cgs[c].reviews
      ensures x in rvs && c == 1
    {
      assert c == 1 || c == 2;
      assert cgs[2].reviews == [];
    }
    var after := PullReviewFrom(cgs, 2, 5);
    assert after[1].reviews == [5];
    assert 1 in after && 5 in after[1].reviews && 5 !in rvs - {5};
  }

  /** Changing campgrounds without touching any review list keeps the tables consistent. */
  lemma SameListsKeepConsistency(cgs: map<Id, Campground>, cgs': map<Id, Campground>, rvs: map<Id, Review>)
    requires Consistent(cgs, rvs)
    requires cgs'.Keys <= cgs.Keys
    requires forall c :: c in cgs' ==> cgs'[c].reviews == cgs[c].reviews
    ensures Consistent(cgs', rvs)
  {
    forall c, x | c in cgs' && x in cgs'[c].reviews
      ensures x in rvs && x in cgs[c].reviews
    {
    }
  }
}
