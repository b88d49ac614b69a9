/** The server-side payload rules of schemas.js (`campgroundSchema`, `reviewSchema`),
    written as explicit predicates, together with the list of violation messages a
    failing payload produces, in the order the schema declares its keys. Messages use
    Joi's wording: a quoted label with the key path, then the rule that failed. */
module Schemas {
  import opened Common
  import opened Context

  function Label(path: string): string { "\"" + path + "\"" }
  function Required(path: string): string { Label(path) + " is required" }
  function NotAnObject(path: string): string { Label(path) + " must be of type object" }
  function NotAString(path: string): string { Label(path) + " must be a string" }
  function EmptyString(path: string): string { Label(path) + " is not allowed to be empty" }
  function NotANumber(path: string): string { Label(path) + " must be a number" }
  function BelowMin(path: string, min: string): string { Label(path) + " must be greater than or equal to " + min }
  function AboveMax(path: string, max: string): string { Label(path) + " must be less than or equal to " + max }
  function NotSafe(path: string): string { Label(path) + " must be a safe number" }

  /** `Number.MAX_SAFE_INTEGER`, 2^53 - 1. */
  const MaxSafe: real := 9007199254740991.0

  /** `Joi.number()` rejects by default any number outside the safe integer range. */
  predicate IsSafe(n: real) {
    -MaxSafe <= n <= MaxSafe
  }

  /** A required, non-empty string field (`Joi.string().required()`). */
  predicate IsText(fields: map<string, Value>, key: string) {
    key in fields && fields[key].Str? && fields[key].s != ""
  }

  /** A required, safe number field with an inclusive lower and an optional inclusive
      upper bound. */
  predicate IsNumberIn(fields: map<string, Value>, key: string, lo: real, hi: Option<real>) {
    && key in fields && fields[key].Num? && IsSafe(fields[key].n)
    && lo <= fields[key].n && (hi.None? || fields[key].n <= hi.value)
  }

  /** `campgroundSchema` (schemas.js:7-15): a `campground` object whose title, image,
      location and description are non-empty strings and whose price is a number >= 0. */
  predicate CampgroundPayloadOk(body: Body) {
    && "campground" in body && body["campground"].Obj?
    && var f := body["campground"].fields;
    && IsText(f, "title") && IsNumberIn(f, "price", 0.0, None) && IsText(f, "image")
    && IsText(f, "location") && IsText(f, "description")
  }

  /** `reviewSchema` (schemas.js:18-23): a `review` object whose rating is a number
      between 1 and 5 inclusive and whose body is a non-empty string. */
  predicate ReviewPayloadOk(body: Body) {
    && "review" in body && body["review"].Obj?
    && var f := body["review"].fields;
    && IsNumberIn(f, "rating", 1.0, Some(5.0)) && IsText(f, "body")
  }

  /** Every message the rules below produce is free of commas. */
  predicate CommaFree(msgs: seq<string>) {
    forall i :: 0 <= i < |msgs| ==> ',' !in msgs[i]
  }

  lemma LabelCommaFree(path: string)
    requires ',' !in path
    ensures ',' !in Required(path) && ',' !in NotAnObject(path) && ',' !in NotAString(path)
    ensures ',' !in EmptyString(path) && ',' !in NotANumber(path) && ',' !in NotSafe(path)
  {
    assert ',' !in " must be a safe number";
    assert ',' !in "\"";
    assert ',' !in " is required";
    assert ',' !in " must be of type object";
    assert ',' !in " must be a string";
    assert ',' !in " is not allowed to be empty";
    assert ',' !in " must be a number";
  }

  lemma BoundCommaFree(path: string, bound: string)
    requires ',' !in path && ',' !in bound
    ensures ',' !in BelowMin(path, bound) && ',' !in AboveMax(path, bound)
  {
    assert ',' !in "\"";
    assert ',' !in " must be greater than or equal to ";
    assert ',' !in " must be less than or equal to ";
  }

  /** The violations of a required string field. */
  function StringRule(parent: string, key: string, fields: map<string, Value>): (r: seq<string>)
    requires ',' !in parent && ',' !in key
    ensures r == [] <==> IsText(fields, key)
    ensures |r| <= 1 && CommaFree(r)
    ensures key !in fields ==> r == [Required(parent + "." + key)]
  {
    var path := parent + "." + key;
    LabelCommaFree(path);
    if key !in fields then [Required(path)]
    else match fields[key]
      case Str(s) => if s == "" then [EmptyString(path)] else []
      case _ => [NotAString(path)]
  }

  /** The violations of a required number field with bounds `lo` and, optionally, `hi`
      (their decimal text given as `loText` and `hiText`). An unsafe number is reported
      as such and its bounds are not checked. */
  function NumberRule(parent: string, key: string, fields: map<string, Value>,
                      lo: real, loText: string, hi: Option<real>, hiText: string): (r: seq<string>)
    requires ',' !in parent && ',' !in key && ',' !in loText && ',' !in hiText
    requires hi.Some? ==> lo <= hi.value
    ensures r == [] <==> IsNumberIn(fields, key, lo, hi)
    ensures |r| <= 1 && CommaFree(r)
    ensures key in fields && fields[key].Num? && !IsSafe(fields[key].n) ==> r == [NotSafe(parent + "." + key)]
    ensures key in fields && fields[key].Num? && IsSafe(fields[key].n) && fields[key].n < lo
            ==> r == [BelowMin(parent + "." + key, loText)]
    ensures key in fields && fields[key].Num? && IsSafe(fields[key].n) && hi.Some? && fields[key].n > hi.value
            ==> r == [AboveMax(parent + "." + key, hiText)]
  {
    var path := parent + "." + key;
    LabelCommaFree(path);
    BoundCommaFree(path, loText);
    BoundCommaFree(path, hiText);
    if key !in fields then [Required(path)]
    else match fields[key]
      case Num(n) =>
        if !IsSafe(n) then [NotSafe(path)]
        else if n < lo then [BelowMin(path, loText)]
        else if hi.Some? && n > hi.value then [AboveMax(path, hiText)]
        else []
      case _ => [NotANumber(path)]
  }

  /** The messages `campgroundSchema.validate(req.body)` reports. */
  function CampgroundViolations(body: Body): (r: seq<string>)
    ensures r == [] <==> CampgroundPayloadOk(body)
    ensures CommaFree(r)
    ensures "campground" !in body ==> r == [Required("campground")]
    ensures "campground" in body && !body["campground"].Obj? ==> r == [NotAnObject("campground")]
    ensures "campground" in body && body["campground"].Obj?
            && "price" in body["campground"].fields && body["campground"].fields["price"].Num?
            && IsSafe(body["campground"].fields["price"].n) && body["campground"].fields["price"].n < 0.0
            ==> BelowMin("campground.price", "0") in r
    ensures "campground" in body && body["campground"].Obj?
            && "price" in body["campground"].fields && body["campground"].fields["price"].Num?
            && !IsSafe(body["campground"].fields["price"].n)
            ==> NotSafe("campground.price") in r
  {
    LabelCommaFree("campground");
    if "campground" !in body then [Required("campground")]
    else match body["campground"]
      case Obj(f) =>
        var price := NumberRule("campground", "price", f, 0.0, "0", None, "");
        var r := StringRule("campground", "title", f) + price
          + StringRule("campground", "image", f)
          + StringRule("campground", "location", f)
          + StringRule("campground", "description", f);
        assert forall m :: m in price ==> m in r;
        assert "campground" + "." + "price" == "campground.price";
        r
      case _ => [NotAnObject("campground")]
  }

  /** The messages `reviewSchema.validate(req.body)` reports. */
  function ReviewViolations(body: Body): (r: seq<string>)
    ensures r == [] <==> ReviewPayloadOk(body)
    ensures CommaFree(r)
    ensures "review" !in body ==> r == [Required("review")]
    ensures "review" in body && !body["review"].Obj? ==> r == [NotAnObject("review")]
    ensures "review" in body && body["review"].Obj?
            && "rating" in body["review"].fields && body["review"].fields["rating"].Num?
            && IsSafe(body["review"].fields["rating"].n) && body["review"].fields["rating"].n < 1.0
            ==> BelowMin("review.rating", "1") in r
    ensures "review" in body && body["review"].Obj?
            && "rating" in body["review"].fields && body["review"].fields["rating"].Num?
            && IsSafe(body["review"].fields["rating"].n) && body["review"].fields["rating"].n > 5.0
            ==> AboveMax("review.rating", "5") in r
    ensures "review" in body && body["review"].Obj?
            && "rating" in body["review"].fields && body["review"].fields["rating"].Num?
            && !IsSafe(body["review"].fields["rating"].n)
            ==> NotSafe("review.rating") in r
  {
    LabelCommaFree("review");
    if "review" !in body then [Required("review")]
    else match body["review"]
      case Obj(f) =>
        var rating := NumberRule("review", "rating", f, 1.0, "1", Some(5.0), "5");
        var r := rating + StringRule("review", "body", f);
        assert forall m :: m in rating ==> m in r;
        assert "review" + "." + "rating" == "review.rating";
        r
      case _ => [NotAnObject("review")]
  }

  /** The review `{rating: r, body: "great"}`. */
  function RatedReview(rating: real): Body {
    map["review" := Obj(map["rating" := Num(rating), "body" := Str("great")])]
  }

  /** A review with a non-empty body passes exactly when its rating lies in 1..5:
      ratings 0 and 6 are both rejected, with the bound they break named, and a rating
      beyond the safe range only as unsafe. */
  lemma RatingBounds(rating: real)
    ensures ReviewPayloadOk(RatedReview(rating)) <==> 1.0 <= rating <= 5.0
    ensures ReviewViolations(RatedReview(0.0)) == [BelowMin("review.rating", "1")]
    ensures ReviewViolations(RatedReview(6.0)) == [AboveMax("review.rating", "5")]
    ensures ReviewViolations(RatedReview(1e16)) == [NotSafe("review.rating")]
  {
    var fh := RatedReview(1e16)["review"].fields;
    assert "body" in fh && fh["body"] == Str("great");
    assert StringRule("review", "body", fh) == [];
    var f0 := RatedReview(0.0)["review"].fields;
    assert "body" in f0 && f0["body"] == Str("great");
    assert StringRule("review", "body", f0) == [];
    var f6 := RatedReview(6.0)["review"].fields;
    assert "body" in f6 && f6["body"] == Str("great");
    assert StringRule("review", "body", f6) == [];
  }
}
