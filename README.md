# YelpCamp request logic in Dafny

A model of the request logic of YelpCamp, an Express and Mongoose application in which
signed-in users list campgrounds and review them. The model covers the two linked
collections (campgrounds, each with an ordered list of review ids, and reviews), the
route middleware that validates payloads and gates access, the handlers that create,
update and delete documents, and the account handlers that keep the return path in
the session.

- `Database.Store` is the database: one map per collection and a ghost log of the
  commands sent, in order. Each method is one Mongoose call (`findByIdAndUpdate`,
  `save`, `$pull`, `findByIdAndDelete` with its post hook, ...), and the log holds
  only the commands that call actually sends (a `findByIdAndUpdate` whose update sets
  no path sends none).
- `Context.Session` is the per-request session: the logged-in user, `returnTo` and the
  queued flash messages. Every middleware and handler returns an `Outcome`: `Next`, a
  redirect, a rendered view, or a failure (what the handler throws, which the async
  wrapper forwards unchanged).
- Ids are natural numbers. The id a new document draws is a parameter, with the
  precondition that it is fresh.
- Both generations of handlers are modelled. An inline handler in `routes/*.js` that
  is the same code as its `controllers/*.js` counterpart is one member, and the route
  method adds the middleware chain in front. Two pairs differ and get separate
  members:
  - The POST review route stores no author; `createReview` does.
  - The PUT campground route only merges fields; `updateCampground` also appends
    uploads and pulls deleted images.
- The schemas of schemas.js are explicit predicates, and each has a list of
  violation messages in the order the schema declares its keys.
- The integrity of the two tables is stated as `CampgroundModel.Consistent`. It says
  every listed review exists and no review is listed by two campgrounds. Every handler that
  changes the store either preserves it or states when it does not.

The model follows the code where it departs from the application's intended design:
- No route checks ownership. `isAuthor` and `isReviewAuthor` exist but nothing uses
  them, so any signed-in user may edit or delete any campground, and anyone may add
  or delete reviews.
- The inline POST /campgrounds never creates a campground. The schema requires
  `geometry` and the handler never sets it, so the save is always rejected.
- A rating is any number from 1 to 5, not only an integer.
- Saving an existing campground can be rejected. The schema requires a "Point"
  `geometry`, and no shown code sets one: the seeder (seeds/index.js:27-45) and
  app.js:33-37 build campgrounds without it, so their own saves are rejected too. The
  campgrounds the handlers read come from data written outside the shown code (before
  `geometry` was required, say), and the model allows any initial store. For a stored
  campground without a "Point" geometry, attaching a review then leaves the review stored but listed by no campground.
  Updating a campground then keeps the merged fields but appends no uploads and pulls
  no images.

## Model

| member | source | states |
|---|---|---|
| Common.SplitJoin | middleware.js:14 | Splitting the ","-joined violation list at "," gives back exactly the violations, because no message contains a comma. |
| Schemas.StringRule | schemas.js:9 | A required string field has no violation exactly when it is present, a string and non-empty; a missing one is reported as required. |
| Schemas.NumberRule | schemas.js:10 | A required number field has no violation exactly when it is a safe number (within ±(2^53−1), `Joi.number()`'s default) within its bounds. An unsafe number is reported only as unsafe; a safe one below the minimum or above the maximum reports that bound. |
| Schemas.CampgroundViolations | schemas.js:7-15 | The list is empty exactly when the payload satisfies `campgroundSchema`. A missing or non-object `campground` is reported alone, a negative safe price is reported as below 0, an unsafe price as unsafe, and no message contains a comma. |
| Schemas.ReviewViolations | schemas.js:17-23 | The list is empty exactly when the payload satisfies `reviewSchema`. A safe rating below 1 or above 5 is reported with that bound, and an unsafe rating as unsafe. |
| Schemas.RatingBounds | schemas.js:20 | A review with a body passes exactly when 1 <= rating <= 5; ratings 0 and 6 each produce exactly the message for the bound they break, and a rating of 10^16 produces only the safe-number message. |
| Mongo.Pull | controllers/campgrounds.js:80-82 | `$pull` leaves no matching element, keeps only elements of the array, keeps every non-matching element, and never grows the array. |
| Mongo.PullConcat | controllers/campgrounds.js:80-82 | Pulling from a concatenation is the concatenation of the pulls, so kept elements keep their relative order. |
| Mongo.PullNothing | controllers/reviews.js:23 | When nothing matches, `$pull` leaves the array unchanged. |
| Mongo.PullIdempotent | controllers/reviews.js:23 | A second identical `$pull` changes nothing. |
| Mongo.PullCount | controllers/reviews.js:23 | Each non-matching value occurs as often after a `$pull` as before, and matching values not at all. |
| CampgroundModel.IndexOf | models/campground.js:13 | Finds the first occurrence of a pattern at or after a position, or reports that there is none. |
| CampgroundModel.Thumbnail | models/campground.js:12-14 | With no "/upload" the URL is unchanged. Otherwise the first occurrence becomes "/upload/w_200", the text before and after it (later occurrences included) is kept, and the result is 6 characters longer. |
| CampgroundModel.CastPatch | controllers/campgrounds.js:64-66 | The spread payload casts exactly when none of title, price, description and location has the wrong kind; a path is set exactly when it was submitted, with the submitted value. |
| CampgroundModel.Merge | controllers/campgrounds.js:64-66 | Submitted fields overwrite, unsubmitted ones are kept, and images, geometry, author and the review list are untouched; a patch that sets no path changes nothing. |
| CampgroundModel.NewCampground | routes/campgrounds.js:49 | `new Campground(req.body.campground)` carries the submitted fields, no images, author or reviews, and no geometry, so it can never pass save validation. |
| CampgroundModel.Uploaded | controllers/campgrounds.js:68-71 | One image per uploaded file, in file order, with the file's path as url and its filename. |
| CampgroundModel.UpdatedImages | controllers/campgrounds.js:68-83 | Without `deleteImages` the uploads are appended at the end. With it, no listed filename remains, and the kept old images come before the kept uploads, each in order. |
| CampgroundModel.PullReviewFrom | controllers/reviews.js:23 | Only campground `id` changes: its list is the `$pull` of `reviewId`, which no longer occurs in it; a missing campground changes nothing. |
| CampgroundModel.Cascade | models/campground.js:68-74 | With no deleted document no review is removed. Otherwise exactly the reviews the document listed are gone, and every other review is kept unchanged. |
| CampgroundModel.CastReview | controllers/reviews.js:8 | `new Review(fields)` casts exactly when rating and body have the right kinds; it has no author, and a path is set exactly when submitted, with the submitted value. |
| CampgroundModel.ValidCampgroundCasts | schemas.js:7-15 | A payload that passed `campgroundSchema` casts, setting all four paths to the submitted values. |
| CampgroundModel.ValidReviewCasts | schemas.js:17-23 | A payload that passed `reviewSchema` casts to a review with the submitted rating and body and no author. |
| CampgroundModel.CascadeKeepsConsistency | models/campground.js:68-74 | Deleting a campground together with the reviews it lists keeps every listed id pointing at an existing review. |
| CampgroundModel.AttachKeepsConsistency | controllers/reviews.js:12-14 | Storing a fresh review and appending its id to an existing campground keeps the tables consistent. |
| CampgroundModel.DetachKeepsConsistency | controllers/reviews.js:23-25 | Pulling a review from campground `id` and deleting it keeps the tables consistent, provided no other campground lists it. |
| CampgroundModel.DetachElsewhereDangles | controllers/reviews.js:20-25 | Concrete case: deleting a review through a campground that does not list it leaves the campground that does list it pointing at a deleted review. |
| CampgroundModel.SameListsKeepConsistency | controllers/campgrounds.js:64-83 | An update that removes no campground and changes no review list keeps the tables consistent. |
| Database.Store.SaveReview | controllers/reviews.js:13 | `review.save()` stores the review under its id and logs one write. |
| Database.Store.SaveCampground | models/campground.js:28-38 | `save()` succeeds exactly when the document has a "Point" geometry, whatever its coordinates array holds (`required` on an array only rejects a missing one); only then is it stored and a write logged. |
| Database.Store.FindByIdAndUpdate | controllers/campgrounds.js:64-66 | Returns the document as it was before the update (none if missing), merges the patch into it, and sends one update exactly when the patch sets some path; otherwise, like Mongoose's fallback to `findOne`, it changes and sends nothing. |
| Database.Store.PullReview | controllers/reviews.js:23 | The campground table becomes `PullReviewFrom`, and one update is logged. |
| Database.Store.PullImages | controllers/campgrounds.js:80-82 | Campground `id`'s images become their `$pull` by filename, and one update is logged. |
| Database.Store.DeleteReview | controllers/reviews.js:25 | The review is gone, whether or not it existed, and one delete is logged. |
| Database.Store.FindByIdAndDelete | controllers/campgrounds.js:90 | Removes campground `id`, then runs the post hook with the deleted document. The reviews become `Cascade` of it, the delete is logged before the hook's `deleteMany`, and consistency is preserved. |
| Database.Store.AfterFindOneAndDelete | models/campground.js:68-74 | For a deleted document, deletes exactly the reviews it lists with one `deleteMany`; with none, does nothing. |
| Middleware.ValidateCampground | middleware.js:10-19 | `next()` exactly when the payload satisfies the campground schema. Otherwise a status-400 error whose message splits at "," into the violations. The copy in routes/campgrounds.js:16-25 is the same code. |
| Middleware.ValidateReview | middleware.js:21-30 | `next()` exactly when the payload satisfies the review schema. Otherwise a status-400 error whose message splits at "," into the violations. The copy in routes/reviews.js:16-24 is the same code. |
| Middleware.IsLoggedIn | middleware.js:32-43 | Anonymous: `returnTo` becomes the original URL, "You must be signed in!" is flashed, and the request is redirected to /login. Signed in: `next()` with the session untouched. |
| Middleware.RequireAuthor | middleware.js:49-53 | A failed lookup fails without a flash; a mismatch flashes the denial and redirects to the campground page; a match passes. |
| Middleware.IsAuthor | middleware.js:45-54 | Missing campground, missing author or missing user each fail with the TypeError of the first null or undefined read. A different author flashes "You do not have permission to edit!" and redirects; the author passes. No document changes. |
| Middleware.IsReviewAuthor | middleware.js:56-65 | The same gate on the review's author, with "You do not have permission to delete!" and a redirect to campground `id`. |
| ReviewsController.AttachReview | controllers/reviews.js:6-16 | Missing campground: fails on `reviews`, nothing written. Uncastable review: the save fails, nothing written. Otherwise the review is saved first. A campground that fails save validation then rejects its save: the request fails, the review stays stored and no campground lists it. Otherwise the campground is saved with the id appended at the end, followed by the success flash and the redirect. Consistency is preserved in every case. |
| ReviewsController.CreateReview | controllers/reviews.js:5-17 | A non-object payload or a missing user fails before anything is written. Otherwise the review, signed with the current user's id, is attached as above, including the failed second save. |
| ReviewsController.DeleteReview | controllers/reviews.js:19-28 | The id is pulled from campground `id`'s list, then the review is deleted even if the campground is missing. The user is sent to the campground page with a success flash. Consistency is kept when no other campground lists the review. The inline DELETE handler of routes/reviews.js:47-59 is the same code, with no middleware in front. |
| ReviewRoutes.PostReview | routes/reviews.js:28-43 | An invalid payload yields the validator's 400 error and writes nothing. A valid one is attached as a review with the submitted rating and body and no author, including the failed second save; there is no login check. |
| CampgroundsController.FindAndRender | controllers/campgrounds.js:44-48 | A found campground renders its page; an unknown id flashes "Cannot find that campground!" and redirects to /campgrounds. |
| CampgroundsController.ShowCampground | controllers/campgrounds.js:40-49 | Renders the show page, or flashes the not-found message and returns to the list. The inline GET /campgrounds/:id of routes/campgrounds.js:57-69 behaves the same. |
| CampgroundsController.RenderEditForm | controllers/campgrounds.js:51-59 | Renders the edit page, or flashes the not-found message and returns to the list. |
| CampgroundsController.UpdateCampground | controllers/campgrounds.js:61-86 | Uncastable payload: fails, nothing written. Unknown id: the update is sent (when the payload sets a path), then the handler fails on `images`. A campground that fails save validation keeps the merged fields, and the request fails with no uploads appended, no `$pull` and no flash. Otherwise the campground holds the merged fields and the `UpdatedImages` of its images, with reviews untouched, writes in order (no update for a payload that sets no path), a success flash and a redirect. Consistency is preserved. |
| CampgroundsController.DeleteCampground | controllers/campgrounds.js:88-93 | Campground `id` is gone and no review it listed remains, while every other review stays. With an unknown id no review is removed. The delete is sent, followed by one `deleteMany` of the listed reviews when the campground existed. Always the success flash and a redirect to /campgrounds, with consistency preserved. |
| CampgroundRoutes.NewForm | routes/campgrounds.js:38-40 | Anonymous users are sent to sign in; signed-in users get the form. |
| CampgroundRoutes.SubmittedPatch | routes/campgrounds.js:49 | A valid payload casts to the patch that sets all four paths, with a non-negative price. |
| CampgroundRoutes.PostCampground | routes/campgrounds.js:44-54 | Runs `isLoggedIn`, then `validateCampground`, then the handler. The store never changes: a failed check writes nothing, and the save of a valid payload is rejected for its missing geometry. |
| CampgroundRoutes.EditForm | routes/campgrounds.js:72-83 | `isLoggedIn`, then the edit page or the not-found redirect. |
| CampgroundRoutes.PutCampground | routes/campgrounds.js:87-99 | `isLoggedIn` and `validateCampground` only; failing either writes nothing. A valid payload is merged into campground `id` with one update, and the success flash is queued. Then the handler redirects, or fails on `_id` when the id was unknown. Consistency is preserved. |
| CampgroundRoutes.DeleteCampgroundRoute | routes/campgrounds.js:105-114 | `isLoggedIn` only. Then the campground and the reviews it lists are deleted, the delete and then the cascade's `deleteMany` are sent, the success flash is queued, and the user is sent to /campgrounds. |
| UsersController.ReturnPath | controllers/users.js:36 | The saved path when set and non-empty, otherwise /campgrounds. |
| UsersController.Register | controllers/users.js:7-25 | `User.register` receives the user built from `email` and `username` only, with the password passed separately. Registration error: its message is flashed, the user is sent to /register, and no one is logged in. Login error: no user and an unspecified failure. Success: the new user is logged in, with "Welcome to Yelp Camp!" and a redirect to /campgrounds. The inline POST /register of routes/users.js:11-32 is the same code. |
| UsersController.Login | controllers/users.js:31-40 | Flashes "Welcome back!", redirects to `ReturnPath` of the saved path, and deletes it. |
| UsersController.Logout | controllers/users.js:42-47 | No user afterwards, with "Goodbye!" and a redirect to /campgrounds. The inline GET /logout of routes/users.js:58-63 is the same code. |
| UserRoutes.Authenticate | routes/users.js:42-45 | Failed authentication flashes the strategy's message and redirects to /login; success logs the user in and passes on. |
| UserRoutes.PostLogin | routes/users.js:40-56 | The handler runs only after authentication succeeds. It redirects to the saved path or /campgrounds and deletes the saved path. |
| UserRoutes.SignInDetour | routes/users.js:51-54 | An anonymous request for a URL is sent to sign in, and signing in leads back to that URL. The saved path is used once: signing in again leads to /campgrounds. |

## Left out

- `createCampground` in controllers/campgrounds.js:19-38 is not modelled. It calls the Mapbox geocoder over the network and only sends back the coordinates; it stores nothing.
- The Cloudinary `destroy` calls in controllers/campgrounds.js:75-78 are left out as foreign I/O. Only the database-side `$pull` is modelled.
- Rendering is left out: the campground list, `renderNewForm`, the GET /register and GET /login pages, `populate`, the EJS views and the `popUpMarkup` virtual. A rendered page is only the view's name.
- Passport is left out. Whether a request is authenticated is whether the session holds a user. The verdicts of `User.register`, `req.login` and the local strategy arrive as parameters, and session regeneration and cookies are not modelled.
- Register: what `User.register` does with the user and the password is not modelled, including hashing and the uniqueness checks. It is a function parameter, and models/user.js is not part of this model.
- Register: the error passed to the unbound `next` is modelled as an unspecified failure.
- No error handler appears in the shown source, and turning a `Fail` into a response is not modelled. app.js mounts no router, and its `/makecampground` route is not part of this model.
- The seeder (seeds/index.js) and the `tryCatchForAsync` wrapper are not modelled. The wrapper forwards a rejection unchanged, which `Fail` stands for.
- NumberRule: JSON numbers (doubles) are modelled as reals. Only the safe-integer range of `Joi.number()` is checked; rounding and the infinity rule, which JSON cannot reach, are not modelled.
- Joi's type coercion, its handling of unknown keys and its option to stop at the first violation are not modelled.
- Messages use Joi's wording for each rule. Only the ","-join round trip of the modelled list is promised.
- CastPatch: Mongoose's casting is simplified. A value of the wrong kind is uncastable, and keys other than title, price, description and location are ignored. A raw payload could also set `author`, `reviews`, `images` or `geometry`.
- CastReview: Mongoose's casting is simplified as for CastPatch: a value of the wrong kind is treated as uncastable, although Mongoose would cast a numeric-string rating or a number body. Keys other than rating and body are ignored. The review schema's own validators are not modelled, and models/review.js is not part of this model.
- CreateReview: any present non-object payload is treated as one the Document constructor refuses. Mongoose also accepts an array, which sets no path, and a JSON `null` (a `Value.Other` here), which it treats like an absent review. The real message also ends with ", got <value>".
- ObjectIds are natural numbers, so the CastError of a malformed id in a URL is not modelled.
- The CastError texts are reduced to fixed messages (`CastFailed`, `ReviewInvalid`, `CampgroundInvalid`).
- UpdateCampground: `deleteImages` is a list of filenames. A single string value, which `for...of` would walk character by character, is not modelled, and neither is the `console.log` of the body.
- Concurrency is not modelled: no interleaving of requests and no crash between two writes. Each handler is a sequence of atomic single-document steps.
- Flash messages are only ever queued. Showing and consuming them on the next page is not modelled.
- IsAuthor and IsReviewAuthor are async functions that no wrapper catches. Under Express 4, their TypeError becomes an unhandled promise rejection, not an error passed to `next`. The model still reports it as `Fail`.
- The TypeError texts (`NullRead`, `UndefinedRead`) use the wording of Node 15 and earlier. Node 16 and later say "Cannot read properties of null (reading 'x')".
