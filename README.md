# worknook-backend: a verified model of the route logic

worknook-backend is an Express/Mongoose service where clients book
home-service workers (cleaning, plumbing, carpentry, gardening). This project
models the decision logic of its route handlers in Dafny. The logic covers
bookings, services, standalone ratings and user profiles, and it is modelled
apart from HTTP and MongoDB.

The collections are the maps of one `Database.Store` object (users, workers,
services, bookings), plus a counter that hands out fresh ids. Each handler is
a method that takes the store and the caller's user id. It either answers the
entity or refuses with a reason (`Common.Error`).

- `Common.KindOf` sorts each reason into Forbidden, NotFound, BadRequest or
  ServerError.
- `Common.HttpStatus` maps those classes one-to-one onto 403, 404, 400 and
  500.

A handler's contract states:

- its guard chain in the source's order;
- "nothing else changes", as `unchanged` frames on the other tables;
- the exact new table;
- the invariant `Store.Valid()`. It bundles the schema validation, the
  reputation bound, one worker profile per user, and ids below the counter.

The GET handlers for GET /me and the worker directory are pure functions over
the maps. The booking listings `Bookings.ClientBookings` and
`Bookings.WorkerBookings` are methods that modify nothing; they sort through
an insertion loop that is proved sorted and a permutation.

Files:

- `common.dfy`: ids, wrappers, errors and the category enum.
- `text.dfy`: the white-space trim of the `trim: true` schema option.
- `models.dfy`: the Booking, Worker, Service and User records with their
  defaults and validity.
- `reputation.dfy`: the two rolling-average updates and `toFixed(2)`.
- `database.dfy`: the store and its save primitives.
- `bookings.dfy`, `services.dfy`, `ratings.dfy`, `users.dfy`: one module per
  router.

Points where the code's behaviour is modelled as written:

- A status update checks only the requested target (confirmed, completed or
  cancelled). It never checks the current status. So completed → cancelled
  and cancelled → completed are accepted, and only `pending` can never be
  re-entered (`Bookings.UpdateStatus`, `Bookings.Evolves`).
- Rating a booking checks, in order: the role, the score, that the booking
  exists, the owner, completed, and already rated. "Already rated" is a 400.
- The booking is saved with its rating before the worker is read. A missing
  worker still leaves the booking rated.
- The status of a rated booking can still be changed.
- A document the schema refuses on save (an empty title after trimming, a
  category outside the enum) reaches the route's catch-all, which sends 500.
  This is modelled as `ValidationFailed`.

## Model

| member | source | states |
|---|---|---|
| Common.HttpStatus | routes/bookings.js:11-24 | each class of refusal is sent as a 4xx/5xx status |
| Common.HttpStatusOneToOne | routes/bookings.js:105-127 | distinct error classes get distinct statuses (403/404/400/500) |
| Common.ForbiddenRefusals | routes/bookings.js:142-159 | exactly the wrong role and another owner's record are sent with 403 |
| Common.NotFoundRefusals | routes/bookings.js:114-122 | exactly a missing worker profile, service, booking or worker is sent with 404 |
| Common.BadRequestRefusals | routes/bookings.js:146-169 | exactly an unavailable service, a bad status, a bad score, a booking not completed, an already rated booking and a malformed standalone rating are sent with 400 (not 409 for "already rated") |
| Common.ServerErrorRefusals | routes/services.js:29-35 | exactly a save the schema rejects is sent with 500, through the route's catch-all (also routes/users.js:81-83) |
| Common.ParseServiceType | models/Worker.js:9-13 | a string is accepted by the category enum only as the name of that category |
| Common.ParseServiceTypeName | models/Worker.js:9-13 | every category is accepted under its own name |
| Common.ParseServiceTypeNames | models/Service.js:18-22 | the enum accepts the name of every category, for all categories at once |
| Common.ServiceTypeNameInjective | models/Service.js:18-22 | two categories with the same name are the same category |
| Text.TrimStart | models/Service.js:9-13 | the result is a suffix; what was dropped is all white space; it does not start with white space |
| Text.TrimEnd | models/Service.js:9-13 | the result is a prefix; what was dropped is all white space; it does not end with white space |
| Text.TrimSlice | models/Service.js:9-13 | the trimmed title is the slice of the input between white-space-only ends |
| Text.TrimIsCore | models/Service.js:9-13 | the trimmed title is a middle slice between white-space-only ends and has no white space at either end |
| Text.TrimOfTrimmed | models/Service.js:9-13 | a string without white space at its ends is kept as is |
| Text.TrimIdempotent | models/Service.js:9-13 | trimming a stored title again changes nothing |
| Text.TrimEmpty | models/Service.js:9-13 | a title trims to empty exactly when it is all white space |
| Text.Trim | models/Service.js:12 | the `trim` setter: both ends' white space dropped; the result is never longer than the input |
| Text.TrimEnds | models/Service.js:12 | what `trim` leaves neither starts nor ends with white space |
| Models.BookingValid | models/Booking.js:29-34 | the schema accepts a booking whose score, when present, lies in 1..5; one without a rating is always accepted; on an accepted booking "already rated" means exactly "has a rating" |
| Models.IsRated | routes/bookings.js:167 | the "already rated" test passes only with a rating present, and always for a score in 1..5 |
| Models.WorkerValid | models/Worker.js:14-25 | the schema accepts a worker whose experience, bio and identity document are non-empty strings |
| Models.WorkerValidityIgnoresDefaults | models/Worker.js:14-37 | changing the category, the verification flag, the rating or the count never changes whether a worker is accepted |
| Models.ServiceValid | models/Service.js:9-17 | the schema accepts a service whose title is non-empty after the `trim` setter and whose description is non-empty |
| Models.ServiceTitleNotBlank | models/Service.js:9-13 | an accepted service's title is never white space only |
| Models.NewBooking | models/Booking.js:3-36 | a new booking is `pending`, unrated, schema-valid, and carries the given service, client, worker, date and note |
| Models.NewWorker | models/Worker.js:3-38 | a new worker is unverified with rating 0 and no ratings, and is valid exactly when its required strings are non-empty |
| Models.NewService | models/Service.js:3-30 | a new service is available, has the trimmed title and keeps worker, category, description and price; it is valid exactly when the trimmed title and the description are non-empty |
| Reputation.Mean | routes/ratings.js:21-22 | the new mean times the new count is the old total plus the score |
| Reputation.HalfUpCentsBounds | routes/bookings.js:180 | rounding a non-negative number to cents gives a two-decimal value within half a cent, above on a tie |
| Reputation.Round2 | routes/bookings.js:180 | `parseFloat(x.toFixed(2))` has two decimals and lies within half a cent of x, ties away from zero |
| Reputation.Round2OnGrid | routes/bookings.js:180 | a value with at most two decimals, integers included, is unchanged by rounding |
| Reputation.Round2Monotone | routes/bookings.js:180 | rounding keeps the order of two numbers |
| Reputation.MeanBetween | routes/bookings.js:177-178 | the rolling mean lies between the old mean and the new score |
| Reputation.RecordBookingScore | routes/bookings.js:176-182 | the booking route's update counts one more rating and changes nothing but rating and count |
| Reputation.RecordDirectScore | routes/ratings.js:21-25 | the standalone update counts one more rating, its rating times count is the old total plus the score, nothing else changes |
| Reputation.BookingScoreKeepsReputation | routes/bookings.js:175-182 | a score in 1..5 keeps the rating in [0,5]; the first score is stored exactly; the result has two decimals; when the old rating has two decimals, the new one lies between the old rating and the score |
| Reputation.DirectScoreKeepsReputation | routes/ratings.js:20-25 | a score in 1..5 keeps the rating in [0,5]; the first score is stored exactly; the result lies between the old rating and the score |
| Reputation.BookingScoreAfterDirectRating | routes/bookings.js:177-181 | a rating of 1.001 over 1000 ratings, valid and written by the standalone route, followed by a booking score of 5 is stored as 1.00, below the old rating: the between bound needs two decimals |
| Reputation.BookingScoresStayValid | routes/bookings.js:175-182 | after any number of booking scores each is counted once, the rating stays in [0,5] and keeps two decimals |
| Reputation.DirectScoresTotal | routes/ratings.js:21-25 | after any number of standalone scores the rating times the count equals the old total plus the sum of the scores (no drift) |
| Reputation.DirectScoresAverage | routes/ratings.js:21-25 | from a new worker, the standalone rating is exactly the average of all scores received |
| Database.ProfileOf | routes/bookings.js:79-82 | `Worker.findOne({ user })` answers the profile owned by that user, or none when no profile has that user |
| Database.ProfileOfStable | routes/users.js:70-75 | saving a profile without changing its user keeps one profile per user and keeps every findOne answer |
| Database.Store.FreshId | routes/bookings.js:26-34 | a new document gets an id no table uses, and the invariant is kept |
| Database.Store.SaveBooking | routes/bookings.js:34 | saving a schema-valid booking stores exactly it and keeps the invariant |
| Database.Store.SaveService | routes/services.js:29 | saving a schema-valid service stores exactly it and keeps the invariant |
| Database.Store.RemoveService | routes/services.js:149 | removing a service deletes exactly that entry and keeps the invariant |
| Database.Store.SaveWorker | routes/bookings.js:180-182 | saving a valid profile with the same user stores exactly it, keeps the invariant and every findOne answer |
| Database.Store.SaveUser | routes/users.js:61 | saving a user with an unchanged role stores exactly it, keeps the role and the invariant |
| Bookings.ParseTarget | routes/bookings.js:109-112 | only confirmed, completed and cancelled are accepted as targets, each by its own name, never pending |
| Bookings.ParseTargetAccepts | routes/bookings.js:110 | every status but pending is accepted by name, pending is refused |
| Bookings.EvolvesTransitive | routes/bookings.js:129-171 | the table evolution the routes allow (no booking lost, only status and rating change, no return to pending, a rating stays) composes |
| Bookings.InsertByDate | routes/bookings.js:63 | inserting into a listing adds exactly that id and keeps every other |
| Bookings.InsertByDateSorted | routes/bookings.js:63 | inserting keeps a listing sorted by date, newest first |
| Bookings.SortNewestFirst | routes/bookings.js:63 | the store's sort returns each selected booking exactly once, dates non-increasing |
| Bookings.ClientBookings | routes/bookings.js:44-65 | refuses non-clients; lists exactly the caller's bookings, each once, newest first |
| Bookings.WorkerBookings | routes/bookings.js:73-95 | refuses non-workers, then callers without a profile; lists exactly the bookings of the caller's profile, each once, newest first |
| Bookings.Create | routes/bookings.js:9-36 | role, then missing service, then unavailable service, in that order; on success exactly one new pending booking that snapshots the service's worker; other tables unchanged |
| Bookings.UpdateStatus | routes/bookings.js:103-132 | role, target, profile, booking, owner, in that order; on success only that booking's status changes, whatever the current status; pending is never set |
| Bookings.Rate | routes/bookings.js:140-185 | role, score, booking, owner, completed, already rated, in that order; on success the booking gets the rating and the worker, if any, the rounded rolling mean; which profile belongs to which user never changes |
| Bookings.RateTwice | routes/bookings.js:166-171 | after a successful rate, rating again fails (already rated for an acceptable score) and the worker counted the rating once |
| Services.Create | routes/services.js:8-31 | role, then profile, then schema refusal; the new service's owner is the caller's profile and its category the profile's, whatever the body says |
| Services.Catalog | routes/services.js:39-48 | without a truthy filter all services; with one exactly the services of the named category (none for an unknown name) |
| Services.CatalogOfType | routes/services.js:43-48 | filtering by a category's name gives exactly the services of that category |
| Services.Find | routes/services.js:66-82 | the service if it exists, otherwise "Service not found" |
| Services.ApplyPatch | routes/services.js:111-116 | falsy title, description and price are skipped; isAvailable applies whenever present, false included; owner and category never change |
| Services.EmptyPatch | routes/services.js:111-116 | an empty body changes nothing |
| Services.PatchIdempotent | routes/services.js:111-116 | applying the same body twice equals applying it once |
| Services.PatchValidity | routes/services.js:113-118 | a patched valid service saves exactly when the body's title is not all white space |
| Services.Update | routes/services.js:90-120 | role, profile, service, owner, in that order, then a title that trims to empty is refused as a validation failure; on refusal the service is unchanged; on success exactly the patched service is stored |
| Services.Delete | routes/services.js:128-151 | role, profile, service, owner, in that order; on success exactly that service is removed |
| Services.DeleteTwice | routes/services.js:139-149 | after a successful delete, deleting again and reading both answer "Service not found" |
| Ratings.ValidInputIsScore | routes/ratings.js:11-13 | the input check accepts exactly a given worker id with a rating in 1..5 |
| Ratings.RateWorker | routes/ratings.js:7-29 | malformed input, then missing worker; on success only that worker's rating and count change, to the exact unrounded mean (the score itself for the first rating, within [0,5]); which profile belongs to which user never changes |
| Ratings.RateWorkerTwice | routes/ratings.js:7-27 | no role, booking or repeat check: an accepted rating is accepted again and counted twice |
| Users.PatchUser | routes/users.js:47-59 | truthy name and phone overwrite; location only for clients, address only for workers; email and role never change |
| Users.PatchUserKeepsOtherRolesField | routes/users.js:53-59 | a client's address and a worker's location are never written |
| Users.PatchUserIdempotent | routes/users.js:50-59 | the same body twice equals it once |
| Users.PatchWorker | routes/users.js:71-75 | only truthy serviceType, bio and experience are assigned; an unknown category fails the save; rating, count, verification, owner and document never change |
| Users.PatchWorkerUntouched | routes/users.js:67 | a body without the three profile fields leaves the profile as it is |
| Users.PatchWorkerIdempotent | routes/users.js:71-75 | the same body twice equals it once |
| Users.UpdateMe | routes/users.js:45-80 | the user is always patched and saved first; the profile only for a worker who touches it and has one; no profile is created or re-linked to another user; reputation and verification never change |
| Users.GetMe | routes/users.js:8-37 | the caller's own fields; a location for clients; an address for workers and a profile block exactly when the profile exists |
| Users.Card | routes/users.js:103-114 | a worker card is the profile's id, category, experience, bio, verification flag, rating and count with its user's name, phone and address |
| Users.Directory | routes/users.js:88-116 | all workers, or with a truthy filter exactly those of the named category, each projected to its full card |
| Users.DirectoryOfType | routes/users.js:92-97 | filtering by a category's name lists exactly the workers of that category |
| Users.GetWorker | routes/users.js:124-147 | "Worker not found" exactly for a missing id, otherwise the worker's full card, the same as in the directory |

## Left out

- HTTP and Express: the routing, the JSON bodies and responses, the 201 status on creation, and the `auth` middleware. The caller arrives as a user id that is in the users table.
- `routes/auth.js` and `server.js`: registration, login, tokens, password hashing, file uploads and the database connection. This is also why no route of the model creates a worker profile or a user.
- The User schema is not part of this model. Its validation on `req.user.save()` is taken to succeed.
- Populate joins on the listings are read-side projections. Listings are modelled by booking id, and services by their own record.
- `createdAt`, the `new Date(date)` parsing and the store's ids: dates are integers and ids are naturals from a counter.
- Concurrency: each handler runs atomically. The race between the "already rated" check and the save is not modelled.
- Floating point: ratings and prices are exact reals, and `toFixed(2)` is modelled on reals. IEEE rounding of the mean itself is not modelled.
- JavaScript coercions:
  - scores and ratings are integers, so a fractional or string rating that `ratings.js` would accept is not modelled;
  - ids are compared by equality rather than with `toString()`;
  - a malformed id (CastError, answered 500) is not modelled.
- Services.Create: a price of any number is accepted. A price that Mongoose cannot cast is not modelled.
- Text.TrimStart: the white-space set is the common part of JavaScript's. Other Unicode space separators are not included.
- Users.Directory: the order of the answer follows the store's natural order in the source. It is modelled as a map keyed by worker id.
- Users.Directory: requires every profile to point at a stored user, as the store invariant guarantees. A dangling user reference would make the source throw and answer 500.
- Users.GetWorker: requires the same link (routes/users.js:138 reads the populated user's fields); a dangling user reference would make the source throw and answer 500.
- Users.UpdateMe: the user's own save is taken to succeed, because the User schema is not part of this model.
- Reputation.BookingScoreKeepsReputation: the bound between the old rating and the score is proved only when the old rating has two decimals. A rating written by the standalone route need not have two decimals, and a booking score can then move the stored rating outside [min(r,s), max(r,s)] (`Reputation.BookingScoreAfterDirectRating`). The bound [0,5] always holds.
