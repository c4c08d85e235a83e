# Locker rental booking engine, modelled in Dafny

This project models the core of a locker rental back end. Venues ("businesses")
have numbered lockers. Users book a locker for a time window. The booking
service enforces four groups of rules:

- the locker conflict test;
- the 10-hour rental cap;
- the booking status rules of `update`, `cancel` and the expiry sweep;
- the locker availability query.

Two supporting services are modelled too. The business service keeps a
bounds-checked counter of available lockers, deletes softly and builds the
search query. The user service keeps emails unique, stores hashed passwords
and reports per-user booking statistics.

Modules:

- `Outcomes` (outcomes.dfy): `Option`, `Result`, and one `Error` per rule that throws (every missing record is the one `NotFound`).
- `BookingSchema` (booking_schema.dfy): the `Booking` record, its two status enums with their defaults, and the bounds checked on save.
- `Bookings` (bookings.dfy): the booking table as a `map` from id to `Booking`.
  - Pure functions: the conflict test, availability, `findAll`/`findOne`, the record `create` builds, the patch `update` applies, and the sweep rules.
  - The class `BookingsService` holds the table. Its methods `Create`, `Update`, `Cancel` and `CheckExpiredBookings` update it in place.
- `Businesses` (businesses.dfy): the business table, the search query rules, and the class `BusinessesService`.
- `Users` (users.dfy): the user table, the booking statistics, and the class `UsersService`.
- `Scenarios` (scenarios.dfy): a two-locker booking history, and the 15-minute pending timeout.

Modelling conventions:

- Times are integer milliseconds since the epoch.
- The clock is a parameter `now` wherever the source reads the wall clock.
- Document ids are natural numbers. Each service hands out new ids from a counter.
- Password hashing is a function `hash` given to `UsersService`. A password verifies against a stored hash when it hashes to it. The constructor requires that `hash` has no fixed point, that is, it never returns its input unchanged. bcrypt output has this property; it is an assumption of the model, not something derived from the code.

Facts of the code that the model keeps, although they look unintended:

- `create` has no start < end check. It also does not check that the locker number is within the business's `totalLockers`.
- Availability always assumes lockers 1..20.
- The conflict test is the three-clause query as written. `ConflictIsInclusiveOverlap` proves it equals inclusive overlap when both intervals are well-formed. For an inverted booking, one ending before it starts, it is not an overlap test (`InvertedBookingConflictsWithoutOverlap`).
- Back-to-back bookings conflict.
- `cancel` allows cancelling `pending` and `expired` bookings. It does not set `cancelledAt`.
- `update` does not re-run the conflict check, so it can create a double booking (`UpdateCanBreakNoDoubleBooking`).
- `create` never sets `totalAmount`:
  - The create request type in src/dto/booking.dto.ts:4-37 has no such field.
  - The global validation pipe refuses unknown fields (src/main.ts:17-26).
  - The booking schema requires the field (src/schemas/booking.schema.ts:26-27).
  - So, through the HTTP layer, save validation refuses every new booking.
  - The model keeps `totalAmount` as an optional request field, so that both cases can be stated. `NewBookingWithoutAmountIsRejected` states the refusal.
- The user service's `create` has the same kind of gap:
  - Its request type carries the telephone as `phone` (src/users/users.service.ts:7-13).
  - The user schema requires `phoneNumber` (src/schemas/user.schema.ts:20-21) and drops fields it does not declare.
  - So save validation refuses every request of that type.
  - The model's request carries both fields, with `phoneNumber` optional. `RequestWithoutPhoneNumberIsRejected` states the refusal.

Definitions the contracts are stated in (predicates without a contract of their own):

- `BookingSchema.SatisfiesSchema`: the `min`/`max` bounds on durationHours and the required, non-negative totalAmount (src/schemas/booking.schema.ts:23-27).
- `Bookings.Conflicts`: the three-clause `$or` of the conflict query (src/bookings/bookings.service.ts:21-34).
- `Bookings.HasConflict`: the whole conflict query of `create`, with the business, locker and blocking-status tests (src/bookings/bookings.service.ts:17-35).
- `Bookings.MatchesSearch`: the query `findAll` builds (src/bookings/bookings.service.ts:59-78).
- `Bookings.ExceedsMaxRental`: the 10-hour cap (src/bookings/bookings.service.ts:42-45).
- `Bookings.RedirectsActive`: the guard of `update` (src/bookings/bookings.service.ts:124-126).
- `Bookings.IsClosed`: the status check of `cancel` (src/bookings/bookings.service.ts:155-157).
- `Bookings.CancellationWindowOpen`: the one-hour check of `cancel` (src/bookings/bookings.service.ts:159-167).
- `Bookings.HasElapsed` and `Bookings.IsStalePending`: the filters of the two sweep passes (src/bookings/bookings.service.ts:219-223, :231-236).
- `Businesses.PageLength`: the number of results `skip` then `limit` leave of the matches (src/businesses/businesses.service.ts:98-100).
- `Users.EmailInUse`: the lookup by email that `create` runs first (src/users/users.service.ts:33-36).
- `Users.UserSatisfiesSchema`: the required string fields of the user schema (src/schemas/user.schema.ts:8-21).

## Model

| member | source | states |
|---|---|---|
| `Outcomes.HttpStatus` | src/bookings/bookings.service.ts:37-45 | NotFound maps to 404; locker, email and password conflicts map to 409; save validation failure maps to 500; every other failure maps to 400 |
| `BookingSchema.StatusOrDefault` | src/schemas/booking.schema.ts:29-34 | an unset status is stored as `pending`; a given one is kept |
| `BookingSchema.PaymentStatusOrDefault` | src/schemas/booking.schema.ts:39-43 | an unset payment status is stored as `pending`; a given one is kept |
| `BookingSchema.ParseStatus` | src/schemas/booking.schema.ts:31 | the status enum validator accepts only the names of the six statuses |
| `BookingSchema.StatusNameRoundTrip` | src/schemas/booking.schema.ts:31 | every status's stored name parses back to that status |
| `BookingSchema.ParsePaymentStatus` | src/schemas/booking.schema.ts:40 | the payment status enum validator accepts only the names of the five payment statuses |
| `BookingSchema.PaymentStatusNameRoundTrip` | src/schemas/booking.schema.ts:40 | every payment status's name parses back to it |
| `Bookings.ConflictIsInclusiveOverlap` | src/bookings/bookings.service.ts:21-34 | for well-formed intervals, the three-clause test holds iff `s <= end && e >= start` |
| `Bookings.ConflictIsSymmetric` | src/bookings/bookings.service.ts:21-34 | for well-formed intervals, swapping the existing booking and the request gives the same answer |
| `Bookings.ConflictIsReflexive` | src/bookings/bookings.service.ts:21-34 | a well-formed interval conflicts with itself |
| `Bookings.BackToBackConflicts` | src/bookings/bookings.service.ts:22-25 | a booking ending exactly when the request starts is a conflict |
| `Bookings.InvertedBookingConflictsWithoutOverlap` | src/bookings/bookings.service.ts:30-33 | for a stored booking whose end precedes its start, the test reports a conflict where there is no overlap |
| `Bookings.BookedLockers` | src/bookings/bookings.service.ts:190-210 | a locker number is in the set iff the conflict check of `create` would fire for it |
| `Bookings.Range` | src/bookings/bookings.service.ts:188 | strictly ascending, holding exactly lo..hi |
| `Bookings.Exclude` | src/bookings/bookings.service.ts:212 | keeps exactly the elements not removed, and keeps ascending order |
| `Bookings.GetAvailableLockers` | src/bookings/bookings.service.ts:185-213 | strictly ascending; a locker is listed iff it lies in 1..20 and `create` on it over the same window would not hit the conflict check |
| `Bookings.FindOne` | src/bookings/bookings.service.ts:87-98 | returns the stored booking, or NotFound exactly when the id is absent |
| `Bookings.FindAll` | src/bookings/bookings.service.ts:58-85 | returns exactly the stored bookings that the filter matches, unchanged |
| `Bookings.FindAllWithoutFiltersReturnsAll` | src/bookings/bookings.service.ts:58-85 | with no search field set, every booking is returned |
| `Bookings.FindAllIgnoresHalfWindow` | src/bookings/bookings.service.ts:73-78 | the date window applies only when both of its ends are given |
| `Bookings.FindAllWindowIsInclusive` | src/bookings/bookings.service.ts:73-78 | a booking starting exactly at either end of the window matches |
| `Bookings.FindAllIgnoresPaging` | src/bookings/bookings.service.ts:58-85 | page and limit do not change the result |
| `Bookings.FindByUser` | src/bookings/bookings.service.ts:100-106 | exactly the stored bookings of that user, each as stored |
| `Bookings.FindByBusiness` | src/bookings/bookings.service.ts:108-114 | exactly the stored bookings of that business, each as stored |
| `Bookings.AddingUnblockedKeepsNoDoubleBooking` | src/bookings/bookings.service.ts:17-55 | storing a booking the conflict check does not match keeps "no two active/confirmed well-formed bookings on one locker overlap" |
| `Bookings.ReleasingKeepsNoDoubleBooking` | src/bookings/bookings.service.ts:169-174 | changing bookings only to non-blocking statuses keeps the no-double-booking invariant |
| `Bookings.StoredBookingBlocks` | src/bookings/bookings.service.ts:17-39 | a stored active or confirmed booking makes every conflicting request on its locker fail the conflict check |
| `Bookings.NewBooking` | src/bookings/bookings.service.ts:47-53 | the new record takes the request's fields; the caller is the owner; status is `confirmed`; payment status is the default `pending`; both timestamps are `now`; no audit stamps are set |
| `Bookings.NewBookingWithoutAmountIsRejected` | src/schemas/booking.schema.ts:26-27 | a record built without a total amount fails save validation |
| `Bookings.ApplyPatch` | src/bookings/bookings.service.ts:128-133 | each present patch field replaces the stored one; updatedAt becomes `now`; every other field is unchanged |
| `Bookings.UpdateCanBreakNoDoubleBooking` | src/bookings/bookings.service.ts:116-142 | a patch that `update` accepts can move a confirmed booking onto an occupied locker and break the no-double-booking invariant |
| `Bookings.CancellationWindowBoundary` | src/bookings/bookings.service.ts:159-167 | cancelling exactly one hour before the start is allowed; one millisecond later it is refused |
| `Bookings.CompleteElapsed` | src/bookings/bookings.service.ts:218-228 | keeps every id; each active booking whose end time is before `now` becomes `completed` with updatedAt `now`; every other booking is unchanged; afterwards none is left elapsed |
| `Bookings.CancelStalePending` | src/bookings/bookings.service.ts:230-241 | keeps every id; each pending booking created more than 15 minutes before `now` becomes `cancelled` with updatedAt `now`; every other booking is unchanged; afterwards none is left stale |
| `Bookings.SweepOne` | src/bookings/bookings.service.ts:215-242 | an elapsed active booking becomes `completed`; a pending one older than 15 minutes becomes `cancelled`; both stamp updatedAt; every other booking is untouched |
| `Bookings.SweepIsPointwise` | src/bookings/bookings.service.ts:215-242 | the two sequential bulk passes act on each booking as `SweepOne` does |
| `Bookings.SweepIsIdempotent` | src/bookings/bookings.service.ts:215-242 | a second sweep with the same `now` changes nothing |
| `Bookings.SweepKeepsNoDoubleBooking` | src/bookings/bookings.service.ts:215-242 | the sweep keeps the no-double-booking invariant |
| `Bookings.BookingsService.Create` | src/bookings/bookings.service.ts:13-56 | checks order: conflict, then more than 10 hours, then schema validation; each failure leaves the table and the id counter unchanged; success adds exactly one record, `NewBooking(...)`, under a fresh id; stored records keep the schema bounds; no-double-booking is preserved |
| `Bookings.BookingsService.Update` | src/bookings/bookings.service.ts:116-142 | NotFound for an unknown id; an active booking patched to a status other than `completed` is refused and unchanged; otherwise the booking becomes `ApplyPatch(old, patch, now)` and nothing else changes |
| `Bookings.BookingsService.Cancel` | src/bookings/bookings.service.ts:144-183 | failures in order: NotFound, not the owner, status completed or cancelled, less than one hour to start; each leaves the table unchanged; on success only status (to `cancelled`) and updatedAt change; no-double-booking is preserved |
| `Bookings.BookingsService.CheckExpiredBookings` | src/bookings/bookings.service.ts:215-242 | every booking becomes `SweepOne` of itself; no id is added or removed; no-double-booking is preserved |
| `Scenarios.StalePendingScenario` | src/bookings/bookings.service.ts:230-241 | a booking pending since t survives a sweep at t+14 min and is cancelled by one at t+16 min |
| `Scenarios.QuarterHourInsideBothBookings` | src/bookings/bookings.service.ts:185-213 | with a booking of locker 1 over 10:00-12:00 and of locker 2 over 11:00-13:00, the availability query for 11:30-11:45 lists neither locker 1 nor locker 2, but lists locker 3 |
| `Businesses.NewBusiness` | src/businesses/businesses.service.ts:13-21 | a new business starts with availableLockers = totalLockers, active and unverified, so 0 <= available <= total |
| `Businesses.FindById` | src/businesses/businesses.service.ts:30-41 | returns the stored business, or NotFound exactly when the id is absent |
| `Businesses.FindAll` | src/businesses/businesses.service.ts:23-28 | exactly the active businesses |
| `Businesses.FindByOwner` | src/businesses/businesses.service.ts:168-172 | exactly the owner's active businesses |
| `Businesses.EffectiveLimit` | src/businesses/businesses.service.ts:73 | an absent or zero limit becomes 20; any other limit is kept |
| `Businesses.EffectivePage` | src/businesses/businesses.service.ts:74 | an absent or zero page becomes 1; any other page is kept |
| `Businesses.Skip` | src/businesses/businesses.service.ts:74 | `(page - 1) * limit` over the effective page and limit, never negative once both are at least 1 |
| `Businesses.SkipIsWholePages` | src/businesses/businesses.service.ts:73-74 | for page >= 1, the skip is non-negative and a multiple of the limit, and the next page starts one limit later |
| `Businesses.DefaultPagingStartsAtZero` | src/businesses/businesses.service.ts:73-74 | with no page and no limit, the skip is 0 and the limit is 20 |
| `Businesses.TypeFilter` | src/businesses/businesses.service.ts:62-70 | cafe and restaurant each match {cafe, restaurant}; any other type matches only itself; no type gives no type filter |
| `Businesses.TypeFilterIsSymmetric` | src/businesses/businesses.service.ts:62-70 | type a's filter admits b iff type b's filter admits a |
| `Businesses.BuildQuery` | src/businesses/businesses.service.ts:43-74 | the query carries the zip code, the expanded type set, the effective limit and the skip |
| `Businesses.Filter` | src/businesses/businesses.service.ts:91 | keeps exactly the listed businesses that match the query |
| `Businesses.FilterKeepsOrder` | src/businesses/businesses.service.ts:91-102 | the matches keep listing order and multiplicity: filtering a concatenation concatenates the filtered parts |
| `Businesses.FilterIgnoresPaging` | src/businesses/businesses.service.ts:72-91 | which businesses match depends only on the zip code and the type set, not on page or limit |
| `Businesses.Search` | src/businesses/businesses.service.ts:43-105 | the result is the window of the matches, in listing order, that starts at the skip: its i-th element is match number skip + i, and it holds `limit` of them or all that remain; each is an active listed business matching the zip code and the type filter |
| `Businesses.NextPageContinues` | src/businesses/businesses.service.ts:72-102 | pages p and p + 1 see the same matches, the skip grows by exactly one limit, and page p + 1 holds the matches that follow a full page p |
| `Businesses.NextPageNeedsFullPage` | src/businesses/businesses.service.ts:72-102 | page p + 1 is non-empty only when page p holds a full `limit` of results |
| `Businesses.PageLengthContinues` | src/businesses/businesses.service.ts:98-100 | for a non-negative skip and a positive limit, the page one limit further on is non-empty only if this page is full |
| `Businesses.BusinessesService.Create` | src/businesses/businesses.service.ts:13-21 | a locker count below 1 fails validation and writes nothing; otherwise exactly one record `NewBusiness(...)` is added, within the locker bounds |
| `Businesses.BusinessesService.UpdateLockerAvailability` | src/businesses/businesses.service.ts:126-141 | NotFound for an unknown id; succeeds iff 0 <= available + increment <= total, then sets available to the sum; on failure nothing changes; the bounds are preserved |
| `Businesses.BusinessesService.Remove` | src/businesses/businesses.service.ts:156-166 | NotFound for an unknown id; otherwise only isActive becomes false, the record stays, and `FindAll` and every `FindByOwner` exclude it |
| `Users.FindById` | src/users/users.service.ts:55-61 | returns the stored user, or NotFound exactly when the id is absent |
| `Users.BookingsOf` | src/users/users.service.ts:147-182 | exactly the ids of the user's bookings, restricted to one status when given |
| `Users.BookingStatsOf` | src/users/users.service.ts:156-183 | counts all, active, completed and cancelled bookings of the user; active + completed + cancelled <= total |
| `Users.NoBookingsGivesZeros` | src/users/users.service.ts:186-194 | a user without bookings gets all zeros |
| `Users.NewUser` | src/users/users.service.ts:38-45 | the new document carries the request's email, names and phoneNumber, the given hash as password, the schema defaults role `user` and active, and both timestamps `now` |
| `Users.RequestWithoutPhoneNumberIsRejected` | src/schemas/user.schema.ts:20-21 | a request without `phoneNumber`, the shape of the service's request type, fails save validation |
| `Users.UsersService.Create` | src/users/users.service.ts:32-49 | a taken email fails with Conflict; otherwise the document `NewUser` builds with hash(plaintext) is saved under a fresh id, or refused by save validation; a failure writes nothing; emails stay unique; the stored password verifies against the plaintext and, given that `hash` has no fixed point, differs from it |
| `Users.UsersService.UpdatePassword` | src/users/users.service.ts:84-105 | NotFound for an unknown id; a current password that does not verify fails and leaves the hash unchanged; otherwise only the hash (of the new password) and updatedAt change |
| `Users.UsersService.Deactivate` | src/users/users.service.ts:107-122 | NotFound iff the user is absent; otherwise only isActive (to false) and updatedAt change |
| `Users.UsersService.Activate` | src/users/users.service.ts:124-139 | NotFound iff the user is absent; otherwise only isActive (to true) and updatedAt change |
| `Users.UsersService.GetUserStats` | src/users/users.service.ts:141-195 | NotFound iff the user is absent; otherwise the user and the counts of `BookingStatsOf`, with active + completed + cancelled <= total |

## Left out

- Concurrency: the conflict check and the save in `create` are separate database round trips (src/bookings/bookings.service.ts:17 and :55). The model runs calls one after another. It makes no claim about simultaneous requests.
- The database itself: queries, `populate` joins, `select` projections and the `sort` by createdAt. The reads return the matching records as a table, without order or joined fields. `getUserStats` receives the booking table as a parameter instead of the `$lookup` join.
- The second NotFound checks after `findByIdAndUpdate` in `update` and `cancel` (src/bookings/bookings.service.ts:137-139, :178-180). With calls one after another, the record found just before still exists.
- Date parsing: request times are already milliseconds. An unparsable date, which would compare as NaN, is not modelled.
- Schema fields the rules never read: paymentId, accessCode and the check-in/out stamps are carried but never set.
- `lockerNumber` is stored as a string and requested as a number. The model uses integers throughout. The non-numeric locker numbers of the seed script are outside the model.
- `durationHours` and `totalAmount` are exact reals, compared only against their bounds. Business prices, ratings and coordinates are not modelled.
- `Businesses.Search`: the `$text` name search with its score ordering, and the geospatial `$nearSphere` filter, are database features. The model's result is what the query gives without a name and without coordinates. `findNearby`, `findByZipCode` and the business `update` are not part of this model.
- `Businesses.Search` requires page >= 1 and a limit in 1..100. These are the bounds the request validator enforces before the service runs (src/dto/business.dto.ts:236-255). The service itself does not check them.
- User record validation on the other writes: `update` runs the validators on the patched fields only, and the other writes run none. The model checks the user schema only in `create`.
- User `findAll`, `findByEmail` and profile `update` are plain reads or writes, and are not part of this model. Neither are JWT signing and the authentication service.
- `Users.UsersService.Create`: bcrypt salting is not modelled. `hash` is one fixed function, and a password verifies when it hashes to the stored value.
- Id generation: the database's ObjectIds are replaced by a counter.
