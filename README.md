# Home-services booking core, modelled in Dafny

The system is a marketplace for home services. Admins keep a catalog of
services. Workers offer a catalog service as a *listing*, and customers book
a listing, which starts a booking lifecycle:

- A new booking is `Pending`. The worker is sent a text message.
- The worker answers `Accepted` (the booking becomes `Confirmed`) or
  `Rejected` (it becomes `Closed`).
- The worker uploads before and after photos. The booking becomes
  `Completed`, and the customer is texted a six-digit code.
- The worker enters that code. The booking becomes `Closed` and the code is
  cleared.
- Customers rate bookings and listings. A listing keeps a running total, a
  count and a mean of its ratings.

The client side has four pieces:

- the login-state reducer;
- the worker's tabbed list of requested bookings;
- the customer's searchable and sortable list;
- the code-entry page with its three-minute countdown.

The model has these parts:

- **Data.** `Catalog`, `BookingModel` and `ProviderModel` model the user,
  service, booking and listing documents as datatypes. They carry the schema
  defaults and bounds as predicates (`WellFormed`, `RatingConsistent`).
- **Database.** `Store.Database` is a class. It holds:
  - the four collections as maps;
  - the outbox of text messages the SMS provider accepted;
  - the id counter.

  Its invariant `Valid()` says that:
  - every id is below the counter;
  - every booking is well formed;
  - every listing's mean agrees with its total and count.
- **Handlers.** Each HTTP handler is a method that `modifies` the database.
  It starts where the `auth` middleware has accepted the token (see Left
  out), then runs its guards in the order the code does. It saves where the code
  saves, so a failure after a save keeps the saved change. Each `ensures`
  states the reply and the whole new state on every path.
- **Client code.** The client logic is pure functions and lemmas. There are
  two exceptions, because the source mutates state there:
  - the list page sorts an array in place;
  - the code-entry page changes its state tick by tick.

Some things are parameters of the model rather than computed:

- whether the SMS provider accepts a message (`delivered`);
- the random code (`code`, required to be in [100000, 999999]);
- the JWT verifier (`verify`);
- the answers of the request-body validators that check id, date and email
  formats (`idValid`, `bodyValid`, `categoryIdValid`).

Range checks (`isFloat({min: 0, max: 5})`, `isLength`, `trim`, `isIn`) are
written out.

Where the code and its documentation disagree, the model follows the code:

- Notify, proof upload and code verification do not look at the current
  status.
- `priceRange` in a service update is validated but not persisted, because
  it is not a path of the service schema.
- The `categoryId` given to a new listing is dropped, because it is not a
  path of the listing schema.
- The listing-create validators are declared but never consulted. Only the
  schema's `required` on `serviceName` can reject the body.
- The rating route for bookings does not change the listing (see Left out).
- A token issued after a session code carries no role. Role checks treat it
  as neither a worker nor an admin (`Claims.role` is an `Option`).

The model has one finding: the code check compares stringified values, so the
literal text `undefined` closes a booking that was never sent a code. It is
described under Findings. The handler `OtpController.VerifyOtp` uses the
corrected gate. The written comparison is kept as `OtpController.OtpMatches`.
As written, for a booking that was never sent a code, a falsy value is
refused with "Missing OTP" before any lookup. A truthy value is refused with
"Invalid OTP" unless its `String` is the text `undefined`. The word itself
and the array `["undefined"]` are such values, and either one closes the
booking.

## Model

| member | source | states |
|---|---|---|
| BookingModel.NewBooking | CapstoneBackend/models/Booking.js:3-21 | a new booking has the given user, listing and date, status `Pending`, rating, total and count 0, no code and no proof paths, and is well formed |
| BookingModel.UpdateRating | CapstoneBackend/models/Booking.js:11-16 | a rating is accepted exactly when it lies in [0, 5]; the result then has that rating, every other field unchanged, and stays well formed |
| BookingModel.StatusNameInjective | CapstoneBackend/models/Booking.js:7 | the four status names of the enum are distinct |
| BookingModel.RatableIffNotPending | CapstoneBackend/routes/Bookings.js:232-234 | the statuses the rating route accepts are exactly those other than `Pending` |
| ProviderModel.NewListing | CapstoneBackend/models/ServiceProviderModel.js:3-30 | a new listing carries the given fields and starts with rating, total and count 0 |
| ProviderModel.Rated | CapstoneBackend/models/ServiceProviderModel.js:32-37 | one rating raises the count by exactly 1 and the total by exactly the rating, makes the mean times the count equal the total, and changes no other field |
| ProviderModel.RatedPreservesConsistency | CapstoneBackend/models/ServiceProviderModel.js:20-37 | a rating in [0, 5] keeps mean = total / count, 0 <= total <= 5 * count and the mean in [0, 5] |
| ProviderModel.QuotientInRange | CapstoneBackend/models/ServiceProviderModel.js:35 | with a positive count and a total of at most 5 per rating, the mean is in [0, 5] |
| ProviderModel.RatedAllAccumulates | CapstoneBackend/models/ServiceProviderModel.js:32-37 | after a sequence of ratings the total grew by their sum and the count by their number, the mean times the count is the total, and no other field changed |
| ProviderModel.RatingIsMean | CapstoneBackend/models/ServiceProviderModel.js:26-37 | from the 0/0 defaults, the stored rating after r1..rn is their arithmetic mean |
| ProviderModel.RatedAllStaysInRange | CapstoneBackend/models/ServiceProviderModel.js:20-25 | ratings in [0, 5] keep the listing consistent and its rating within the schema bound [0, 5] |
| ProviderModel.RatingOrderIrrelevant | CapstoneBackend/models/ServiceProviderModel.js:32-37 | the resulting mean does not depend on the order the ratings arrive in |
| Store.Database.UpdateAverageRating | CapstoneBackend/models/ServiceProviderModel.js:32-37 | updating total, count and mean one after another leaves exactly that listing replaced by `Rated`, and keeps the database invariant |
| OtpController.IssuedOtp | CapstoneBackend/routes/Bookings.js:174 | storing a numeric code in the String `otp` path stores a code whose text is `String(code)` |
| OtpController.OtpMatches | CapstoneBackend/controllers/otp.js:69 | the written gate compares stringified values: a stored code matches exactly the values whose `String` is its text, an unset code exactly those rendering as `undefined`, a cleared one exactly those rendering as `null` |
| OtpController.IssuedCodeMatchesOnlyItself | CapstoneBackend/controllers/otp.js:69 | an issued code matches a supplied number, or its decimal text, exactly when it is that code |
| OtpController.ClearedRejectsEveryCode | CapstoneBackend/controllers/otp.js:69-74 | after clearing, or before any code, no number and no number written as text matches, so a used code cannot be replayed |
| OtpController.UncodedBookingAcceptsWordsAsWritten | CapstoneBackend/controllers/otp.js:69 | as written, the truthy text `undefined` matches a booking without a code, and `null` one whose code was cleared |
| OtpController.ArraysMeetGateByRendering | CapstoneBackend/controllers/otp.js:54-69 | an array body is truthy and meets the written gate by its `join` rendering: `[]` renders as nothing and matches no issued code, so the reply is "Invalid OTP"; `["undefined"]` matches a booking without a code; `[code]` and `["code"]` match the issued code |
| OtpController.IntendedGateNeedsIssuedCode | CapstoneBackend/controllers/otp.js:60-75 | the corrected gate accepts nothing without an issued code, and agrees with the written one wherever a code is stored |
| OtpController.SendOtp | CapstoneBackend/controllers/otp.js:18-45 | unknown booking: 404, nothing changes; unaddressable number or refused message: 500, nothing changes; otherwise the code is stored only after the message is sent, and the outbox grows by exactly that message |
| OtpController.VerifyOtp | CapstoneBackend/controllers/otp.js:48-82 | a falsy `otp` is 400 before any lookup; unknown booking: 404; no match: 400 "Invalid OTP" with nothing changed; a match sets `Closed` and clears the code and changes nothing else |
| BookingRoutes.CreateBooking | CapstoneBackend/routes/Bookings.js:69-112 | invalid body: 400; unknown listing: 404 and nothing stored; otherwise a `Pending` booking under a fresh id is saved before the worker is texted, and stays saved if the worker is gone (500) or the text is refused (500); no duplicate check |
| BookingRoutes.IssueOtp | CapstoneBackend/routes/Bookings.js:153-178 | succeeds exactly when the booking exists, its customer exists with a phone, and the message is delivered; only then is the code stored; otherwise nothing changes |
| BookingRoutes.AttachProof | CapstoneBackend/routes/Bookings.js:116-151 | 400 / 404 / 500 for a non-multipart request / 400 "Both ... required" with nothing changed; with both files, both paths and `Completed` are saved whatever the prior status, then a code is issued; a failure there is 500 with `Completed` kept |
| BookingRoutes.RateBooking | CapstoneBackend/routes/Bookings.js:217-253 | a rating outside [0, 5]: 400; unknown booking: 404; `Pending`: 400 and unchanged; otherwise only `rating` is set, status kept; a missing listing is then 404 with the rating kept; listings are not written |
| BookingRoutes.GetBookingRating | CapstoneBackend/routes/Bookings.js:255-271 | the stored rating of the booking, or 404 |
| BookingRoutes.DecisionStatus | CapstoneBackend/routes/Bookings.js:386-390 | `Accepted` gives `Confirmed`, `Rejected` gives `Closed`, from any status |
| BookingRoutes.Notify | CapstoneBackend/routes/Bookings.js:365-411 | a message other than `Accepted`/`Rejected`: 400; unknown booking: 404; otherwise the new status is saved before the phone is looked up, and stays on a missing customer (500), a missing phone (400) or a refused text (500) |
| BookingRoutes.MyBookings | CapstoneBackend/routes/Bookings.js:291-315 | exactly the bookings with that `userId`, unchanged; none is a 404 |
| BookingRoutes.RequestedBookings | CapstoneBackend/routes/Bookings.js:451-487 | a worker without listings: 404; otherwise exactly the bookings whose listing the worker owns; none is a 404 |
| BookingRoutes.BookAndAccept | CapstoneBackend/routes/Bookings.js:69-112 | creating a booking on an existing listing and accepting it gives a fresh, `Confirmed` booking of that customer and listing, with every earlier booking unchanged |
| BookingRoutes.CompleteAndClose | CapstoneBackend/routes/Bookings.js:116-180 | uploading both proofs and then verifying the texted code leaves that booking `Closed` with both proofs stored and the code cleared, keeps its customer and listing, and touches no other booking |
| BookingRoutes.BookingLifecycle | CapstoneBackend/routes/Bookings.js:69-178 | create, accept, upload proofs, then verify the sent code: the new booking ends `Closed` with the code cleared and both proofs stored, other bookings are untouched, and the code no longer matches |
| AuthMiddleware.Split | CapstoneBackend/middlewares/auth.js:5 | `split(' ')` yields at least one field and no field contains a space |
| AuthMiddleware.JoinSplit | CapstoneBackend/middlewares/auth.js:5 | joining the fields with single spaces gives the header back |
| AuthMiddleware.SplitFirst | CapstoneBackend/middlewares/auth.js:5 | a space-free field followed by a space is split off whole, before the fields of the rest |
| AuthMiddleware.SplitJoin | CapstoneBackend/middlewares/auth.js:5 | space-free fields joined with single spaces split back into the same fields |
| AuthMiddleware.BearerToken | CapstoneBackend/middlewares/auth.js:5-9 | a token is only found in a present header, and is non-empty and space-free |
| AuthMiddleware.TokenFollowsAnyScheme | CapstoneBackend/middlewares/auth.js:5 | whatever the first word, the field after the first space is the token, and later fields are ignored |
| AuthMiddleware.NoSpaceNoToken | CapstoneBackend/middlewares/auth.js:5-9 | a header without a space (`Bearer`) gives no token |
| AuthMiddleware.DoubleSpaceNoToken | CapstoneBackend/middlewares/auth.js:5-9 | two spaces after the scheme leave the second field empty, so there is no token |
| AuthMiddleware.Decide | CapstoneBackend/middlewares/auth.js:5-17 | no token, a token the verifier rejects, or the verifier's payload, each exactly when it applies |
| AuthMiddleware.Rejection | CapstoneBackend/middlewares/auth.js:7-17 | the two 401 replies with their messages, and no reply exactly when authenticated |
| AuthMiddleware.Auth | CapstoneBackend/middlewares/auth.js:3-18 | on rejection `req.user` is untouched and `next` is not called; on success `req.user` is the payload and `next` is called exactly once |
| Lists.Select | CapstoneBackend/routes/ServiceProvidersRoutes.js:50 | a `find` on one field: exactly the entries whose value passes the test, each unchanged; the listing, booking and service queries are all this one |
| ProviderRoutes.CreateListing | CapstoneBackend/routes/ServiceProvidersRoutes.js:9-42 | non-worker: 403 before any lookup; unknown service: 400; missing or empty name: 400; otherwise a fresh listing owned by the token's user id, with the 0/0 rating defaults; nothing else stored |
| ProviderRoutes.GetListings | CapstoneBackend/routes/ServiceProvidersRoutes.js:47-57 | always 200, with exactly the listings of that service |
| ProviderRoutes.GetListing | CapstoneBackend/routes/ServiceProvidersRoutes.js:59-79 | unknown service: 400; a listing missing or under another service: 404; otherwise that listing |
| ProviderRoutes.DeleteListing | CapstoneBackend/routes/ServiceProvidersRoutes.js:82-109 | 403 non-worker, 400 unknown service, 404 no listing with that id and service, 403 not the owner, each with nothing changed; otherwise exactly that listing is removed |
| ProviderRoutes.RateListing | CapstoneBackend/routes/ServiceProvidersRoutes.js:115-145 | a rating outside [0, 5]: 400; unknown listing: 404; otherwise that listing becomes `Rated` with the rating and nothing else changes |
| ProviderRoutes.GetListingRating | CapstoneBackend/routes/ServiceProvidersRoutes.js:149-165 | the stored mean, which lies in [0, 5], or 404 |
| ServiceRoutes.GetServicesOfCategory | CapstoneBackend/routes/Services.js:8-26 | a malformed category id: 400; otherwise 200 with exactly that category's services |
| ServiceRoutes.NewService | CapstoneBackend/routes/Services.js:32-62 | the saved service has the trimmed name and description, an empty provider list and the rating defaults |
| ServiceRoutes.NewServiceMeetsRules | CapstoneBackend/routes/Services.js:36-43 | an accepted service name is at least 3 characters with no surrounding space, and a description at most 1000 |
| ServiceRoutes.CreateService | CapstoneBackend/routes/Services.js:28-70 | non-admin: 403 before validation; invalid input: 400; otherwise exactly one new service under a fresh id |
| ServiceRoutes.DeleteService | CapstoneBackend/routes/Services.js:107-133 | non-admin: 403 before validation; malformed id: 400; unknown id: 404; otherwise exactly that service is removed |
| ServiceRoutes.Patch | CapstoneBackend/routes/Services.js:186-188 | only a supplied non-empty name or description replaces the stored one; every other field is unchanged |
| ServiceRoutes.PatchNothing | CapstoneBackend/routes/Services.js:186-188 | an update that supplies nothing changes nothing |
| ServiceRoutes.PatchTwice | CapstoneBackend/routes/Services.js:186-188 | two updates in a row equal one update with the later value of each field |
| ServiceRoutes.PatchIdempotent | CapstoneBackend/routes/Services.js:186-188 | repeating an update changes nothing more |
| ServiceRoutes.UpdateService | CapstoneBackend/routes/Services.js:161-197 | empty name or description, or a non-array `priceRange`: 400; unknown id: 404; otherwise exactly that service is patched; no role check |
| AuthReducer.Initial | CapstoneFrontend/src/redux/reducers.js:3-8 | token, user, error and provider id all start null |
| AuthReducer.Reduce | CapstoneFrontend/src/redux/reducers.js:10-39 | one dispatch: an action other than a login success or logout keeps token, user and provider id; only a login success, login failure or clear-error changes the error; logout nulls the session; an unknown type returns the state unchanged |
| AuthReducer.ReduceDefault | CapstoneFrontend/src/redux/reducers.js:10 | an undefined state is reduced as the initial state |
| AuthReducer.LoginSuccessSetsSession | CapstoneFrontend/src/redux/reducers.js:12-19 | login success installs token, user and provider id from the payload and clears the error, whatever came before |
| AuthReducer.LoginFailureKeepsSession | CapstoneFrontend/src/redux/reducers.js:20-24 | login failure sets only the error |
| AuthReducer.ClearErrorOnlyClears | CapstoneFrontend/src/redux/reducers.js:25-29 | clear-error nulls only the error, and twice is once |
| AuthReducer.LogoutKeepsError | CapstoneFrontend/src/redux/reducers.js:30-36 | logout nulls token, user and provider id and keeps the error |
| AuthReducer.OtherIsIdentity | CapstoneFrontend/src/redux/reducers.js:37-38 | any other action returns the state unchanged |
| AuthReducer.SessionNeedsLoginOrLogout | CapstoneFrontend/src/redux/reducers.js:10-39 | no sequence of actions without a login success or logout changes token, user or provider id |
| AuthReducer.ErrorNeedsErrorAction | CapstoneFrontend/src/redux/reducers.js:10-39 | no sequence of actions without a login or clear-error action changes the error |
| AuthReducer.ReduceAllAppend | CapstoneFrontend/src/redux/reducers.js:10-39 | dispatching two sequences one after another is dispatching their concatenation |
| AuthReducer.LoggedOutStaysLoggedOut | CapstoneFrontend/src/redux/reducers.js:30-36 | after a logout, only a login success can bring a token back |
| AuthReducer.NoTokenWithoutLogin | CapstoneFrontend/src/redux/reducers.js:10-39 | without a token, no sequence free of login successes sets one |
| WorksView.ByStatus | CapstoneFrontend/src/components/Works.jsx:50-52 | exactly the bookings whose status equals the given one ignoring case, as an order-preserving subsequence |
| WorksView.TabOf | CapstoneFrontend/src/components/Works.jsx:94-99 | every status has a tab among the four, and that tab lists that status |
| WorksView.LowerStatusNameInjective | CapstoneFrontend/src/components/Works.jsx:51 | the four status names stay distinct once lower-cased |
| WorksView.TabsDisjoint | CapstoneFrontend/src/components/Works.jsx:113-185 | no booking is listed in two tabs |
| WorksView.ListedUnderItsTab | CapstoneFrontend/src/components/Works.jsx:113-185 | a booking in a server status is listed under exactly that status's tab |
| WorksView.DoubleClick | CapstoneFrontend/src/components/Works.jsx:54-61 | `Pending` opens the accept/reject modal, `Confirmed` and `Completed` go to that booking's verify page, `Closed` does nothing |
| WorksView.ModalResponsesAreDecisions | CapstoneFrontend/src/components/Works.jsx:229-234 | both modal answers pass the notify validator and move the booking to `Confirmed` and `Closed` respectively |
| MyBookingView.Search | CapstoneFrontend/src/components/MyBooking.jsx:73-78 | an empty query keeps the list; otherwise exactly the bookings whose worker name or service name contains the query ignoring case, in order |
| MyBookingView.OptionsExclusive | CapstoneFrontend/src/components/MyBooking.jsx:80-88 | no option both sorts and filters |
| MyBookingView.SortOrders | CapstoneFrontend/src/components/MyBooking.jsx:80-85 | `lastBooking` puts the newest first, `oldBooking` the oldest first, `highestRating` the best-rated first |
| MyBookingView.WithStatus | CapstoneFrontend/src/components/MyBooking.jsx:86-87 | exactly the bookings with that status, compared exactly |
| MyBookingView.NothingSelectedShowsAll | CapstoneFrontend/src/components/MyBooking.jsx:70-91 | no query and no option show the list as it is |
| MyBookingView.ShownCardsQualify | CapstoneFrontend/src/components/MyBooking.jsx:70-91 | every shown card is a booking of the list, matches the query and has the chosen status |
| MyBookingView.InsertAt | CapstoneFrontend/src/components/MyBooking.jsx:80-85 | one insertion step extends the sorted prefix by one element, permutes the array, and leaves the rest alone |
| MyBookingView.SortInPlace | CapstoneFrontend/src/components/MyBooking.jsx:80-85 | the array ends sorted by the option's key and is a permutation of what it held |
| MyBookingView.ApplyFilters | CapstoneFrontend/src/components/MyBooking.jsx:70-91 | the shown list is the search then at most one sort (a sorted permutation) or status filter; with an empty query a sort reorders the state array itself, every other path leaves it alone |
| MyBookingView.CardClick | CapstoneFrontend/src/components/MyBooking.jsx:93-99 | `Pending` and `Confirmed` only raise the alert; any other status goes to that booking's rating page |
| MyBookingView.ClickStricterThanServer | CapstoneFrontend/src/components/MyBooking.jsx:93-99 | the page leads to rating exactly the `Completed` and `Closed` bookings, which the server accepts; it refuses `Confirmed`, which the server would accept |
| OtpEnterView.TwoDigits | CapstoneFrontend/src/components/OtpEnter.jsx:21 | the seconds are always two digits and read back as the number |
| OtpEnterView.FormatTimer | CapstoneFrontend/src/components/OtpEnter.jsx:18-22 | minutes as digits, a colon, then exactly two digits |
| OtpEnterView.FormatTimerRoundTrip | CapstoneFrontend/src/components/OtpEnter.jsx:18-22 | 60 times the minutes read back plus the seconds read back is the timer |
| OtpEnterView.FormatTimerInjective | CapstoneFrontend/src/components/OtpEnter.jsx:18-22 | different times are never shown the same |
| OtpEnterView.InitialDisplay | CapstoneFrontend/src/components/OtpEnter.jsx:13-22 | the opening display of 180 seconds is `3:00` |
| OtpEnterView.Step | CapstoneFrontend/src/components/OtpEnter.jsx:41-47 | a tick decrements a positive timer and keeps the flag; at 0 it sets expired and stays at 0 |
| OtpEnterView.Countdown | CapstoneFrontend/src/components/OtpEnter.jsx:41-47 | after n ticks the timer is t - n, never below 0, and expired exactly when n > t |
| OtpEnterView.StaysExpired | CapstoneFrontend/src/components/OtpEnter.jsx:41-47 | once expired at 0, further ticks change nothing |
| OtpEnterView.SubmitPayload | CapstoneFrontend/src/components/OtpEnter.jsx:25-29 | Verify posts `{ otp: otpCode }` exactly when the code is non-empty and not expired |
| OtpEnterView.PayloadIsTruthy | CapstoneFrontend/src/components/OtpEnter.jsx:93 | whatever the page posts is truthy, so the server's "Missing OTP" never comes from it |
| OtpEnterView.TypedWordReachesServer | CapstoneFrontend/src/components/OtpEnter.jsx:27-29 | the typed word `undefined` is posted as is and meets the written gate for a booking without a code, which the corrected gate refuses |
| OtpEnterView.OtpPage.constructor | CapstoneFrontend/src/components/OtpEnter.jsx:11-13 | the page opens with an empty code, not expired, at 180 seconds |
| OtpEnterView.OtpPage.Tick | CapstoneFrontend/src/components/OtpEnter.jsx:41-47 | one interval callback does exactly `Step` to the timer and flag |
| OtpEnterView.OtpPage.Type | CapstoneFrontend/src/components/OtpEnter.jsx:83-84 | typing replaces the code unless the input is disabled by expiry |
| OtpEnterView.OtpPage.Submit | CapstoneFrontend/src/components/OtpEnter.jsx:91-93 | pressing Verify posts exactly `SubmitPayload` of the current state |

## Left out

- The `auth` middleware is modelled on its own, as `AuthMiddleware.Auth`. Every authenticated handler is modelled from the point where `auth` has called `next()`: the handlers of the routes at CapstoneBackend/routes/Bookings.js:71, 291 and 451, CapstoneBackend/routes/Services.js:29, 108 and 163, and CapstoneBackend/routes/ServiceProvidersRoutes.js:9 and 82 take the verified claims (or, for the three booking routes, ignore them), and the two 401 replies are those of `AuthMiddleware.Auth`, which never calls `next` when it rejects.
- OtpController.VerifyOtp: the handler uses the corrected gate `OtpMatchesIntended`, so as a model of CapstoneBackend/controllers/otp.js:69 it refuses the words `undefined` and `null` that the written gate lets through; the written gate is `OtpMatches`, and the Findings row pairs the two.
- Persistence is an in-memory map. Mongoose `findById`, `find`, `populate` and `save` are not modelled, nor cast errors on malformed ids (those give 500, or 400 in the listing-create route, whose catch at CapstoneBackend/routes/ServiceProvidersRoutes.js:39-40 replies 400). Ids are natural numbers.
- SMS is a parameter. Twilio is a parameter saying whether the message was accepted, and the outbox records accepted messages. The message texts are datatypes, not rendered strings.
- File uploads are opaque optional paths. Multer's storage is not modelled.
- `Math.random` is not modelled. The code is a parameter between 100000 and 999999.
- JWT signing, expiry and bcrypt are not modelled. `jwt.verify` is a function parameter returning the payload or nothing.
- Format validators are boolean parameters. These are `isMongoId`, `isISO8601` and `isEmail`. Each validator's 400 reply carries its list of messages, and the model does not.
- JavaScript numbers are not modelled. Ratings are exact reals, dates and codes are integers, and `String(n)` is the decimal rendering of an integer. Floating-point rounding, `NaN`, exponent notation and non-integral codes are not modelled.
- BookingRoutes.RateBooking: the listing aggregate at CapstoneBackend/routes/Bookings.js:239-245 is left out. It queries a `serviceId` field bookings do not have and can divide by zero. It writes an `averageRating` field the listing schema does not declare, so the listing is not changed.
- Request-body objects are one value, `JObject`: `String` of any object is `[object Object]` and nothing reads their members. Arrays are modelled with `join(',')` rendering, where null and missing elements render as nothing.
- ProviderRoutes.RateListing: a rating sent as a JSON string (`"3"`) is not modelled. It passes `isFloat`, and `totalRatingScore += newRating` would then concatenate strings.
- Store.Database.UpdateAverageRating: it requires a rating in [0, 5], which its only caller guarantees. The schema method itself accepts any number.
- The service rating route (CapstoneBackend/routes/Services.js:72-102) is left out, together with `Service.updateAverageRating`. That method uses `Booking`, which its file never imports.
- The GET `/` all-bookings route (CapstoneBackend/routes/Bookings.js:274-289) is left out. It is not part of the lifecycle.
- The 400 "User ID is required" branches of the two list routes are left out. Express never passes an empty route parameter.
- MyBookingView.SortInPlace: JavaScript's sort is stable, and the model proves only that the result is sorted and is a permutation, not stability.
- Lower-casing and trimming are ASCII only. `Lower` folds `A`-`Z` and `IsSpace` covers ASCII whitespace. Unicode case mapping and Unicode spaces are not modelled.
- The `setInterval` timing is not modelled. One tick is one call of `Tick`.
- Rendering and fetching are not modelled. This covers the components that only render or fetch: `booking.userId.name` lookups, alerts, navigation and the ratings fetch loop.
- The authentication routes (`routes/auth.js`), categories, `app.js` and `controllers/booking.js` are not part of this model.
- Concurrent requests are not modelled. Handlers run one at a time.

## Findings

| source | as written | input that shows it | evidently intended | confidence | as-written member | corrected member |
|---|---|---|---|---|---|---|
| CapstoneBackend/controllers/otp.js:69 | `String(booking.otp) !== String(otp)` is the only gate, and an unset `otp` path stringifies to `undefined`, a cleared one to `null` | the body `{"otp": "undefined"}` for a booking never sent a code; or `{"otp": "null"}` after a successful verification; either closes the booking | a booking is closed only with a code that was actually issued to it | high; not executed | OtpController.UncodedBookingAcceptsWordsAsWritten | OtpController.IntendedGateNeedsIssuedCode |
