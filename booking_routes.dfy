/**
 * The booking route handlers (CapstoneBackend/routes/Bookings.js). Each
 * handler runs its guards in the code's order and saves as the code does,
 * so a failure after a save leaves the saved change in place.
 */
module BookingRoutes {
  import opened Wrappers
  import opened Catalog
  import opened BookingModel
  import opened ProviderModel
  import opened Store
  import opened OtpController
  import Lists

  /** The error messages the routes send, word for word. */
  const ProofFilesRequired := "Both beforeWorking and afterWorking files are required"
  const NotRatable := "Cannot rate a service that is not confirmed,completed or closed"
  const ProofNotSaved := "Error completing booking with proof images"
  const BookingNotCreated := "Error creating booking"
  const StatusNotNotified := "Failed to update booking status and notify customer"
  const NoBookingsForListings := "No bookings found for these service providers"
  const NoBookingsForUser := "No bookings found for this user"
  const NoListingsForWorker := "No service providers found for this user"
  const RatedServiceNotFound := "Service not found"
  const ListingNotFoundForBooking := "Service provider not found"
  const NoPhoneNumber := "User phone number not available"

  /** What multer leaves in `req.files`: nothing for a non-multipart request. */
  datatype Upload = NotMultipart | Multipart(beforeWorking: Option<string>, afterWorking: Option<string>)

  /** `req.files[name] ? path : null`, then `!path`: a usable path is present and not empty. */
  predicate HasFile(f: Option<string>) {
    f.Some? && f.value != ""
  }

  /** The bookings made by `userId` (`Booking.find({ userId })`). */
  function BookingsOfUser(bookings: map<Id, Booking>, userId: Id): map<Id, Booking> {
    Lists.Select(bookings, (b: Booking) => b.userId == userId)
  }

  /** The listings owned by `workerId` (`ServiceProvider.find({ userId })`). */
  function ListingsOfWorker(listings: map<Id, Listing>, workerId: Id): (r: set<Id>)
    ensures forall id :: id in r <==> id in listings && listings[id].userId == workerId
  {
    set id | id in listings && listings[id].userId == workerId
  }

  /** The bookings of any of `ids` (`Booking.find({ serviceProviderId: { $in: ids } })`). */
  function BookingsOfListings(bookings: map<Id, Booking>, ids: set<Id>): map<Id, Booking> {
    Lists.Select(bookings, (b: Booking) => b.serviceProviderId in ids)
  }

  /**
   * POST `/`: the listing must exist; the new booking is saved `Pending`
   * before the worker is texted, so a failure after that keeps it. Nothing
   * stops a second booking of the same listing, user and date.
   */
  method CreateBooking(db: Database, userId: Id, serviceProviderId: Id, bookingDate: int,
                       bodyValid: bool, delivered: bool)
    returns (reply: Reply, created: Option<Id>)
    requires db.Valid()
    modifies db
    ensures db.Valid()
    ensures !bodyValid ==> reply == Invalid && created == None && unchanged(db)
    ensures bodyValid && serviceProviderId !in old(db.listings) ==>
              reply == Fail(404, ListingNotFoundForBooking) && created == None && unchanged(db)
    ensures bodyValid && serviceProviderId in old(db.listings) ==>
              && created == Some(old(db.nextId))
              && old(db.nextId) !in old(db.bookings)
              && db.bookings == old(db.bookings)[old(db.nextId) := NewBooking(userId, serviceProviderId, bookingDate)]
              && db.nextId == old(db.nextId) + 1
    ensures bodyValid && serviceProviderId in old(db.listings) ==>
              var worker := old(db.listings[serviceProviderId].userId);
              && (worker !in db.users ==> reply == Fail(500, BookingNotCreated) && db.outbox == old(db.outbox))
              && (worker in db.users && !HasPhone(db.users[worker]) ==> reply == Ok && db.outbox == old(db.outbox))
              && (worker in db.users && HasPhone(db.users[worker]) ==>
                    db.outbox == (if delivered then old(db.outbox) + [Sms(db.users[worker].phoneNumber.value, NewAssignment(old(db.nextId)))]
                                  else old(db.outbox))
                    && reply == (if delivered then Ok else Fail(500, BookingNotCreated)))
    ensures db.users == old(db.users) && db.services == old(db.services) && db.listings == old(db.listings)
  {
    created := None;
    if !bodyValid {
      return Invalid, None;
    }
    if serviceProviderId !in db.listings {
      return Fail(404, ListingNotFoundForBooking), None;
    }
    var provider := db.listings[serviceProviderId];
    var id := db.NewId();
    db.SaveBooking(id, NewBooking(userId, serviceProviderId, bookingDate));
    created := Some(id);
    if provider.userId !in db.users {
      // `serviceProvider.userId` populated to null: reading its phone throws
      return Fail(500, BookingNotCreated), created;
    }
    var worker := db.users[provider.userId];
    if HasPhone(worker) {
      var sent := db.SendSms(worker.phoneNumber.value, NewAssignment(id), delivered);
      if !sent {
        return Fail(500, BookingNotCreated), created;
      }
    }
    reply := Ok;
  }

  /**
   * The internal `sendOtp({ bookingId })`: fails when the customer is gone or
   * has no phone, or the message is refused; stores the code only after the
   * message has been sent.
   */
  method IssueOtp(db: Database, bookingId: Id, code: int, delivered: bool) returns (ok: bool)
    requires db.Valid() && 100000 <= code <= 999999
    modifies db
    ensures db.Valid()
    ensures ok <==> && bookingId in old(db.bookings)
                    && old(db.bookings[bookingId].userId) in db.users
                    && HasPhone(db.users[old(db.bookings[bookingId].userId)])
                    && delivered
    ensures !ok ==> unchanged(db)
    ensures ok ==>
              var phone := db.users[old(db.bookings[bookingId].userId)].phoneNumber.value;
              && db.bookings == old(db.bookings)[bookingId := old(db.bookings[bookingId]).(otp := IssuedOtp(code))]
              && db.outbox == old(db.outbox) + [Sms(phone, OtpWithFeedbackLink(code, bookingId))]
    ensures db.users == old(db.users) && db.services == old(db.services)
    ensures db.listings == old(db.listings) && db.nextId == old(db.nextId)
  {
    if bookingId !in db.bookings {
      return false;
    }
    var booking := db.bookings[bookingId];
    if booking.userId !in db.users || !HasPhone(db.users[booking.userId]) {
      return false;
    }
    var phone := db.users[booking.userId].phoneNumber.value;
    ok := db.SendSms(phone, OtpWithFeedbackLink(code, bookingId), delivered);
    if ok {
      booking := booking.(otp := IssuedOtp(code));
      db.SaveBooking(bookingId, booking);
    }
  }

  /**
   * POST `/:id/proof`: with both files, the paths and `Completed` are saved
   * whatever the prior status, and only then is a code issued; a failure
   * there gives 500 but keeps `Completed`.
   */
  method AttachProof(db: Database, bookingId: Id, idValid: bool, upload: Upload, code: int, delivered: bool)
    returns (reply: Reply)
    requires db.Valid() && 100000 <= code <= 999999
    modifies db
    ensures db.Valid()
    ensures !idValid ==> reply == Invalid && unchanged(db)
    ensures idValid && bookingId !in old(db.bookings) ==> reply == Fail(404, BookingNotFound) && unchanged(db)
    ensures idValid && bookingId in old(db.bookings) && upload.NotMultipart? ==>
              reply == Fail(500, ProofNotSaved) && unchanged(db)
    ensures idValid && bookingId in old(db.bookings) && upload.Multipart?
            && !(HasFile(upload.beforeWorking) && HasFile(upload.afterWorking)) ==>
              reply == Fail(400, ProofFilesRequired) && unchanged(db)
    ensures idValid && bookingId in old(db.bookings) && upload.Multipart?
            && HasFile(upload.beforeWorking) && HasFile(upload.afterWorking) ==>
              var proofed := old(db.bookings[bookingId]).(beforeWorking := upload.beforeWorking,
                                                          afterWorking := upload.afterWorking,
                                                          status := Completed);
              var customer := old(db.bookings[bookingId].userId);
              if customer in db.users && HasPhone(db.users[customer]) && delivered then
                && reply == Ok
                && db.bookings == old(db.bookings)[bookingId := proofed.(otp := IssuedOtp(code))]
                && db.outbox == old(db.outbox) + [Sms(db.users[customer].phoneNumber.value, OtpWithFeedbackLink(code, bookingId))]
              else
                && reply == Fail(500, ProofNotSaved)
                && db.bookings == old(db.bookings)[bookingId := proofed]
                && db.outbox == old(db.outbox)
    ensures db.users == old(db.users) && db.services == old(db.services)
    ensures db.listings == old(db.listings) && db.nextId == old(db.nextId)
  {
    if !idValid {
      return Invalid;
    }
    if bookingId !in db.bookings {
      return Fail(404, BookingNotFound);
    }
    if upload.NotMultipart? {
      // `req.files` is undefined, so `req.files['beforeWorking']` throws
      return Fail(500, ProofNotSaved);
    }
    if !HasFile(upload.beforeWorking) || !HasFile(upload.afterWorking) {
      return Fail(400, ProofFilesRequired);
    }
    var booking := db.bookings[bookingId];
    booking := booking.(beforeWorking := upload.beforeWorking);
    booking := booking.(afterWorking := upload.afterWorking);
    booking := booking.(status := Completed);
    db.SaveBooking(bookingId, booking);
    var issued := IssueOtp(db, bookingId, code, delivered);
    if !issued {
      return Fail(500, ProofNotSaved);
    }
    reply := Ok;
  }

  /**
   * POST `/:id/rate`: a rating in [0, 5] on a booking that is not `Pending`
   * is saved, changing nothing else. A missing listing is then reported as
   * 404, with the rating kept. The listing itself is not written.
   */
  method RateBooking(db: Database, bookingId: Id, idValid: bool, rating: real) returns (reply: Reply)
    requires db.Valid()
    modifies db
    ensures db.Valid()
    ensures !(idValid && InRatingRange(rating)) ==> reply == Invalid && unchanged(db)
    ensures idValid && InRatingRange(rating) && bookingId !in old(db.bookings) ==>
              reply == Fail(404, BookingNotFound) && unchanged(db)
    ensures idValid && InRatingRange(rating) && bookingId in old(db.bookings) && !Ratable(old(db.bookings[bookingId].status)) ==>
              reply == Fail(400, NotRatable) && unchanged(db)
    ensures idValid && InRatingRange(rating) && bookingId in old(db.bookings) && Ratable(old(db.bookings[bookingId].status)) ==>
              && db.bookings == old(db.bookings)[bookingId := old(db.bookings[bookingId]).(rating := rating)]
              && db.bookings[bookingId].status == old(db.bookings[bookingId].status)
              && reply == (if old(db.bookings[bookingId].serviceProviderId) in db.listings then Ok
                           else Fail(404, RatedServiceNotFound))
    ensures db.users == old(db.users) && db.services == old(db.services) && db.listings == old(db.listings)
    ensures db.outbox == old(db.outbox) && db.nextId == old(db.nextId)
  {
    if !idValid || !InRatingRange(rating) {
      return Invalid;
    }
    if bookingId !in db.bookings {
      return Fail(404, BookingNotFound);
    }
    var booking := db.bookings[bookingId];
    if !Ratable(booking.status) {
      return Fail(400, NotRatable);
    }
    booking := booking.(rating := rating);
    db.SaveBooking(bookingId, booking);
    if booking.serviceProviderId !in db.listings {
      return Fail(404, RatedServiceNotFound);
    }
    reply := Ok;
  }

  /** GET `/:id/rate`: the booking's stored rating. */
  method GetBookingRating(db: Database, bookingId: Id) returns (reply: Reply, rating: Option<real>)
    ensures bookingId !in db.bookings ==> reply == Fail(404, BookingNotFound) && rating == None
    ensures bookingId in db.bookings ==> reply == Ok && rating == Some(db.bookings[bookingId].rating)
  {
    if bookingId !in db.bookings {
      return Fail(404, BookingNotFound), None;
    }
    reply, rating := Ok, Some(db.bookings[bookingId].rating);
  }

  /** The notify validator: `body('message').isIn(['Accepted', 'Rejected'])`. */
  predicate IsDecision(message: string) {
    message == "Accepted" || message == "Rejected"
  }

  /** The status the worker's answer sets: `Accepted` confirms, `Rejected` closes. */
  function DecisionStatus(current: BookingStatus, message: string): (s: BookingStatus)
    ensures message == "Accepted" ==> s == Confirmed
    ensures message == "Rejected" ==> s == Closed
    ensures message != "Accepted" && message != "Rejected" ==> s == current
  {
    if message == "Accepted" then Confirmed
    else if message == "Rejected" then Closed
    else current
  }

  /**
   * POST `/notify`: the new status is saved from any current status, before
   * the customer's phone is looked up; a missing phone gives 400 and a
   * refused message 500, and either way the new status stays.
   */
  method Notify(db: Database, bookingId: Id, idValid: bool, message: string, delivered: bool)
    returns (reply: Reply)
    requires db.Valid()
    modifies db
    ensures db.Valid()
    ensures !(idValid && IsDecision(message)) ==>
              reply == Invalid && unchanged(db)
    ensures idValid && IsDecision(message) && bookingId !in old(db.bookings) ==>
              reply == Fail(404, BookingNotFound) && unchanged(db)
    ensures idValid && IsDecision(message) && bookingId in old(db.bookings) ==>
              var customer := old(db.bookings[bookingId].userId);
              && db.bookings == old(db.bookings)[bookingId := old(db.bookings[bookingId]).(status := DecisionStatus(old(db.bookings[bookingId].status), message))]
              && (customer !in db.users ==>
                    reply == Fail(500, StatusNotNotified) && db.outbox == old(db.outbox))
              && (customer in db.users && !HasPhone(db.users[customer]) ==>
                    reply == Fail(400, NoPhoneNumber) && db.outbox == old(db.outbox))
              && (customer in db.users && HasPhone(db.users[customer]) ==>
                    && db.outbox == (if delivered then old(db.outbox) + [Sms(db.users[customer].phoneNumber.value, DecisionNotice(message))]
                                     else old(db.outbox))
                    && reply == (if delivered then Ok else Fail(500, StatusNotNotified)))
    ensures db.users == old(db.users) && db.services == old(db.services)
    ensures db.listings == old(db.listings) && db.nextId == old(db.nextId)
  {
    if !idValid || !IsDecision(message) {
      return Invalid;
    }
    if bookingId !in db.bookings {
      return Fail(404, BookingNotFound);
    }
    var booking := db.bookings[bookingId];
    if message == "Accepted" {
      booking := booking.(status := Confirmed);
    } else if message == "Rejected" {
      booking := booking.(status := Closed);
    }
    db.SaveBooking(bookingId, booking);
    if booking.userId !in db.users {
      // `booking.userId` populated to null: destructuring it throws
      return Fail(500, StatusNotNotified);
    }
    var customer := db.users[booking.userId];
    if !HasPhone(customer) {
      return Fail(400, NoPhoneNumber);
    }
    var sent := db.SendSms(customer.phoneNumber.value, DecisionNotice(message), delivered);
    if !sent {
      return Fail(500, StatusNotNotified);
    }
    reply := Ok;
  }

  /** GET `/mybooking/:id`: exactly the user's bookings; none at all is a 404. */
  method MyBookings(db: Database, userId: Id) returns (reply: Reply, found: map<Id, Booking>)
    ensures forall id :: id in found <==> id in db.bookings && db.bookings[id].userId == userId
    ensures forall id :: id in found ==> found[id] == db.bookings[id]
    ensures reply == if found == map[] then Fail(404, NoBookingsForUser) else Ok
  {
    found := BookingsOfUser(db.bookings, userId);
    if found == map[] {
      return Fail(404, NoBookingsForUser), found;
    }
    reply := Ok;
  }

  /**
   * GET `/requestedbooking/:id`: the bookings of every listing the worker
   * owns; a worker without listings, or without bookings, gets a 404.
   */
  method RequestedBookings(db: Database, workerId: Id) returns (reply: Reply, found: map<Id, Booking>)
    ensures ListingsOfWorker(db.listings, workerId) == {} ==>
              reply == Fail(404, NoListingsForWorker) && found == map[]
    ensures ListingsOfWorker(db.listings, workerId) != {} ==>
              && (forall id :: id in found <==>
                    (id in db.bookings && db.bookings[id].serviceProviderId in db.listings
                     && db.listings[db.bookings[id].serviceProviderId].userId == workerId))
              && (forall id :: id in found ==> found[id] == db.bookings[id])
              && reply == if found == map[] then Fail(404, NoBookingsForListings) else Ok
  {
    var mine := ListingsOfWorker(db.listings, workerId);
    if mine == {} {
      return Fail(404, NoListingsForWorker), map[];
    }
    found := BookingsOfListings(db.bookings, mine);
    if found == map[] {
      return Fail(404, NoBookingsForListings), found;
    }
    reply := Ok;
  }

  /** The first half of the lifecycle: the customer books and the worker accepts. */
  method BookAndAccept(db: Database, customer: Id, listingId: Id, bookingDate: int) returns (id: Id)
    requires db.Valid()
    requires listingId in db.listings && db.listings[listingId].userId in db.users
    requires customer in db.users
    modifies db
    ensures db.Valid() && db.users == old(db.users)
    ensures id in db.bookings && id !in old(db.bookings)
    ensures db.bookings[id].status == Confirmed
    ensures db.bookings[id].userId == customer && db.bookings[id].serviceProviderId == listingId
    ensures forall other :: other in old(db.bookings) ==> other in db.bookings && db.bookings[other] == old(db.bookings[other])
  {
    var reply, created := CreateBooking(db, customer, listingId, bookingDate, true, true);
    id := created.value;
    reply := Notify(db, id, true, "Accepted", true);
  }

  /** The second half: the worker uploads both proofs and the customer's code closes the booking. */
  method CompleteAndClose(db: Database, id: Id, code: int)
    requires db.Valid() && 100000 <= code <= 999999
    requires id in db.bookings && db.bookings[id].userId in db.users && HasPhone(db.users[db.bookings[id].userId])
    modifies db
    ensures db.Valid()
    ensures id in db.bookings
    ensures db.bookings[id].status == Closed && db.bookings[id].otp == Cleared
    ensures db.bookings[id].userId == old(db.bookings[id].userId)
    ensures db.bookings[id].serviceProviderId == old(db.bookings[id].serviceProviderId)
    ensures db.bookings[id].beforeWorking.Some? && db.bookings[id].afterWorking.Some?
    ensures forall other :: other in old(db.bookings) && other != id ==>
              other in db.bookings && db.bookings[other] == old(db.bookings[other])
    ensures !OtpMatches(db.bookings[id].otp, JNumber(code))
  {
    var reply := AttachProof(db, id, true, Multipart(Some("uploads/before"), Some("uploads/after")), code, true);
    assert db.bookings[id].otp == IssuedOtp(code);
    IssuedCodeMatchesOnlyItself(code, code);
    reply := VerifyOtp(db, id, JNumber(code));
    assert reply == Ok;
    ClearedRejectsEveryCode(code);
  }

  /**
   * The whole lifecycle with every message delivered: the customer books,
   * the worker accepts, uploads both proofs, and the customer's code closes
   * the booking; the code cannot be used a second time.
   */
  method BookingLifecycle(db: Database, customer: Id, listingId: Id, bookingDate: int, code: int)
    returns (id: Id)
    requires db.Valid() && 100000 <= code <= 999999
    requires listingId in db.listings && db.listings[listingId].userId in db.users
    requires customer in db.users && HasPhone(db.users[customer])
    modifies db
    ensures db.Valid()
    ensures id in db.bookings && id !in old(db.bookings)
    ensures db.bookings[id].status == Closed && db.bookings[id].otp == Cleared
    ensures db.bookings[id].userId == customer && db.bookings[id].serviceProviderId == listingId
    ensures db.bookings[id].beforeWorking.Some? && db.bookings[id].afterWorking.Some?
    ensures forall other :: other in old(db.bookings) ==> other in db.bookings && db.bookings[other] == old(db.bookings[other])
    ensures !OtpMatches(db.bookings[id].otp, JNumber(code))
  {
    id := BookAndAccept(db, customer, listingId, bookingDate);
    CompleteAndClose(db, id, code);
  }
}
