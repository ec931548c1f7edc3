/** The booking document (CapstoneBackend/models/Booking.js). */
module BookingModel {
  import opened Wrappers
  import opened Catalog

  /** The schema's status enum. */
  datatype BookingStatus = Pending | Confirmed | Completed | Closed

  /** The string the API stores and sends for a status. */
  function StatusName(s: BookingStatus): string {
    match s
    case Pending => "Pending"
    case Confirmed => "Confirmed"
    case Completed => "Completed"
    case Closed => "Closed"
  }

  lemma StatusNameInjective(a: BookingStatus, b: BookingStatus)
    ensures StatusName(a) == StatusName(b) <==> a == b
  {
    if a != b {
      assert StatusName(a)[..3] != StatusName(b)[..3] || StatusName(a)[3] != StatusName(b)[3];
    }
  }

  /**
   * The `otp` path, a String. `Unset` is a path never assigned (it reads as
   * `undefined`), `Cleared` one assigned `null`, `Code` one holding text.
   */
  datatype StoredOtp = Unset | Cleared | Code(text: string)

  datatype Booking = Booking(
    userId: Id,
    serviceProviderId: Id,
    bookingDate: int,
    status: BookingStatus,
    beforeWorking: Option<string>,
    afterWorking: Option<string>,
    otp: StoredOtp,
    rating: real,
    totalRatingScore: real,
    numberOfRatings: nat)

  /** The schema's `min: 0, max: 5` on `rating`. */
  predicate InRatingRange(r: real) {
    0.0 <= r <= 5.0
  }

  /** What schema validation admits on save. */
  predicate WellFormed(b: Booking) {
    InRatingRange(b.rating)
  }

  /**
   * `new Booking({ userId, serviceProviderId, bookingDate })`: the three
   * required fields as given, every other field at its schema default.
   */
  function NewBooking(userId: Id, serviceProviderId: Id, bookingDate: int): (b: Booking)
    ensures b.userId == userId && b.serviceProviderId == serviceProviderId && b.bookingDate == bookingDate
    ensures b.status == Pending && b.rating == 0.0
    ensures b.totalRatingScore == 0.0 && b.numberOfRatings == 0
    ensures b.otp == Unset && b.beforeWorking == None && b.afterWorking == None
    ensures WellFormed(b)
  {
    Booking(userId, serviceProviderId, bookingDate, Pending, None, None, Unset, 0.0, 0.0, 0)
  }

  /** `a` and `b` agree on every field except `rating`. */
  predicate SameExceptRating(a: Booking, b: Booking) {
    && a.userId == b.userId && a.serviceProviderId == b.serviceProviderId
    && a.bookingDate == b.bookingDate && a.status == b.status
    && a.beforeWorking == b.beforeWorking && a.afterWorking == b.afterWorking
    && a.otp == b.otp && a.totalRatingScore == b.totalRatingScore
    && a.numberOfRatings == b.numberOfRatings
  }

  /**
   * `updateRating(rating)`: assign `rating`, then save. The save is refused
   * (None) when the value breaks the schema's bounds.
   */
  function UpdateRating(b: Booking, rating: real): (res: Option<Booking>)
    ensures res.Some? <==> InRatingRange(rating)
    ensures res.Some? ==> res.value.rating == rating && SameExceptRating(b, res.value)
    ensures res.Some? ==> WellFormed(res.value)
  {
    if InRatingRange(rating) then Some(b.(rating := rating)) else None
  }

  /** The rate route's gate: `Confirmed`, `Completed` or `Closed`. */
  predicate Ratable(s: BookingStatus) {
    s == Confirmed || s == Completed || s == Closed
  }

  /** Only a `Pending` booking cannot be rated. */
  lemma RatableIffNotPending(s: BookingStatus)
    ensures Ratable(s) <==> s != Pending
  {
  }
}
