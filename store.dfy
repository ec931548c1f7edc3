/**
 * The document store the route handlers read and write, the outgoing SMS
 * the handlers send, and the replies they give.
 */
module Store {
  import opened Wrappers
  import opened Catalog
  import opened BookingModel
  import opened ProviderModel

  /**
   * An HTTP reply: 200, 201, the 400 carrying the request validator's
   * `errors` list, or an error status with its `error` message.
   */
  datatype Reply = Ok | Created | Invalid | Fail(code: nat, error: string) {
    function StatusCode(): nat {
      match this
      case Ok => 200
      case Created => 201
      case Invalid => 400
      case Fail(c, _) => c
    }
  }

  /** What an outgoing text message says. */
  datatype SmsBody =
    | NewAssignment(bookingId: Id)
    | OtpWithFeedbackLink(otp: int, bookingId: Id)
    | OtpOnly(otp: int)
    | DecisionNotice(message: string)

  datatype Sms = Sms(to: string, body: SmsBody)

  class Database {
    var users: map<Id, Account>
    var services: map<Id, Service>
    var listings: map<Id, Listing>
    var bookings: map<Id, Booking>
    /** The messages the SMS provider accepted, oldest first. */
    var outbox: seq<Sms>
    /** Ids from here on have not been handed out. */
    var nextId: Id

    /**
     * Every stored id was handed out before `nextId`, every booking passes
     * the schema's bounds, and every listing's rating fields are consistent.
     */
    ghost predicate Valid()
      reads this
    {
      && (forall id :: id in services ==> id < nextId)
      && (forall id :: id in listings ==> id < nextId)
      && (forall id :: id in bookings ==> id < nextId)
      && (forall id :: id in bookings ==> WellFormed(bookings[id]))
      && (forall id :: id in listings ==> RatingConsistent(listings[id]))
    }

    /** An empty store in front of an existing set of user accounts. */
    constructor (accounts: map<Id, Account>)
      ensures Valid()
      ensures users == accounts && services == map[] && listings == map[] && bookings == map[]
      ensures outbox == []
    {
      users, services, listings, bookings := accounts, map[], map[], map[];
      outbox, nextId := [], 0;
    }

    /** A new, never used document id. */
    method NewId() returns (id: Id)
      requires Valid()
      modifies this`nextId
      ensures Valid()
      ensures id == old(nextId) && nextId == id + 1
      ensures id !in services && id !in listings && id !in bookings
    {
      id := nextId;
      nextId := nextId + 1;
    }

    /** `booking.save()`: the booking under `id` becomes `b`. */
    method SaveBooking(id: Id, b: Booking)
      requires Valid() && id < nextId && WellFormed(b)
      modifies this`bookings
      ensures Valid()
      ensures bookings == old(bookings)[id := b]
    {
      bookings := bookings[id := b];
    }

    /** `serviceProvider.save()`: the listing under `id` becomes `l`. */
    method SaveListing(id: Id, l: Listing)
      requires Valid() && id < nextId && RatingConsistent(l)
      modifies this`listings
      ensures Valid()
      ensures listings == old(listings)[id := l]
    {
      listings := listings[id := l];
    }

    /** `service.save()`: the service under `id` becomes `s`. */
    method SaveService(id: Id, s: Service)
      requires Valid() && id < nextId
      modifies this`services
      ensures Valid()
      ensures services == old(services)[id := s]
    {
      services := services[id := s];
    }

    /**
     * `client.messages.create(...)`. `delivered` is the provider's answer; a
     * refused message is reported as `false` and leaves the outbox as it was.
     */
    method SendSms(to: string, body: SmsBody, delivered: bool) returns (sent: bool)
      modifies this`outbox
      ensures sent == delivered
      ensures outbox == if delivered then old(outbox) + [Sms(to, body)] else old(outbox)
    {
      sent := delivered;
      if delivered {
        outbox := outbox + [Sms(to, body)];
      }
    }

    /**
     * `updateAverageRating(newRating)` on the listing `id`: the total, then
     * the count, then the quotient are assigned, and the document is saved.
     */
    method UpdateAverageRating(id: Id, newRating: real)
      requires Valid() && id in listings && InRatingRange(newRating)
      modifies this`listings
      ensures Valid()
      ensures listings == old(listings)[id := Rated(old(listings[id]), newRating)]
      ensures listings[id].numberOfRatings == old(listings[id].numberOfRatings) + 1
      ensures listings[id].totalRatingScore == old(listings[id].totalRatingScore) + newRating
      ensures listings[id].rating == listings[id].totalRatingScore / (listings[id].numberOfRatings as real)
      ensures SameExceptRatingFields(old(listings[id]), listings[id])
    {
      var doc := listings[id];
      RatedPreservesConsistency(doc, newRating);
      doc := doc.(totalRatingScore := doc.totalRatingScore + newRating);
      doc := doc.(numberOfRatings := doc.numberOfRatings + 1);
      doc := doc.(rating := doc.totalRatingScore / (doc.numberOfRatings as real));
      listings := listings[id := doc];
    }
  }
}
