/**
 * A booking as the client receives it from the booking routes, with the
 * populated customer and listing fields the pages read.
 */
module BookingCards {
  import opened Catalog
  import opened BookingModel

  datatype Card = Card(
    id: Id,
    /** The status text as stored, e.g. "Pending". */
    status: string,
    /** `booking.userId.name`, the customer. */
    customerName: string,
    /** `booking.serviceProviderId.userId.name`, the worker. */
    providerName: string,
    /** `booking.serviceProviderId.serviceName`. */
    serviceName: string,
    /** `new Date(booking.bookingDate)` as milliseconds since the epoch. */
    bookingDate: int,
    /** `booking.serviceProviderId.rating`, the listing's mean. */
    providerRating: real)

  /** The card of a booking in a given status, as the server would name it. */
  predicate ShowsStatus(c: Card, s: BookingStatus) {
    c.status == StatusName(s)
  }
}
