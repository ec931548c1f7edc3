/**
 * The user and catalog-service documents, as far as the booking core reads
 * them (CapstoneBackend/models/User.js and models/Service.js).
 */
module Catalog {
  import opened Wrappers

  /** A document id (a MongoDB ObjectId). */
  type Id = nat

  /** The user schema's role enum: 'user' (a customer), 'worker', 'admin'. */
  datatype Role = User | Worker | Admin

  datatype Account = Account(phoneNumber: Option<string>, role: Role)

  /** `if (phoneNumber)`: a phone number that is present and not empty. */
  predicate HasPhone(a: Account) {
    a.phoneNumber.Some? && a.phoneNumber.value != ""
  }

  /** A catalog service. Its rating fields are declared but never maintained. */
  datatype Service = Service(
    categoryId: Id,
    serviceProviderId: seq<Id>,
    serviceProviderEmail: Option<string>,
    serviceName: string,
    price: Option<string>,
    description: Option<string>,
    rating: real,
    totalRatingScore: real,
    numberOfRatings: nat)
}
