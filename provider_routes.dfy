/**
 * The provider listing routes (CapstoneBackend/routes/ServiceProvidersRoutes.js):
 * a worker offers a catalog service as a listing, customers rate it, and
 * the owner may delete it.
 */
module ProviderRoutes {
  import opened Wrappers
  import opened Catalog
  import opened BookingModel
  import opened ProviderModel
  import opened Store
  import opened AuthMiddleware
  import Lists

  /** The error messages the routes send, word for word. */
  const OnlyWorkersAdd := "Access denied. Only workers can add service providers."
  const OnlyWorkersDelete := "Access denied. Only workers can delete service providers."
  const UnknownServiceId := "Invalid serviceId. The specified service does not exist."
  const ListingNotFound := "Service provider not found."
  const RatedListingNotFound := "ServiceProvider not found"
  const ServiceNameRequired := "ServiceProvider validation failed: serviceName: Path `serviceName` is required."
  const NotListingOwner := "You are not authorized to delete this service provider."

  /** `req.user.role !== 'worker'` fails for any other role and for a token without one. */
  predicate IsWorker(principal: Claims) {
    principal.role == Some(Worker)
  }

  /** The listings of one catalog service (`ServiceProvider.find({ serviceId })`). */
  function ListingsOfService(listings: map<Id, Listing>, serviceId: Id): map<Id, Listing> {
    Lists.Select(listings, (l: Listing) => l.serviceId == serviceId)
  }

  /**
   * POST `/:serviceId/service-providers`: the role is checked first, then
   * the service; the body's validators are declared but never consulted,
   * so only the schema's `required` on `serviceName` can still refuse it.
   * The new listing belongs to the caller, whatever the body says.
   */
  method CreateListing(db: Database, principal: Claims, serviceId: Id, serviceProviderEmail: Option<string>,
                       serviceName: Option<string>, price: Option<string>, description: Option<string>)
    returns (reply: Reply, created: Option<Id>)
    requires db.Valid()
    modifies db`listings, db`nextId
    ensures db.Valid()
    ensures !IsWorker(principal) ==>
              reply == Fail(403, OnlyWorkersAdd) && created == None && unchanged(db`listings, db`nextId)
    ensures IsWorker(principal) && serviceId !in old(db.services) ==>
              reply == Fail(400, UnknownServiceId) && created == None && unchanged(db`listings, db`nextId)
    ensures IsWorker(principal) && serviceId in old(db.services) && (serviceName.None? || serviceName.value == "") ==>
              reply == Fail(400, ServiceNameRequired)
              && created == None && unchanged(db`listings, db`nextId)
    ensures IsWorker(principal) && serviceId in old(db.services) && serviceName.Some? && serviceName.value != "" ==>
              && reply == Created && created == Some(old(db.nextId))
              && old(db.nextId) !in old(db.listings)
              && db.listings == old(db.listings)[old(db.nextId) := NewListing(serviceProviderEmail, serviceId, principal.id,
                                                                               serviceName.value, price, description)]
              && db.nextId == old(db.nextId) + 1
  {
    if !IsWorker(principal) {
      return Fail(403, OnlyWorkersAdd), None;
    }
    if serviceId !in db.services {
      return Fail(400, UnknownServiceId), None;
    }
    if serviceName.None? || serviceName.value == "" {
      return Fail(400, ServiceNameRequired), None;
    }
    var listing := NewListing(serviceProviderEmail, serviceId, principal.id, serviceName.value, price, description);
    assert RatingConsistent(listing);
    var id := db.NewId();
    db.SaveListing(id, listing);
    reply, created := Created, Some(id);
  }

  /** GET `/:serviceId/service-providers`: always 200, possibly with none. */
  method GetListings(db: Database, serviceId: Id) returns (reply: Reply, found: map<Id, Listing>)
    ensures reply == Ok
    ensures forall id :: id in found <==> id in db.listings && db.listings[id].serviceId == serviceId
    ensures forall id :: id in found ==> found[id] == db.listings[id]
  {
    reply, found := Ok, ListingsOfService(db.listings, serviceId);
  }

  /**
   * GET `/:serviceId/service-providers/:providerId`: an unknown service is
   * 400; a listing that exists under another service is 404 like a missing one.
   */
  method GetListing(db: Database, serviceId: Id, providerId: Id) returns (reply: Reply, found: Option<Listing>)
    ensures serviceId !in db.services ==>
              reply == Fail(400, UnknownServiceId) && found == None
    ensures serviceId in db.services ==>
              if providerId in db.listings && db.listings[providerId].serviceId == serviceId
              then reply == Ok && found == Some(db.listings[providerId])
              else reply == Fail(404, ListingNotFound) && found == None
  {
    if serviceId !in db.services {
      return Fail(400, UnknownServiceId), None;
    }
    if providerId !in db.listings || db.listings[providerId].serviceId != serviceId {
      return Fail(404, ListingNotFound), None;
    }
    reply, found := Ok, Some(db.listings[providerId]);
  }

  /**
   * DELETE `/:serviceId/deleteprovider/:id`: role, then service, then the
   * listing under that service, then ownership; only the owning worker
   * removes it.
   */
  method DeleteListing(db: Database, principal: Claims, serviceId: Id, id: Id) returns (reply: Reply)
    requires db.Valid()
    modifies db`listings
    ensures db.Valid()
    ensures !IsWorker(principal) ==>
              reply == Fail(403, OnlyWorkersDelete) && unchanged(db)
    ensures IsWorker(principal) && serviceId !in db.services ==>
              reply == Fail(400, UnknownServiceId) && unchanged(db)
    ensures IsWorker(principal) && serviceId in db.services
            && !(id in old(db.listings) && old(db.listings[id].serviceId) == serviceId) ==>
              reply == Fail(404, ListingNotFound) && unchanged(db)
    ensures IsWorker(principal) && serviceId in db.services
            && id in old(db.listings) && old(db.listings[id].serviceId) == serviceId ==>
              if old(db.listings[id].userId) != principal.id
              then reply == Fail(403, NotListingOwner) && unchanged(db)
              else reply == Ok && db.listings == old(db.listings) - {id}
  {
    if !IsWorker(principal) {
      return Fail(403, OnlyWorkersDelete);
    }
    if serviceId !in db.services {
      return Fail(400, UnknownServiceId);
    }
    if id !in db.listings || db.listings[id].serviceId != serviceId {
      return Fail(404, ListingNotFound);
    }
    if db.listings[id].userId != principal.id {
      return Fail(403, NotListingOwner);
    }
    db.listings := db.listings - {id};
    reply := Ok;
  }

  /**
   * POST `/:id/rate`: a rating in [0, 5] is folded into the listing's
   * running total, count and mean; no login is needed and nothing limits
   * how often one customer rates.
   */
  method RateListing(db: Database, id: Id, idValid: bool, rating: real) returns (reply: Reply)
    requires db.Valid()
    modifies db`listings
    ensures db.Valid()
    ensures !(idValid && InRatingRange(rating)) ==> reply == Invalid && unchanged(db)
    ensures idValid && InRatingRange(rating) && id !in old(db.listings) ==>
              reply == Fail(404, RatedListingNotFound) && unchanged(db)
    ensures idValid && InRatingRange(rating) && id in old(db.listings) ==>
              reply == Ok && db.listings == old(db.listings)[id := Rated(old(db.listings[id]), rating)]
  {
    if !idValid || !InRatingRange(rating) {
      return Invalid;
    }
    if id !in db.listings {
      return Fail(404, RatedListingNotFound);
    }
    db.UpdateAverageRating(id, rating);
    reply := Ok;
  }

  /** GET `/:id/rate`: the listing's mean rating. */
  method GetListingRating(db: Database, id: Id) returns (reply: Reply, rating: Option<real>)
    requires db.Valid()
    ensures id !in db.listings ==> reply == Fail(404, RatedListingNotFound) && rating == None
    ensures id in db.listings ==> reply == Ok && rating == Some(db.listings[id].rating) && InRatingRange(rating.value)
  {
    if id !in db.listings {
      return Fail(404, RatedListingNotFound), None;
    }
    reply, rating := Ok, Some(db.listings[id].rating);
  }
}
