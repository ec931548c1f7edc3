/**
 * The catalog service routes (CapstoneBackend/routes/Services.js): listing
 * by category, admin-only create and delete, and a partial update that
 * overwrites only the fields it is given.
 */
module ServiceRoutes {
  import opened Wrappers
  import opened Text
  import opened Catalog
  import opened Store
  import opened AuthMiddleware
  import Lists

  /** The error messages the routes send, word for word. */
  const OnlyAdminsCreate := "Access denied. Only admins can create services."
  const OnlyAdminsDelete := "Access denied. Only admins can delete services."
  const ServiceNotFound := "Service not found"

  /** `req.user.role !== 'admin'` fails for any other role and for a token without one. */
  predicate IsAdmin(principal: Claims) {
    principal.role == Some(Admin)
  }

  /** The services of one category (`Service.find({ categoryId })`). */
  function ServicesOfCategory(services: map<Id, Service>, categoryId: Id): map<Id, Service> {
    Lists.Select(services, (s: Service) => s.categoryId == categoryId)
  }

  /** `serviceName`: trimmed, not empty and at least 3 characters long. */
  predicate NameAccepted(serviceName: Option<string>) {
    serviceName.Some? && |Trim(serviceName.value)| >= 3
  }

  /** `description`: optional, and at most 1000 characters once trimmed. */
  predicate DescriptionAccepted(description: Option<string>) {
    description.None? || |Trim(description.value)| <= 1000
  }

  /**
   * The document `POST /services` saves: the validators' `trim()` has
   * already rewritten the name and the description, and the provider list
   * starts empty.
   */
  function NewService(categoryId: Id, serviceName: string, description: Option<string>): (s: Service)
    ensures s.categoryId == categoryId && s.serviceProviderId == []
    ensures s.serviceName == Trim(serviceName)
    ensures description.None? ==> s.description == None
    ensures description.Some? ==> s.description == Some(Trim(description.value))
    ensures s.serviceProviderEmail == None && s.price == None
    ensures s.rating == 0.0 && s.totalRatingScore == 0.0 && s.numberOfRatings == 0
  {
    var d := match description case None => None case Some(t) => Some(Trim(t));
    Service(categoryId, [], None, Trim(serviceName), None, d, 0.0, 0.0, 0)
  }

  /** A created service meets the name and description rules it was checked against. */
  lemma NewServiceMeetsRules(categoryId: Id, serviceName: string, description: Option<string>)
    requires NameAccepted(Some(serviceName)) && DescriptionAccepted(description)
    ensures var s := NewService(categoryId, serviceName, description);
            && |s.serviceName| >= 3 && !IsSpace(s.serviceName[0]) && !IsSpace(s.serviceName[|s.serviceName| - 1])
            && (s.description.Some? ==> |s.description.value| <= 1000)
  {
  }

  /** GET `/category/:categoryId`: exactly the services of that category. */
  method GetServicesOfCategory(db: Database, categoryId: Id, categoryIdValid: bool)
    returns (reply: Reply, found: map<Id, Service>)
    ensures !categoryIdValid ==> reply == Invalid && found == map[]
    ensures categoryIdValid ==>
              && reply == Ok
              && (forall id :: id in found <==> id in db.services && db.services[id].categoryId == categoryId)
              && (forall id :: id in found ==> found[id] == db.services[id])
  {
    if !categoryIdValid {
      return Invalid, map[];
    }
    reply, found := Ok, ServicesOfCategory(db.services, categoryId);
  }

  /**
   * POST `/services`: the admin check comes before the validation errors
   * are looked at; the category id must be well formed but is not looked up.
   */
  method CreateService(db: Database, principal: Claims, categoryId: Id, categoryIdValid: bool,
                       serviceName: Option<string>, description: Option<string>)
    returns (reply: Reply, created: Option<Id>)
    requires db.Valid()
    modifies db`services, db`nextId
    ensures db.Valid()
    ensures !IsAdmin(principal) ==>
              reply == Fail(403, OnlyAdminsCreate) && created == None && unchanged(db)
    ensures IsAdmin(principal) && !(categoryIdValid && NameAccepted(serviceName) && DescriptionAccepted(description)) ==>
              reply == Invalid && created == None && unchanged(db)
    ensures IsAdmin(principal) && categoryIdValid && NameAccepted(serviceName) && DescriptionAccepted(description) ==>
              && reply == Created && created == Some(old(db.nextId))
              && old(db.nextId) !in old(db.services)
              && db.services == old(db.services)[old(db.nextId) := NewService(categoryId, serviceName.value, description)]
              && db.nextId == old(db.nextId) + 1
  {
    if !IsAdmin(principal) {
      return Fail(403, OnlyAdminsCreate), None;
    }
    if !(categoryIdValid && NameAccepted(serviceName) && DescriptionAccepted(description)) {
      return Invalid, None;
    }
    var service := NewService(categoryId, serviceName.value, description);
    var id := db.NewId();
    db.SaveService(id, service);
    reply, created := Created, Some(id);
  }

  /** DELETE `/services/:id`: admin, then a well-formed id, then an existing service. */
  method DeleteService(db: Database, principal: Claims, id: Id, idValid: bool) returns (reply: Reply)
    requires db.Valid()
    modifies db`services
    ensures db.Valid()
    ensures !IsAdmin(principal) ==> reply == Fail(403, OnlyAdminsDelete) && unchanged(db)
    ensures IsAdmin(principal) && !idValid ==> reply == Invalid && unchanged(db)
    ensures IsAdmin(principal) && idValid && id !in old(db.services) ==>
              reply == Fail(404, ServiceNotFound) && unchanged(db)
    ensures IsAdmin(principal) && idValid && id in old(db.services) ==>
              reply == Ok && db.services == old(db.services) - {id}
  {
    if !IsAdmin(principal) {
      return Fail(403, OnlyAdminsDelete);
    }
    if !idValid {
      return Invalid;
    }
    if id !in db.services {
      return Fail(404, ServiceNotFound);
    }
    db.services := db.services - {id};
    reply := Ok;
  }

  /** The `priceRange` of an update body, as far as the validator sees it. */
  datatype PriceRange = Omitted | AnArray | NotAnArray

  /**
   * The update validators: a supplied name or description must not be
   * empty, a supplied `priceRange` must be an array.
   */
  predicate PatchAccepted(serviceName: Option<string>, description: Option<string>, priceRange: PriceRange) {
    && (serviceName.Some? ==> serviceName.value != "")
    && (description.Some? ==> description.value != "")
    && !priceRange.NotAnArray?
  }

  /** Two services that differ at most in name and description. */
  predicate SameExceptNameAndDescription(a: Service, b: Service) {
    && a.categoryId == b.categoryId && a.serviceProviderId == b.serviceProviderId
    && a.serviceProviderEmail == b.serviceProviderEmail && a.price == b.price
    && a.rating == b.rating && a.totalRatingScore == b.totalRatingScore
    && a.numberOfRatings == b.numberOfRatings
  }

  /**
   * `if (serviceName) service.serviceName = serviceName`, and the same for
   * the description: a supplied, non-empty value replaces the stored one.
   */
  function Patch(s: Service, serviceName: Option<string>, description: Option<string>): (r: Service)
    ensures SameExceptNameAndDescription(s, r)
    ensures r.serviceName == if serviceName.Some? && serviceName.value != "" then serviceName.value else s.serviceName
    ensures r.description == if description.Some? && description.value != "" then description else s.description
  {
    var r := if serviceName.Some? && serviceName.value != "" then s.(serviceName := serviceName.value) else s;
    if description.Some? && description.value != "" then r.(description := description) else r
  }

  /** The later of two updates of one field: the second if it supplies a value. */
  function Later(first: Option<string>, second: Option<string>): Option<string> {
    if second.Some? && second.value != "" then second else first
  }

  /** An update that supplies nothing changes nothing. */
  lemma PatchNothing(s: Service)
    ensures Patch(s, None, None) == s
  {
  }

  /** Two updates in a row are one update with the later value of each field. */
  lemma {:induction false} PatchTwice(s: Service, n1: Option<string>, d1: Option<string>,
                                      n2: Option<string>, d2: Option<string>)
    ensures Patch(Patch(s, n1, d1), n2, d2) == Patch(s, Later(n1, n2), Later(d1, d2))
  {
  }

  /** Repeating an update changes nothing more. */
  lemma PatchIdempotent(s: Service, n: Option<string>, d: Option<string>)
    ensures Patch(Patch(s, n, d), n, d) == Patch(s, n, d)
  {
    PatchTwice(s, n, d, n, d);
  }

  /**
   * PUT `/:id`: any authenticated caller may update. `priceRange` is
   * validated and assigned, but it is not a path of the service schema, so
   * the save drops it.
   */
  method UpdateService(db: Database, id: Id, serviceName: Option<string>, description: Option<string>,
                       priceRange: PriceRange)
    returns (reply: Reply, updated: Option<Service>)
    requires db.Valid()
    modifies db`services
    ensures db.Valid()
    ensures !PatchAccepted(serviceName, description, priceRange) ==> reply == Invalid && updated == None && unchanged(db)
    ensures PatchAccepted(serviceName, description, priceRange) && id !in old(db.services) ==>
              reply == Fail(404, ServiceNotFound) && updated == None && unchanged(db)
    ensures PatchAccepted(serviceName, description, priceRange) && id in old(db.services) ==>
              && reply == Ok
              && db.services == old(db.services)[id := Patch(old(db.services[id]), serviceName, description)]
              && updated == Some(db.services[id])
  {
    if !PatchAccepted(serviceName, description, priceRange) {
      return Invalid, None;
    }
    if id !in db.services {
      return Fail(404, ServiceNotFound), None;
    }
    var service := db.services[id];
    if serviceName.Some? && serviceName.value != "" {
      service := service.(serviceName := serviceName.value);
    }
    if description.Some? && description.value != "" {
      service := service.(description := description);
    }
    db.SaveService(id, service);
    reply, updated := Ok, Some(service);
  }
}
