/** The service routes: a worker publishes a listing in their own category,
    anyone browses the listings, and the owning worker patches or removes one. */
module Services {
  import opened Common
  import opened Models
  import Text
  import opened Database

  /** The body of an update request; a field is `None` when the body lacks it. */
  datatype ServicePatch = ServicePatch(
    title: Option<string>,
    description: Option<string>,
    price: Option<real>,
    isAvailable: Option<bool>)

  /** POST /: the calling worker publishes a service. Its owner is the
      caller's profile and its category is the profile's, whatever the body
      says; the schema refuses a missing field or an empty title or
      description. */
  method Create(st: Store, me: Id, title: Option<string>, description: Option<string>, price: Option<real>)
    returns (r: Result<Id>)
    requires st.Valid() && me in st.users
    modifies st
    ensures st.Valid()
    ensures unchanged(st`users, st`workers, st`bookings)
    ensures st.users[me].role != WorkerRole ==> r == Err(WrongRole)
    ensures st.users[me].role == WorkerRole && ProfileOf(st.workers, me).None? ==> r == Err(NoWorkerProfile)
    ensures (st.users[me].role == WorkerRole && ProfileOf(st.workers, me).Some?
              && !(title.Some? && description.Some? && price.Some?
                   && Text.Trim(title.value) != "" && description.value != "")) ==> r == Err(ValidationFailed)
    ensures r.Ok? <==> (st.users[me].role == WorkerRole && ProfileOf(st.workers, me).Some?
              && title.Some? && description.Some? && price.Some?
              && Text.Trim(title.value) != "" && description.value != "")
    ensures r.Err? ==> unchanged(st)
    ensures r.Ok? ==> (
              var owner := ProfileOf(st.workers, me).value;
              && r.value !in old(st.services)
              && st.services == old(st.services)[r.value := NewService(owner, title.value, description.value,
                                                                       st.workers[owner].serviceType, price.value)]
              && st.services[r.value].worker == owner
              && st.services[r.value].serviceType == st.workers[owner].serviceType
              && st.services[r.value].isAvailable)
  {
    if st.users[me].role != WorkerRole {
      return Err(WrongRole);
    }
    var profile := ProfileOf(st.workers, me);
    if profile.None? {
      return Err(NoWorkerProfile);
    }
    var worker := st.workers[profile.value];
    if title.None? || description.None? || price.None? {
      return Err(ValidationFailed);
    }
    var service := NewService(profile.value, title.value, description.value, worker.serviceType, price.value);
    if !ServiceValid(service) {
      return Err(ValidationFailed);
    }
    var id := st.FreshId();
    st.SaveService(id, service);
    return Ok(id);
  }

  /** GET /: every service, or with a truthy `serviceType` query exactly the
      services of the category so named (none for a name outside the enum). */
  function Catalog(services: map<Id, Service>, serviceType: Option<string>): (r: map<Id, Service>)
    ensures !TruthyText(serviceType) ==> r == services
    ensures TruthyText(serviceType) ==> forall id :: id in r <==>
              id in services && ParseServiceType(serviceType.value) == Some(services[id].serviceType)
    ensures forall id :: id in r ==> id in services && r[id] == services[id]
  {
    ParseServiceTypeNames();
    if TruthyText(serviceType) then
      map id | id in services && ServiceTypeName(services[id].serviceType) == serviceType.value :: services[id]
    else
      services
  }

  /** Filtering by a category's own name gives exactly that category. */
  lemma CatalogOfType(services: map<Id, Service>, t: ServiceType)
    ensures Catalog(services, Some(ServiceTypeName(t)))
            == map id | id in services && services[id].serviceType == t :: services[id]
  {
    ParseServiceTypeName(t);
    var r := Catalog(services, Some(ServiceTypeName(t)));
    var e := map id | id in services && services[id].serviceType == t :: services[id];
    assert r.Keys == e.Keys;
  }

  /** GET /:id: the service, or "Service not found". */
  function Find(services: map<Id, Service>, id: Id): (r: Result<Service>)
    ensures r.Ok? <==> id in services
    ensures r.Ok? ==> r.value == services[id]
    ensures r.Err? ==> r.error == NoService
  {
    if id in services then Ok(services[id]) else Err(NoService)
  }

  /** The field assignments of the update route, with the schema's `trim`
      setter applied to a new title. Owner and category are not patchable. */
  function ApplyPatch(s: Service, patch: ServicePatch): (s': Service)
    ensures s'.worker == s.worker && s'.serviceType == s.serviceType
    ensures s'.title == (if TruthyText(patch.title) then Text.Trim(patch.title.value) else s.title)
    ensures s'.description == (if TruthyText(patch.description) then patch.description.value else s.description)
    ensures s'.price == (if TruthyNumber(patch.price) then patch.price.value else s.price)
    ensures s'.isAvailable == (if patch.isAvailable.Some? then patch.isAvailable.value else s.isAvailable)
  {
    var s1 := if TruthyText(patch.title) then s.(title := Text.Trim(patch.title.value)) else s;
    var s2 := if TruthyText(patch.description) then s1.(description := patch.description.value) else s1;
    var s3 := if TruthyNumber(patch.price) then s2.(price := patch.price.value) else s2;
    if patch.isAvailable.Some? then s3.(isAvailable := patch.isAvailable.value) else s3
  }

  /** An empty body changes nothing. */
  lemma EmptyPatch(s: Service)
    ensures ApplyPatch(s, ServicePatch(None, None, None, None)) == s
  {
  }

  /** Sending the same body twice has the effect of sending it once. */
  lemma PatchIdempotent(s: Service, patch: ServicePatch)
    ensures ApplyPatch(ApplyPatch(s, patch), patch) == ApplyPatch(s, patch)
  {
    if TruthyText(patch.title) {
      Text.TrimIdempotent(patch.title.value);
    }
  }

  /** Patching a valid service yields a valid one exactly when the body
      does not bring a title made of white space only. */
  lemma PatchValidity(s: Service, patch: ServicePatch)
    requires ServiceValid(s)
    ensures ServiceValid(ApplyPatch(s, patch)) <==> !(TruthyText(patch.title) && Text.Trim(patch.title.value) == "")
  {
    if TruthyText(patch.title) {
      Text.TrimIdempotent(patch.title.value);
    }
  }

  /** PUT /:id: the owning worker patches a service. Falsy title, description
      and price are skipped; `isAvailable` is applied whenever the body has
      it, `false` included; owner and category never change. A title that
      trims to nothing makes the save fail and nothing is stored. */
  method Update(st: Store, me: Id, serviceId: Id, patch: ServicePatch) returns (r: Result<Service>)
    requires st.Valid() && me in st.users
    modifies st
    ensures st.Valid()
    ensures unchanged(st`users, st`workers, st`bookings, st`nextId)
    ensures st.users[me].role != WorkerRole ==> r == Err(WrongRole)
    ensures st.users[me].role == WorkerRole && ProfileOf(st.workers, me).None? ==> r == Err(NoWorkerProfile)
    ensures (st.users[me].role == WorkerRole && ProfileOf(st.workers, me).Some?
              && serviceId !in old(st.services)) ==> r == Err(NoService)
    ensures (st.users[me].role == WorkerRole && ProfileOf(st.workers, me).Some?
              && serviceId in old(st.services)
              && old(st.services)[serviceId].worker != ProfileOf(st.workers, me).value) ==> r == Err(NotOwner)
    ensures r.Ok? <==> (st.users[me].role == WorkerRole && ProfileOf(st.workers, me).Some?
              && serviceId in old(st.services)
              && old(st.services)[serviceId].worker == ProfileOf(st.workers, me).value
              && !(TruthyText(patch.title) && Text.Trim(patch.title.value) == ""))
    ensures (st.users[me].role == WorkerRole && ProfileOf(st.workers, me).Some?
              && serviceId in old(st.services)
              && old(st.services)[serviceId].worker == ProfileOf(st.workers, me).value
              && TruthyText(patch.title) && Text.Trim(patch.title.value) == "") ==> r == Err(ValidationFailed)
    ensures r.Err? ==> unchanged(st`services)
    ensures r.Ok? ==> (r.value == ApplyPatch(old(st.services)[serviceId], patch)
              && st.services == old(st.services)[serviceId := r.value])
  {
    if st.users[me].role != WorkerRole {
      return Err(WrongRole);
    }
    var profile := ProfileOf(st.workers, me);
    if profile.None? {
      return Err(NoWorkerProfile);
    }
    if serviceId !in st.services {
      return Err(NoService);
    }
    var service := st.services[serviceId];
    if service.worker != profile.value {
      return Err(NotOwner);
    }
    service := ApplyPatch(service, patch);
    PatchValidity(st.services[serviceId], patch);
    if !ServiceValid(service) {
      return Err(ValidationFailed);
    }
    st.SaveService(serviceId, service);
    return Ok(service);
  }

  /** DELETE /:id: the owning worker removes a service; nothing else goes. */
  method Delete(st: Store, me: Id, serviceId: Id) returns (r: Result<()>)
    requires st.Valid() && me in st.users
    modifies st
    ensures st.Valid()
    ensures unchanged(st`users, st`workers, st`bookings, st`nextId)
    ensures st.users[me].role != WorkerRole ==> r == Err(WrongRole)
    ensures st.users[me].role == WorkerRole && ProfileOf(st.workers, me).None? ==> r == Err(NoWorkerProfile)
    ensures (st.users[me].role == WorkerRole && ProfileOf(st.workers, me).Some?
              && serviceId !in old(st.services)) ==> r == Err(NoService)
    ensures (st.users[me].role == WorkerRole && ProfileOf(st.workers, me).Some?
              && serviceId in old(st.services)
              && old(st.services)[serviceId].worker != ProfileOf(st.workers, me).value) ==> r == Err(NotOwner)
    ensures r.Ok? <==> (st.users[me].role == WorkerRole && ProfileOf(st.workers, me).Some?
              && serviceId in old(st.services)
              && old(st.services)[serviceId].worker == ProfileOf(st.workers, me).value)
    ensures r.Err? ==> unchanged(st`services)
    ensures r.Ok? ==> st.services == old(st.services) - {serviceId}
  {
    if st.users[me].role != WorkerRole {
      return Err(WrongRole);
    }
    var profile := ProfileOf(st.workers, me);
    if profile.None? {
      return Err(NoWorkerProfile);
    }
    if serviceId !in st.services {
      return Err(NoService);
    }
    if st.services[serviceId].worker != profile.value {
      return Err(NotOwner);
    }
    st.RemoveService(serviceId);
    return Ok(());
  }

  /** Removal is not idempotent: after a successful delete, deleting again
      answers "Service not found", and so does reading it. */
  method DeleteTwice(st: Store, me: Id, serviceId: Id) returns (r1: Result<()>, r2: Result<()>, found: Result<Service>)
    requires st.Valid() && me in st.users
    modifies st
    ensures r1.Ok? ==> r2 == Err(NoService) && found == Err(NoService)
  {
    r1 := Delete(st, me, serviceId);
    r2 := Delete(st, me, serviceId);
    found := Find(st.services, serviceId);
  }
}
