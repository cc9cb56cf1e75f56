/** The user routes: a caller patches their own user record and, when they
    are a worker, their worker profile; anyone reads their own record, the
    worker directory and a single worker's card. */
module Users {
  import opened Common
  import opened Models
  import opened Database

  /** The body of PUT /me; a field is `None` when the body lacks it. */
  datatype ProfilePatch = ProfilePatch(
    name: Option<string>,
    phone: Option<string>,
    location: Option<string>,
    address: Option<string>,
    serviceType: Option<string>,
    bio: Option<string>,
    experience: Option<string>)

  /** The assignments to the user record: truthy `name` and `phone` for
      everyone, a truthy `location` for clients only and a truthy `address`
      for workers only. Email and role are not patchable. */
  function PatchUser(u: User, patch: ProfilePatch): (u': User)
    ensures u'.email == u.email && u'.role == u.role
    ensures u'.name == (if TruthyText(patch.name) then patch.name.value else u.name)
    ensures u'.phone == (if TruthyText(patch.phone) then patch.phone.value else u.phone)
    ensures u'.location == (if u.role == ClientRole && TruthyText(patch.location) then patch.location else u.location)
    ensures u'.address == (if u.role == WorkerRole && TruthyText(patch.address) then patch.address else u.address)
  {
    var u1 := if TruthyText(patch.name) then u.(name := patch.name.value) else u;
    var u2 := if TruthyText(patch.phone) then u1.(phone := patch.phone.value) else u1;
    var u3 := if u.role == ClientRole && TruthyText(patch.location) then u2.(location := patch.location) else u2;
    if u.role == WorkerRole && TruthyText(patch.address) then u3.(address := patch.address) else u3
  }

  /** A client's address and a worker's location are never written. */
  lemma PatchUserKeepsOtherRolesField(u: User, patch: ProfilePatch)
    ensures u.role == ClientRole ==> PatchUser(u, patch).address == u.address
    ensures u.role == WorkerRole ==> PatchUser(u, patch).location == u.location
  {
  }

  /** Sending the same body twice has the effect of sending it once. */
  lemma PatchUserIdempotent(u: User, patch: ProfilePatch)
    ensures PatchUser(PatchUser(u, patch), patch) == PatchUser(u, patch)
  {
  }

  /** Whether the body asks for the worker profile to be touched at all. */
  predicate TouchesProfile(patch: ProfilePatch)
  {
    TruthyText(patch.serviceType) || TruthyText(patch.bio) || TruthyText(patch.experience)
  }

  /** The assignments to the worker profile: truthy `serviceType`, `bio` and
      `experience` only. The save refuses a category outside the enum; the
      reputation, verification flag, owner and document are never touched. */
  function PatchWorker(w: Worker, patch: ProfilePatch): (r: Result<Worker>)
    ensures r.Err? <==> TruthyText(patch.serviceType) && ParseServiceType(patch.serviceType.value).None?
    ensures r.Err? ==> r.error == ValidationFailed
    ensures r.Ok? ==> (
              && r.value.user == w.user && r.value.idDocument == w.idDocument
              && r.value.isVerified == w.isVerified
              && r.value.rating == w.rating && r.value.totalRatings == w.totalRatings
              && (TruthyText(patch.serviceType) ==> ServiceTypeName(r.value.serviceType) == patch.serviceType.value)
              && (!TruthyText(patch.serviceType) ==> r.value.serviceType == w.serviceType)
              && r.value.bio == (if TruthyText(patch.bio) then patch.bio.value else w.bio)
              && r.value.experience == (if TruthyText(patch.experience) then patch.experience.value else w.experience))
    ensures r.Ok? && WorkerValid(w) ==> WorkerValid(r.value)
  {
    var t := if TruthyText(patch.serviceType) then ParseServiceType(patch.serviceType.value) else Some(w.serviceType);
    if t.None? then
      Err(ValidationFailed)
    else
      var w1 := w.(serviceType := t.value);
      var w2 := if TruthyText(patch.bio) then w1.(bio := patch.bio.value) else w1;
      Ok(if TruthyText(patch.experience) then w2.(experience := patch.experience.value) else w2)
  }

  /** A body with none of the three profile fields changes nothing. */
  lemma PatchWorkerUntouched(w: Worker, patch: ProfilePatch)
    requires !TouchesProfile(patch)
    ensures PatchWorker(w, patch) == Ok(w)
  {
  }

  /** Sending the same body twice has the effect of sending it once. */
  lemma PatchWorkerIdempotent(w: Worker, patch: ProfilePatch)
    requires PatchWorker(w, patch).Ok?
    ensures PatchWorker(PatchWorker(w, patch).value, patch) == PatchWorker(w, patch)
  {
    if TruthyText(patch.serviceType) {
      var t := ParseServiceType(patch.serviceType.value).value;
      ParseServiceTypeName(t);
    }
  }

  /** PUT /me: the user record is patched and saved first; then, for a
      worker whose body touches the profile and who has one, the profile is
      patched and saved. A category outside the enum makes that second save
      fail after the first has happened. A worker without a profile gets a
      successful answer and no profile is created. */
  method UpdateMe(st: Store, me: Id, patch: ProfilePatch) returns (r: Result<()>)
    requires st.Valid() && me in st.users
    modifies st
    ensures st.Valid()
    ensures unchanged(st`services, st`bookings, st`nextId)
    ensures me in st.users && st.users == old(st.users)[me := PatchUser(old(st.users)[me], patch)]
    ensures r.Err? ==> r.error == ValidationFailed
    ensures r.Err? <==> (
              && old(st.users)[me].role == WorkerRole && TouchesProfile(patch)
              && ProfileOf(old(st.workers), me).Some?
              && TruthyText(patch.serviceType) && ParseServiceType(patch.serviceType.value).None?)
    ensures !(old(st.users)[me].role == WorkerRole && TouchesProfile(patch)) ==> unchanged(st`workers)
    ensures ProfileOf(old(st.workers), me).None? ==> unchanged(st`workers)
    ensures r.Err? ==> unchanged(st`workers)
    ensures (r.Ok? && old(st.users)[me].role == WorkerRole && TouchesProfile(patch)
             && ProfileOf(old(st.workers), me).Some?) ==> (
              var p := ProfileOf(old(st.workers), me).value;
              st.workers == old(st.workers)[p := PatchWorker(old(st.workers)[p], patch).value])
    ensures st.workers.Keys == old(st.workers).Keys
    ensures forall u :: ProfileOf(st.workers, u) == ProfileOf(old(st.workers), u)
    ensures forall id :: id in st.workers ==> (
              && st.workers[id].rating == old(st.workers)[id].rating
              && st.workers[id].totalRatings == old(st.workers)[id].totalRatings
              && st.workers[id].isVerified == old(st.workers)[id].isVerified)
  {
    var user := PatchUser(st.users[me], patch);
    st.SaveUser(me, user);
    if user.role == WorkerRole && TouchesProfile(patch) {
      var profile := ProfileOf(st.workers, me);
      if profile.Some? {
        var p := profile.value;
        var patched := PatchWorker(st.workers[p], patch);
        if patched.Err? {
          return Err(patched.error);
        }
        st.SaveWorker(p, patched.value);
      }
    }
    return Ok(());
  }

  // ------------------------------------------------------------ read side

  /** The `worker` block of GET /me. */
  datatype ProfileSummary = ProfileSummary(
    id: Id,
    serviceType: ServiceType,
    experience: string,
    bio: string,
    isVerified: bool,
    rating: real)

  /** The role-specific part of GET /me. */
  datatype MeExtra =
    | ClientExtra(location: Option<string>)
    | WorkerExtra(address: Option<string>, worker: Option<ProfileSummary>)

  datatype MeView = MeView(id: Id, name: string, email: string, phone: string, role: Role, extra: MeExtra)

  /** GET /me: the caller's own fields; a client's location; a worker's
      address and, when they have a profile, its summary. */
  function GetMe(users: map<Id, User>, workers: map<Id, Worker>, me: Id): (v: MeView)
    requires me in users && UniqueProfiles(workers)
    ensures v.id == me && v.name == users[me].name && v.email == users[me].email
    ensures v.phone == users[me].phone && v.role == users[me].role
    ensures v.extra.ClientExtra? <==> users[me].role == ClientRole
    ensures v.extra.ClientExtra? ==> v.extra.location == users[me].location
    ensures v.extra.WorkerExtra? ==> v.extra.address == users[me].address
    ensures v.extra.WorkerExtra? ==> (v.extra.worker.Some? <==> ProfileOf(workers, me).Some?)
    ensures v.extra.WorkerExtra? && v.extra.worker.Some? ==> (
              var s := v.extra.worker.value;
              && s.id in workers && workers[s.id].user == me
              && s.serviceType == workers[s.id].serviceType && s.experience == workers[s.id].experience
              && s.bio == workers[s.id].bio && s.isVerified == workers[s.id].isVerified
              && s.rating == workers[s.id].rating)
  {
    var u := users[me];
    var extra :=
      if u.role == ClientRole then
        ClientExtra(u.location)
      else
        var p := ProfileOf(workers, me);
        WorkerExtra(u.address,
          if p.None? then None
          else
            var w := workers[p.value];
            Some(ProfileSummary(p.value, w.serviceType, w.experience, w.bio, w.isVerified, w.rating)));
    MeView(me, u.name, u.email, u.phone, u.role, extra)
  }

  /** One entry of the worker directory: the profile joined with its
      user's name, phone and address. */
  datatype WorkerCard = WorkerCard(
    id: Id,
    name: string,
    phone: string,
    address: Option<string>,
    serviceType: ServiceType,
    experience: string,
    bio: string,
    isVerified: bool,
    rating: real,
    totalRatings: nat)

  function Card(workers: map<Id, Worker>, users: map<Id, User>, id: Id): (c: WorkerCard)
    requires id in workers && workers[id].user in users
    ensures c.id == id
    ensures c.name == users[workers[id].user].name && c.phone == users[workers[id].user].phone
    ensures c.address == users[workers[id].user].address
    ensures c.serviceType == workers[id].serviceType && c.experience == workers[id].experience
    ensures c.bio == workers[id].bio && c.isVerified == workers[id].isVerified
    ensures c.rating == workers[id].rating && c.totalRatings == workers[id].totalRatings
  {
    var w := workers[id];
    var u := users[w.user];
    WorkerCard(id, u.name, u.phone, u.address, w.serviceType, w.experience, w.bio, w.isVerified, w.rating, w.totalRatings)
  }

  /** GET /workers: the card of every worker, or with a truthy
      `serviceType` query exactly the workers of the category so named. */
  function Directory(workers: map<Id, Worker>, users: map<Id, User>, serviceType: Option<string>): (r: map<Id, WorkerCard>)
    requires ProfilesLinked(workers, users)
    ensures !TruthyText(serviceType) ==> r.Keys == workers.Keys
    ensures TruthyText(serviceType) ==> forall id :: id in r <==>
              id in workers && ParseServiceType(serviceType.value) == Some(workers[id].serviceType)
    ensures forall id :: id in r ==> id in workers && r[id] == Card(workers, users, id)
  {
    ParseServiceTypeNames();
    map id | id in workers && (!TruthyText(serviceType) || ServiceTypeName(workers[id].serviceType) == serviceType.value)
      :: Card(workers, users, id)
  }

  /** Filtering by a category's own name lists exactly that category. */
  lemma DirectoryOfType(workers: map<Id, Worker>, users: map<Id, User>, t: ServiceType)
    requires ProfilesLinked(workers, users)
    ensures Directory(workers, users, Some(ServiceTypeName(t))).Keys
            == set id | id in workers && workers[id].serviceType == t
  {
    ParseServiceTypeName(t);
  }

  /** GET /workers/:id: the worker's card, or "Worker not found". */
  function GetWorker(workers: map<Id, Worker>, users: map<Id, User>, id: Id): (r: Result<WorkerCard>)
    requires ProfilesLinked(workers, users)
    ensures r.Err? <==> id !in workers
    ensures r.Err? ==> r.error == NoWorker
    ensures r.Ok? ==> r.value == Card(workers, users, id) && r.value == Directory(workers, users, None)[id]
  {
    if id in workers then Ok(Card(workers, users, id)) else Err(NoWorker)
  }
}
