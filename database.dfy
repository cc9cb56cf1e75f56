/** The document store the routes read and write: one table per collection,
    each a map from document id to record, and the source of fresh ids. */
module Database {
  import opened Common
  import opened Models
  import opened Reputation

  /** At most one worker profile per user, which makes
      `Worker.findOne({ user })` determined. */
  predicate UniqueProfiles(workers: map<Id, Worker>)
  {
    forall a, b :: a in workers && b in workers && workers[a].user == workers[b].user ==> a == b
  }

  /** Every worker profile points at a stored user. */
  predicate ProfilesLinked(workers: map<Id, Worker>, users: map<Id, User>)
  {
    forall w :: w in workers ==> workers[w].user in users
  }

  /** `Worker.findOne({ user: u })`: the id of the profile whose `user` is
      `u`, or nothing when no profile has it. */
  function ProfileOf(workers: map<Id, Worker>, u: Id): (p: Option<Id>)
    requires UniqueProfiles(workers)
    ensures p.Some? ==> p.value in workers && workers[p.value].user == u
    ensures p.None? ==> forall w :: w in workers ==> workers[w].user != u
  {
    if exists w :: w in workers && workers[w].user == u then
      var w :| w in workers && workers[w].user == u;
      Some(w)
    else
      None
  }

  /** Changing fields of a profile other than `user` keeps the answer of
      every `findOne({ user })`. */
  lemma ProfileOfStable(workers: map<Id, Worker>, id: Id, w: Worker, u: Id)
    requires UniqueProfiles(workers) && id in workers && workers[id].user == w.user
    ensures UniqueProfiles(workers[id := w])
    ensures ProfileOf(workers[id := w], u) == ProfileOf(workers, u)
  {
    var m := workers[id := w];
    var p, p' := ProfileOf(workers, u), ProfileOf(m, u);
    if p.Some? {
      assert p.value in m && m[p.value].user == u;
    }
  }

  class Store {
    var users: map<Id, User>
    var workers: map<Id, Worker>
    var services: map<Id, Service>
    var bookings: map<Id, Booking>
    /** Every id in use is below `nextId`. */
    var nextId: Id

    /** What every stored document satisfies: the schema's validation, the
        reputation invariant, one profile per user, and fresh ids above
        every id in use. */
    ghost predicate Valid()
      reads this
    {
      && (forall id :: id in users ==> id < nextId)
      && (forall id :: id in workers ==> id < nextId)
      && (forall id :: id in services ==> id < nextId)
      && (forall id :: id in bookings ==> id < nextId)
      && UniqueProfiles(workers)
      && ProfilesLinked(workers, users)
      && (forall w :: w in workers ==> WorkerValid(workers[w]))
      && (forall w :: w in workers ==> ReputationValid(workers[w].rating, workers[w].totalRatings))
      && (forall s :: s in services ==> ServiceValid(services[s]))
      && (forall b :: b in bookings ==> BookingValid(bookings[b]))
    }

    constructor ()
      ensures Valid()
      ensures users == map[] && workers == map[] && services == map[] && bookings == map[]
    {
      users, workers, services, bookings := map[], map[], map[], map[];
      nextId := 0;
    }

    /** Takes an id that no document uses yet. */
    method FreshId() returns (id: Id)
      requires Valid()
      modifies this`nextId
      ensures Valid()
      ensures id == old(nextId) && nextId == id + 1
      ensures id !in users && id !in workers && id !in services && id !in bookings
    {
      id := nextId;
      nextId := nextId + 1;
    }

    /** `booking.save()`: stores a booking the schema accepts under an id
        already handed out. */
    method SaveBooking(id: Id, b: Booking)
      requires Valid() && id < nextId && BookingValid(b)
      modifies this`bookings
      ensures Valid() && bookings == old(bookings)[id := b]
    {
      bookings := bookings[id := b];
    }

    /** `service.save()`: stores a service the schema accepts under an id
        already handed out. */
    method SaveService(id: Id, s: Service)
      requires Valid() && id < nextId && ServiceValid(s)
      modifies this`services
      ensures Valid() && services == old(services)[id := s]
    {
      services := services[id := s];
    }

    /** `service.remove()`. */
    method RemoveService(id: Id)
      requires Valid()
      modifies this`services
      ensures Valid() && services == old(services) - {id}
    {
      services := services - {id};
    }

    /** `worker.save()` on a stored profile whose `user` is unchanged and
        whose reputation stays valid. */
    method SaveWorker(id: Id, w: Worker)
      requires Valid() && id in workers && workers[id].user == w.user
      requires WorkerValid(w) && ReputationValid(w.rating, w.totalRatings)
      modifies this`workers
      ensures Valid() && workers == old(workers)[id := w]
      ensures forall u :: ProfileOf(workers, u) == ProfileOf(old(workers), u)
    {
      forall u ensures UniqueProfiles(workers[id := w]) && ProfileOf(workers[id := w], u) == ProfileOf(workers, u) {
        ProfileOfStable(workers, id, w, u);
      }
      ProfileOfStable(workers, id, w, w.user);
      workers := workers[id := w];
    }

    /** `user.save()` on a stored user; the role never changes. */
    method SaveUser(id: Id, u: User)
      requires Valid() && id in users && u.role == users[id].role
      modifies this`users
      ensures Valid() && users == old(users)[id := u]
      ensures users[id].role == old(users)[id].role
    {
      users := users[id := u];
    }
  }
}
