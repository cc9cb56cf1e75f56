/** The booking routes: a client books an available service, the owning
    worker sets the status, the owning client rates a completed booking once,
    and each side lists its bookings newest first. */
module Bookings {
  import opened Common
  import opened Models
  import opened Reputation
  import opened Database

  // ------------------------------------------------------------- statuses

  /** The route's allow-list for a requested status. Only the target is
      checked: the current status of the booking plays no part. */
  function ParseTarget(requested: string): (r: Option<Status>)
    ensures r.Some? ==> StatusName(r.value) == requested
    ensures r.Some? ==> r.value != Pending
  {
    if requested == "confirmed" then Some(Confirmed)
    else if requested == "completed" then Some(Completed)
    else if requested == "cancelled" then Some(Cancelled)
    else None
  }

  /** Every status but `pending` can be requested by its name. */
  lemma ParseTargetAccepts(t: Status)
    ensures ParseTarget(StatusName(t)) == (if t == Pending then None else Some(t))
  {
  }

  /** How the bookings table may change across any route: no booking
      disappears, only `status` and `rating` ever change, a booking that has
      left `pending` never returns to it, and a rating once set stays. */
  predicate Evolves(before: map<Id, Booking>, after: map<Id, Booking>)
  {
    forall id :: id in before ==>
      && id in after
      && after[id].(status := before[id].status, rating := before[id].rating) == before[id]
      && (after[id].status == Pending ==> before[id].status == Pending)
      && (IsRated(before[id]) ==> after[id].rating == before[id].rating)
  }

  lemma EvolvesTransitive(a: map<Id, Booking>, b: map<Id, Booking>, c: map<Id, Booking>)
    requires Evolves(a, b) && Evolves(b, c)
    ensures Evolves(a, c)
  {
  }

  // ------------------------------------------------------------- listings

  predicate AllListed(m: map<Id, Booking>, ids: seq<Id>)
  {
    forall k :: 0 <= k < |ids| ==> ids[k] in m
  }

  /** `.sort({ date: -1 })`: dates never increase along the listing. */
  predicate NewestFirst(m: map<Id, Booking>, ids: seq<Id>)
    requires AllListed(m, ids)
  {
    forall i, j :: 0 <= i < j < |ids| ==> m[ids[i]].date >= m[ids[j]].date
  }

  /** Puts `id` before the first booking of an earlier or equal date. */
  function InsertByDate(m: map<Id, Booking>, id: Id, ids: seq<Id>): (r: seq<Id>)
    requires id in m && AllListed(m, ids)
    ensures AllListed(m, r)
    ensures multiset(r) == multiset(ids) + multiset{id}
    ensures forall k :: 0 <= k < |r| ==> r[k] == id || r[k] in ids
    decreases |ids|
  {
    if ids == [] || m[id].date >= m[ids[0]].date then
      [id] + ids
    else
      assert ids == [ids[0]] + ids[1..];
      [ids[0]] + InsertByDate(m, id, ids[1..])
  }

  /** A booking at least as recent as every one of a sorted listing can
      head it. */
  lemma ConsNewestFirst(m: map<Id, Booking>, x: Id, rest: seq<Id>)
    requires x in m && AllListed(m, rest) && NewestFirst(m, rest)
    requires forall k :: 0 <= k < |rest| ==> m[x].date >= m[rest[k]].date
    ensures AllListed(m, [x] + rest) && NewestFirst(m, [x] + rest)
  {
    var r := [x] + rest;
    forall i, j | 0 <= i < j < |r| ensures m[r[i]].date >= m[r[j]].date {
      assert r[j] == rest[j - 1];
      if i > 0 {
        assert r[i] == rest[i - 1];
      }
    }
  }

  /** Inserting into a listing that is newest first keeps it newest first. */
  lemma {:induction false} InsertByDateSorted(m: map<Id, Booking>, id: Id, ids: seq<Id>)
    requires id in m && AllListed(m, ids) && NewestFirst(m, ids)
    ensures NewestFirst(m, InsertByDate(m, id, ids))
    decreases |ids|
  {
    if ids != [] && m[id].date < m[ids[0]].date {
      var tail := ids[1..];
      var rest := InsertByDate(m, id, tail);
      InsertByDateSorted(m, id, tail);
      assert [ids[0]] + rest == InsertByDate(m, id, ids);
      forall k | 0 <= k < |rest| ensures m[ids[0]].date >= m[rest[k]].date {
        if rest[k] != id {
          var j :| 0 <= j < |tail| && tail[j] == rest[k];
          assert tail[j] == ids[j + 1];
        }
      }
      ConsNewestFirst(m, ids[0], rest);
    }
  }

  /** The store's sorted query: the ids of `selected`, each once, newest
      first (the order among equal dates is the store's choice). */
  method SortNewestFirst(m: map<Id, Booking>, selected: set<Id>) returns (r: seq<Id>)
    requires selected <= m.Keys
    ensures AllListed(m, r) && NewestFirst(m, r)
    ensures multiset(r) == multiset(selected)
    ensures forall id :: id in r <==> id in selected
  {
    r := [];
    var rest := selected;
    while rest != {}
      invariant rest <= selected
      invariant AllListed(m, r) && NewestFirst(m, r)
      invariant multiset(r) + multiset(rest) == multiset(selected)
      decreases rest
    {
      var id :| id in rest;
      InsertByDateSorted(m, id, r);
      r := InsertByDate(m, id, r);
      assert multiset(rest) == multiset(rest - {id}) + multiset{id};
      rest := rest - {id};
    }
    forall id ensures id in r <==> id in selected {
      assert id in r <==> id in multiset(r);
      assert id in selected <==> id in multiset(selected);
    }
  }

  /** GET /client: the caller's own bookings, newest first. */
  method ClientBookings(st: Store, me: Id) returns (r: Result<seq<Id>>)
    requires st.Valid() && me in st.users
    ensures st.users[me].role != ClientRole ==> r == Err(WrongRole)
    ensures st.users[me].role == ClientRole ==> r.Ok?
    ensures r.Ok? ==> AllListed(st.bookings, r.value) && NewestFirst(st.bookings, r.value)
    ensures r.Ok? ==> forall id :: id in r.value <==> id in st.bookings && st.bookings[id].client == me
    ensures r.Ok? ==> forall i, j :: 0 <= i < j < |r.value| ==> r.value[i] != r.value[j]
  {
    if st.users[me].role != ClientRole {
      return Err(WrongRole);
    }
    var mine := set id | id in st.bookings && st.bookings[id].client == me;
    var ids := SortNewestFirst(st.bookings, mine);
    NoRepeats(ids, mine);
    return Ok(ids);
  }

  /** GET /worker: the bookings of the caller's worker profile, newest first. */
  method WorkerBookings(st: Store, me: Id) returns (r: Result<seq<Id>>)
    requires st.Valid() && me in st.users
    ensures st.users[me].role != WorkerRole ==> r == Err(WrongRole)
    ensures st.users[me].role == WorkerRole && ProfileOf(st.workers, me).None? ==> r == Err(NoWorkerProfile)
    ensures r.Ok? <==> st.users[me].role == WorkerRole && ProfileOf(st.workers, me).Some?
    ensures r.Ok? ==> AllListed(st.bookings, r.value) && NewestFirst(st.bookings, r.value)
    ensures r.Ok? ==> forall id :: id in r.value <==>
              id in st.bookings && st.bookings[id].worker == ProfileOf(st.workers, me).value
    ensures r.Ok? ==> forall i, j :: 0 <= i < j < |r.value| ==> r.value[i] != r.value[j]
  {
    if st.users[me].role != WorkerRole {
      return Err(WrongRole);
    }
    var profile := ProfileOf(st.workers, me);
    if profile.None? {
      return Err(NoWorkerProfile);
    }
    var theirs := set id | id in st.bookings && st.bookings[id].worker == profile.value;
    var ids := SortNewestFirst(st.bookings, theirs);
    NoRepeats(ids, theirs);
    return Ok(ids);
  }

  /** A sequence with the multiset of a set repeats nothing. */
  lemma NoRepeats(ids: seq<Id>, s: set<Id>)
    requires multiset(ids) == multiset(s)
    ensures forall i, j :: 0 <= i < j < |ids| ==> ids[i] != ids[j]
  {
    forall i, j | 0 <= i < j < |ids| ensures ids[i] != ids[j] {
      var x := ids[i];
      assert ids == ids[..i] + [x] + ids[i + 1..j] + [ids[j]] + ids[j + 1..];
      assert multiset(ids)[x] >= 1 + multiset([ids[j]])[x];
      assert multiset(s)[x] <= 1;
    }
  }

  // ------------------------------------------------------------- handlers

  /** POST /: a client books an available service. The booking takes the
      service's current worker and starts `pending`; it is the only
      document added. */
  method Create(st: Store, me: Id, serviceId: Id, date: int, note: Option<string>) returns (r: Result<Id>)
    requires st.Valid() && me in st.users
    modifies st
    ensures st.Valid()
    ensures unchanged(st`users, st`workers, st`services)
    ensures Evolves(old(st.bookings), st.bookings)
    ensures st.users[me].role != ClientRole ==> r == Err(WrongRole)
    ensures st.users[me].role == ClientRole && serviceId !in st.services ==> r == Err(NoService)
    ensures (st.users[me].role == ClientRole && serviceId in st.services && !st.services[serviceId].isAvailable)
              ==> r == Err(Unavailable)
    ensures r.Ok? <==> st.users[me].role == ClientRole && serviceId in st.services && st.services[serviceId].isAvailable
    ensures r.Err? ==> unchanged(st)
    ensures r.Ok? ==> (r.value !in old(st.bookings)
      && st.bookings == old(st.bookings)[r.value := NewBooking(serviceId, me, st.services[serviceId].worker, date, note)])
  {
    if st.users[me].role != ClientRole {
      return Err(WrongRole);
    }
    if serviceId !in st.services {
      return Err(NoService);
    }
    var service := st.services[serviceId];
    if !service.isAvailable {
      return Err(Unavailable);
    }
    var id := st.FreshId();
    st.SaveBooking(id, NewBooking(serviceId, me, service.worker, date, note));
    return Ok(id);
  }

  /** PUT /:id/status: the worker owning the booking sets any allowed status,
      whatever the current one is. Only that booking's status changes. */
  method UpdateStatus(st: Store, me: Id, bookingId: Id, requested: string) returns (r: Result<Booking>)
    requires st.Valid() && me in st.users
    modifies st
    ensures st.Valid()
    ensures unchanged(st`users, st`workers, st`services, st`nextId)
    ensures Evolves(old(st.bookings), st.bookings)
    ensures st.users[me].role != WorkerRole ==> r == Err(WrongRole)
    ensures st.users[me].role == WorkerRole && ParseTarget(requested).None? ==> r == Err(InvalidStatus)
    ensures (st.users[me].role == WorkerRole && ParseTarget(requested).Some?
              && ProfileOf(st.workers, me).None?) ==> r == Err(NoWorkerProfile)
    ensures (st.users[me].role == WorkerRole && ParseTarget(requested).Some?
              && ProfileOf(st.workers, me).Some? && bookingId !in old(st.bookings)) ==> r == Err(NoBooking)
    ensures (st.users[me].role == WorkerRole && ParseTarget(requested).Some?
              && ProfileOf(st.workers, me).Some? && bookingId in old(st.bookings)
              && old(st.bookings)[bookingId].worker != ProfileOf(st.workers, me).value) ==> r == Err(NotOwner)
    ensures r.Ok? <==> (st.users[me].role == WorkerRole && ParseTarget(requested).Some?
              && ProfileOf(st.workers, me).Some? && bookingId in old(st.bookings)
              && old(st.bookings)[bookingId].worker == ProfileOf(st.workers, me).value)
    ensures r.Err? ==> unchanged(st`bookings)
    ensures r.Ok? ==> (r.value == old(st.bookings)[bookingId].(status := ParseTarget(requested).value)
      && st.bookings == old(st.bookings)[bookingId := r.value])
    ensures r.Ok? ==> r.value.status != Pending
  {
    if st.users[me].role != WorkerRole {
      return Err(WrongRole);
    }
    var target := ParseTarget(requested);
    if target.None? {
      return Err(InvalidStatus);
    }
    var profile := ProfileOf(st.workers, me);
    if profile.None? {
      return Err(NoWorkerProfile);
    }
    if bookingId !in st.bookings {
      return Err(NoBooking);
    }
    var booking := st.bookings[bookingId];
    if booking.worker != profile.value {
      return Err(NotOwner);
    }
    var updated := booking.(status := target.value);
    st.SaveBooking(bookingId, updated);
    return Ok(updated);
  }

  /** POST /:id/rate: the client owning a completed, unrated booking gives it
      a score in 1..5, which is folded into the booking's worker, if that
      worker still exists, rounded to two decimals. */
  method Rate(st: Store, me: Id, bookingId: Id, score: int, comment: Option<string>) returns (r: Result<Booking>)
    requires st.Valid() && me in st.users
    modifies st
    ensures st.Valid()
    ensures unchanged(st`users, st`services, st`nextId)
    ensures Evolves(old(st.bookings), st.bookings)
    ensures st.users[me].role != ClientRole ==> r == Err(WrongRole)
    ensures st.users[me].role == ClientRole && !ScoreInRange(score) ==> r == Err(InvalidScore)
    ensures (st.users[me].role == ClientRole && ScoreInRange(score) && bookingId !in old(st.bookings))
              ==> r == Err(NoBooking)
    ensures st.users[me].role == ClientRole && ScoreInRange(score) && bookingId in old(st.bookings) ==>
              var b := old(st.bookings)[bookingId];
              && (b.client != me ==> r == Err(NotOwner))
              && (b.client == me && b.status != Completed ==> r == Err(NotCompleted))
              && (b.client == me && b.status == Completed && IsRated(b) ==> r == Err(AlreadyRated))
              && (b.client == me && b.status == Completed && !IsRated(b) ==> r.Ok?)
    ensures r.Err? ==> unchanged(st`bookings, st`workers)
    ensures forall u :: ProfileOf(st.workers, u) == ProfileOf(old(st.workers), u)
    ensures r.Ok? ==> st.users[me].role == ClientRole && ScoreInRange(score) && bookingId in old(st.bookings)
    ensures r.Ok? ==>
              var b := old(st.bookings)[bookingId];
              && r.value == b.(rating := Some(Rating(score, comment)))
              && IsRated(r.value)
              && st.bookings == old(st.bookings)[bookingId := r.value]
              && st.workers == (if b.worker in old(st.workers)
                                then old(st.workers)[b.worker := RecordBookingScore(old(st.workers)[b.worker], score)]
                                else old(st.workers))
  {
    if st.users[me].role != ClientRole {
      return Err(WrongRole);
    }
    if score == 0 || score < 1 || score > 5 {
      return Err(InvalidScore);
    }
    if bookingId !in st.bookings {
      return Err(NoBooking);
    }
    var booking := st.bookings[bookingId];
    if booking.client != me {
      return Err(NotOwner);
    }
    if booking.status != Completed {
      return Err(NotCompleted);
    }
    if booking.rating.Some? && booking.rating.value.score != 0 {
      return Err(AlreadyRated);
    }
    var rated := booking.(rating := Some(Rating(score, comment)));
    st.SaveBooking(bookingId, rated);
    if booking.worker in st.workers {
      var worker := st.workers[booking.worker];
      BookingScoreKeepsReputation(worker, score);
      st.SaveWorker(booking.worker, RecordBookingScore(worker, score));
    }
    return Ok(rated);
  }

  /** A booking is rated at most once: once a rate succeeds, rating the same
      booking again fails, with "already rated" whenever the second score is
      itself acceptable, and the worker counts the rating once. */
  method RateTwice(st: Store, me: Id, bookingId: Id, first: int, second: int, comment: Option<string>)
    returns (r1: Result<Booking>, r2: Result<Booking>)
    requires st.Valid() && me in st.users
    modifies st
    ensures r1.Ok? ==> bookingId in old(st.bookings) && bookingId in st.bookings
    ensures r1.Ok? ==> r2.Err?
    ensures r1.Ok? && ScoreInRange(second) ==> r2 == Err(AlreadyRated)
    ensures r1.Ok? ==> st.bookings[bookingId] == r1.value
    ensures r1.Ok? && old(st.bookings)[bookingId].worker in old(st.workers) ==>
              var w := old(st.bookings)[bookingId].worker;
              w in st.workers && st.workers[w].totalRatings == old(st.workers)[w].totalRatings + 1
  {
    r1 := Rate(st, me, bookingId, first, comment);
    r2 := Rate(st, me, bookingId, second, comment);
  }
}
