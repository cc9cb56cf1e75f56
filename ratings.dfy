/** The standalone rating route: any authenticated caller folds a score into
    a worker's public reputation, with no booking behind it, no role check and
    no rounding. Contrast with `Bookings.Rate`, which rounds to two decimals
    and allows one score per completed booking. */
module Ratings {
  import opened Common
  import opened Models
  import opened Reputation
  import opened Database

  /** The input check of the route: a worker id is given and the rating is
      truthy and lies in 1..5. */
  predicate ValidInput(workerId: Option<Id>, rating: Option<int>)
  {
    workerId.Some? && rating.Some? && rating.value != 0 && 1 <= rating.value <= 5
  }

  /** The input check accepts exactly the requests that name a worker and
      carry a booking-style score; zero is refused as falsy, which the range
      test would refuse anyway. */
  lemma ValidInputIsScore(workerId: Option<Id>, rating: Option<int>)
    ensures ValidInput(workerId, rating) <==> workerId.Some? && rating.Some? && ScoreInRange(rating.value)
  {
  }

  /** POST /: validates the input, finds the worker and stores the exact
      rolling mean with one more rating counted; answers the new mean.
      Nothing but that worker's `rating` and `totalRatings` changes. */
  method RateWorker(st: Store, workerId: Option<Id>, rating: Option<int>) returns (r: Result<real>)
    requires st.Valid()
    modifies st
    ensures st.Valid()
    ensures unchanged(st`users, st`services, st`bookings, st`nextId)
    ensures !ValidInput(workerId, rating) ==> r == Err(InvalidRatingInput)
    ensures ValidInput(workerId, rating) && workerId.value !in old(st.workers) ==> r == Err(NoWorker)
    ensures r.Ok? <==> ValidInput(workerId, rating) && workerId.value in old(st.workers)
    ensures r.Err? ==> unchanged(st`workers)
    ensures forall u :: ProfileOf(st.workers, u) == ProfileOf(old(st.workers), u)
    ensures r.Ok? ==> (
              var w := old(st.workers)[workerId.value];
              && st.workers == old(st.workers)[workerId.value := RecordDirectScore(w, rating.value)]
              && r.value == st.workers[workerId.value].rating
              && st.workers[workerId.value].totalRatings == w.totalRatings + 1
              && r.value * (w.totalRatings + 1) as real == w.rating * w.totalRatings as real + rating.value as real
              && (w.totalRatings == 0 ==> r.value == rating.value as real)
              && 0.0 <= r.value <= 5.0)
  {
    if !ValidInput(workerId, rating) {
      return Err(InvalidRatingInput);
    }
    var id := workerId.value;
    if id !in st.workers {
      return Err(NoWorker);
    }
    var w := st.workers[id];
    DirectScoreKeepsReputation(w, rating.value);
    var w' := RecordDirectScore(w, rating.value);
    st.SaveWorker(id, w');
    return Ok(w'.rating);
  }

  /** Nothing limits how often a worker is rated: once a rating has been
      accepted, the same request is accepted again and counted again. */
  method RateWorkerTwice(st: Store, workerId: Id, rating: int) returns (r1: Result<real>, r2: Result<real>)
    requires st.Valid()
    modifies st
    ensures r1.Ok? ==> (r2.Ok? && workerId in st.workers && workerId in old(st.workers))
    ensures r1.Ok? ==> st.workers[workerId].totalRatings == old(st.workers)[workerId].totalRatings + 2
  {
    r1 := RateWorker(st, Some(workerId), Some(rating));
    r2 := RateWorker(st, Some(workerId), Some(rating));
  }
}
