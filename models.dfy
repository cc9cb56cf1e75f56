/** The Mongoose schemas of the three core collections (Booking, Worker,
    Service) as datatypes with their defaults and the validation Mongoose runs
    on save, plus the fields of the User record that the routes read or write. */
module Models {
  import opened Common
  import Text

  // ---------------------------------------------------------------- Booking

  /** The `status` enum of a booking. */
  datatype Status = Pending | Confirmed | Completed | Cancelled

  function StatusName(s: Status): string
  {
    match s
    case Pending => "pending"
    case Confirmed => "confirmed"
    case Completed => "completed"
    case Cancelled => "cancelled"
  }

  /** The optional `rating` sub-document of a booking. */
  datatype Rating = Rating(score: int, comment: Option<string>)

  /** A booking; `date` is a timestamp and `createdAt` is left out. */
  datatype Booking = Booking(
    service: Id,
    client: Id,
    worker: Id,
    status: Status,
    date: int,
    note: Option<string>,
    rating: Option<Rating>)

  /** The `min: 1, max: 5` bounds of `rating.score`. */
  predicate ScoreInRange(score: int)
  {
    1 <= score <= 5
  }

  /** What the schema accepts: a score, when present, lies in 1..5. On such
      a booking the "already rated" test is exactly "has a rating", and a
      booking without a rating is always accepted. */
  predicate BookingValid(b: Booking)
    ensures BookingValid(b) ==> (IsRated(b) <==> b.rating.Some?)
    ensures b.rating.None? ==> BookingValid(b)
  {
    b.rating.Some? ==> ScoreInRange(b.rating.value.score)
  }

  /** The "already rated" test of the rate route: a rating with a truthy
      score. A rating with a score in 1..5 always passes it. */
  predicate IsRated(b: Booking)
    ensures IsRated(b) ==> b.rating.Some?
    ensures b.rating.Some? && ScoreInRange(b.rating.value.score) ==> IsRated(b)
  {
    b.rating.Some? && b.rating.value.score != 0
  }

  /** A booking as the schema builds it from the required fields and the
      optional note: the status takes its default and there is no rating. */
  function NewBooking(service: Id, client: Id, worker: Id, date: int, note: Option<string>): (b: Booking)
    ensures b.status == Pending && !IsRated(b) && BookingValid(b)
    ensures b.service == service && b.client == client && b.worker == worker
    ensures b.date == date && b.note == note
  {
    Booking(service, client, worker, Pending, date, note, None)
  }

  // ----------------------------------------------------------------- Worker

  /** A worker profile; `createdAt` is left out. */
  datatype Worker = Worker(
    user: Id,
    serviceType: ServiceType,
    experience: string,
    bio: string,
    idDocument: string,
    isVerified: bool,
    rating: real,
    totalRatings: nat)

  /** The required string fields are present (Mongoose refuses ""). */
  predicate WorkerValid(w: Worker)
  {
    w.experience != "" && w.bio != "" && w.idDocument != ""
  }

  /** Validity depends on the required strings only: the defaulted fields
      (verification flag, rating, count) and the category never affect it. */
  lemma WorkerValidityIgnoresDefaults(w: Worker, t: ServiceType, v: bool, r: real, n: nat)
    ensures WorkerValid(w.(serviceType := t, isVerified := v, rating := r, totalRatings := n)) <==> WorkerValid(w)
  {
  }

  /** A worker as the schema builds it: unverified, with no ratings. */
  function NewWorker(user: Id, serviceType: ServiceType, experience: string, bio: string, idDocument: string): (w: Worker)
    ensures !w.isVerified && w.rating == 0.0 && w.totalRatings == 0
    ensures w.user == user && w.serviceType == serviceType
    ensures WorkerValid(w) <==> experience != "" && bio != "" && idDocument != ""
  {
    Worker(user, serviceType, experience, bio, idDocument, false, 0.0, 0)
  }

  // ---------------------------------------------------------------- Service

  /** A service listing; `createdAt` is left out. */
  datatype Service = Service(
    worker: Id,
    title: string,
    description: string,
    serviceType: ServiceType,
    price: real,
    isAvailable: bool)

  /** What the schema accepts on save: a non-empty trimmed title and a
      non-empty description (the enum and the price are typed). */
  predicate ServiceValid(s: Service)
  {
    s.title != "" && Text.Trim(s.title) == s.title && s.description != ""
  }

  /** A valid service's title is never blank: it holds a non-white-space
      character, so a title of spaces only can never be stored. */
  lemma ServiceTitleNotBlank(s: Service)
    requires ServiceValid(s)
    ensures !Text.AllSpace(s.title)
  {
    Text.TrimEmpty(s.title);
  }

  /** A service as the schema builds it: the title goes through the `trim`
      setter and `isAvailable` takes its default. It passes validation
      exactly when the trimmed title and the description are non-empty. */
  function NewService(worker: Id, title: string, description: string, serviceType: ServiceType, price: real): (s: Service)
    ensures s.isAvailable
    ensures s.worker == worker && s.serviceType == serviceType
    ensures s.title == Text.Trim(title) && s.description == description && s.price == price
    ensures ServiceValid(s) <==> Text.Trim(title) != "" && description != ""
  {
    Text.TrimIdempotent(title);
    Service(worker, Text.Trim(title), description, serviceType, price, true)
  }

  // ------------------------------------------------------------------- User

  /** The fields of a user record that the routes read or write. */
  datatype User = User(
    name: string,
    email: string,
    phone: string,
    role: Role,
    location: Option<string>,
    address: Option<string>)
}
