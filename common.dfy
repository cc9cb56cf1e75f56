/** Identifiers, wrappers, the error vocabulary of the routes and the service
    category enum that the Worker and Service schemas share. */
module Common {

  /** A document id (a MongoDB ObjectId). The routes only ever compare ids for
      equality, so a natural number stands for one. */
  type Id = nat

  datatype Option<+T> = None | Some(value: T)

  /** What a route handler answers: the entity it produced, or why it refused. */
  datatype Result<+T> = Ok(value: T) | Err(error: Error)

  /** The `userType` of an authenticated user. */
  datatype Role = ClientRole | WorkerRole

  /** Why a handler refused a request. Each reason is one of the source's early
      returns; `KindOf` gives the class of error it belongs to. */
  datatype Error =
    | WrongRole           // the caller's userType may not use this route
    | NotOwner            // the record belongs to another client or worker
    | NoWorkerProfile     // the calling worker user has no Worker document
    | NoService           // "Service not found"
    | NoBooking           // "Booking not found"
    | NoWorker            // "Worker not found"
    | Unavailable         // the service has isAvailable == false
    | InvalidStatus       // the requested booking status is not allowed
    | InvalidScore        // the booking score is missing or outside 1..5
    | NotCompleted        // only completed bookings can be rated
    | AlreadyRated        // the booking already carries a score
    | InvalidRatingInput  // the standalone rating request is malformed
    | ValidationFailed    // the schema refused the document on save

  /** The error classes, one per HTTP status the routes send. */
  datatype Kind = Forbidden | NotFound | BadRequest | ServerError

  function KindOf(e: Error): Kind
  {
    match e
    case WrongRole | NotOwner => Forbidden
    case NoWorkerProfile | NoService | NoBooking | NoWorker => NotFound
    case Unavailable | InvalidStatus | InvalidScore | NotCompleted | AlreadyRated | InvalidRatingInput => BadRequest
    case ValidationFailed => ServerError
  }

  /** The HTTP status the route sends for each class of error. A schema
      refusal on save is thrown and caught by the route's catch-all. */
  function HttpStatus(k: Kind): (code: int)
    ensures 400 <= code < 600
  {
    match k
    case Forbidden => 403
    case NotFound => 404
    case BadRequest => 400
    case ServerError => 500
  }

  /** Distinct error classes are sent with distinct statuses. */
  lemma HttpStatusOneToOne(k: Kind, k': Kind)
    ensures HttpStatus(k) == HttpStatus(k') ==> k == k'
  {
  }

  /** The refusals sent with 403: the wrong role and another owner's record. */
  lemma ForbiddenRefusals(e: Error)
    ensures HttpStatus(KindOf(e)) == 403 <==> e == WrongRole || e == NotOwner
  {
  }

  /** The refusals sent with 404: a missing profile, service, booking or worker. */
  lemma NotFoundRefusals(e: Error)
    ensures HttpStatus(KindOf(e)) == 404 <==> e == NoWorkerProfile || e == NoService || e == NoBooking || e == NoWorker
  {
  }

  /** The refusals sent with 400, "already rated" among them. */
  lemma BadRequestRefusals(e: Error)
    ensures HttpStatus(KindOf(e)) == 400 <==>
              e == Unavailable || e == InvalidStatus || e == InvalidScore
              || e == NotCompleted || e == AlreadyRated || e == InvalidRatingInput
  {
  }

  /** The only refusal sent with 500: a save the schema rejects, which the
      routes' catch-all answers. */
  lemma ServerErrorRefusals(e: Error)
    ensures HttpStatus(KindOf(e)) == 500 <==> e == ValidationFailed
  {
  }

  /** JavaScript truthiness of an optional string field of a request body:
      a missing field and the empty string are both falsy. */
  predicate TruthyText(o: Option<string>)
  {
    o.Some? && o.value != ""
  }

  /** JavaScript truthiness of an optional number: missing and 0 are falsy. */
  predicate TruthyNumber(o: Option<real>)
  {
    o.Some? && o.value != 0.0
  }

  /** The `serviceType` enum of the Worker and Service schemas. */
  datatype ServiceType = Cleaning | Plumbing | Carpentry | Gardening

  function ServiceTypeName(t: ServiceType): string
  {
    match t
    case Cleaning => "cleaning"
    case Plumbing => "plumbing"
    case Carpentry => "carpentry"
    case Gardening => "gardening"
  }

  /** The enum check Mongoose applies to a `serviceType` string. */
  function ParseServiceType(s: string): (r: Option<ServiceType>)
    ensures r.Some? ==> ServiceTypeName(r.value) == s
  {
    if s == "cleaning" then Some(Cleaning)
    else if s == "plumbing" then Some(Plumbing)
    else if s == "carpentry" then Some(Carpentry)
    else if s == "gardening" then Some(Gardening)
    else None
  }

  /** Every enum value is accepted under its own name, and names are distinct. */
  lemma ParseServiceTypeName(t: ServiceType)
    ensures ParseServiceType(ServiceTypeName(t)) == Some(t)
  {
  }

  lemma ParseServiceTypeNames()
    ensures forall t :: ParseServiceType(ServiceTypeName(t)) == Some(t)
  {
    forall t ensures ParseServiceType(ServiceTypeName(t)) == Some(t) {
      ParseServiceTypeName(t);
    }
  }

  lemma ServiceTypeNameInjective(t: ServiceType, t': ServiceType)
    ensures ServiceTypeName(t) == ServiceTypeName(t') ==> t == t'
  {
    ParseServiceTypeName(t);
    ParseServiceTypeName(t');
  }
}
