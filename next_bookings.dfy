/** The Next.js handler of /api/bookings: a second booking endpoint beside
    the Express one, with the same body schema but a read-then-insert
    capacity check and no seat reservation. */
module NextBookings {
  import opened Ledger
  import opened Requests
  import Storage

  datatype HttpMethod = Get | Post | OtherMethod(name: string)
  {
    /** `OtherMethod` never carries the name of a method the handler serves. */
    predicate Canonical() {
      OtherMethod? ==> name !in {"GET", "POST"}
    }
  }

  /** The request's method: one representation per method name. */
  type Verb = m: HttpMethod | m.Canonical() witness Get

  /** The body of a 200 reply: the booking collection for GET, the new
      booking for POST. */
  datatype Body = BookingList(bookings: map<Id, Booking>) | Created(booking: Booking)

  /** The handler. POST compares the requested seats with the ride's
      available seats once, then inserts a pending booking; the ride is
      never written, so seatsAvailable stays as it was. An insert the
      schema refuses, or a taken id, is a 500 with the error's message. */
  function HandleBookings(s: State, verb: Verb, req: BookingRequest, newId: Id): (r: Step<Reply<Body>>)
    ensures r.state.rides == s.rides
    ensures r.state == s || r.state == s.(bookings := r.state.bookings)
    ensures verb.Get? ==> r == Step(s, Ok(BookingList(s.bookings)))
    ensures verb.OtherMethod? ==> r == Step(s, Err(MethodNotAllowed))
    ensures verb.Post? && ParseBooking(req).None? ==> r == Step(s, Err(InvalidBody))
    ensures verb.Post? && ParseBooking(req).Some? && ParseBooking(req).value.rideId !in s.rides ==>
              r == Step(s, Err(RideNotFound))
    ensures verb.Post? && ParseBooking(req).Some? && ParseBooking(req).value.rideId in s.rides &&
            s.rides[ParseBooking(req).value.rideId].seatsAvailable < ParseBooking(req).value.seatsBooked ==>
              r == Step(s, Err(OnlySeatsAvailable(s.rides[ParseBooking(req).value.rideId].seatsAvailable)))
    ensures verb.Post? ==>
              (r.out.Ok? <==>
                 ParseBooking(req).Some? && Reservable(s, ParseBooking(req).value) && Insertable(s, newId, ParseBooking(req).value))
    ensures verb.Post? && r.out.Ok? ==>
              r == Step(s.(bookings := s.bookings[newId := PendingBooking(ParseBooking(req).value)]),
                        Ok(Created(PendingBooking(ParseBooking(req).value))))
    ensures verb.Post? && ParseBooking(req).Some? && Reservable(s, ParseBooking(req).value) &&
            !BookingDocValid(PendingBooking(ParseBooking(req).value)) ==>
              r == Step(s, Err(ServerError(BookingInvalid))) && r.out.failure.Code() == 500
    ensures verb.Post? && ParseBooking(req).Some? && Reservable(s, ParseBooking(req).value) &&
            BookingDocValid(PendingBooking(ParseBooking(req).value)) && newId in s.bookings ==>
              r == Step(s, Err(ServerError(DuplicateKey))) && r.out.failure.Code() == 500
  {
    match verb
    case Get => Step(s, Ok(BookingList(s.bookings)))
    case OtherMethod(_) => Step(s, Err(MethodNotAllowed))
    case Post =>
      match ParseBooking(req)
      case None => Step(s, Err(InvalidBody))
      case Some(v) =>
        match Lookup(s.rides, v.rideId)
        case None => Step(s, Err(RideNotFound))
        case Some(ride) =>
          if ride.seatsAvailable < v.seatsBooked then Step(s, Err(OnlySeatsAvailable(ride.seatsAvailable)))
          else
            var created := CreateBooking(s, newId, PendingBooking(v));
            match created.out
            case Threw(message) => Step(created.state, Err(ServerError(message)))
            case Returned(b) => Step(created.state, Ok(Created(b)))
  }

  /** The notifications of a POST that created a booking: the booking's
      channel and, when that publish succeeded, the driver's. */
  function CreatedNotices(newId: Id, driverId: Id, notifierUp: bool): (r: seq<Storage.Notice>)
    ensures notifierUp ==> r == [Storage.Notice("booking:" + newId, "booking.created"),
                                 Storage.Notice("driver:" + driverId, "booking.created")]
    ensures !notifierUp ==> r == []
  {
    if notifierUp then [Storage.Notice("booking:" + newId, "booking.created"),
                        Storage.Notice("driver:" + driverId, "booking.created")]
    else []
  }

  method ServeBookings(store: Storage.Store, verb: Verb, req: BookingRequest, newId: Id, notifierUp: bool)
    returns (reply: Reply<Body>)
    modifies store
    ensures Step(store.Snapshot(), reply) == HandleBookings(old(store.Snapshot()), verb, req, newId)
    ensures reply.Ok? && reply.body.Created? ==>
              store.outbox == old(store.outbox) +
                CreatedNotices(newId, store.rides[reply.body.booking.rideId].driverId, notifierUp)
    ensures !(reply.Ok? && reply.body.Created?) ==> store.outbox == old(store.outbox)
  {
    match verb {
      case Get =>
        return Ok(BookingList(store.bookings));
      case OtherMethod(_) =>
        return Err(MethodNotAllowed);
      case Post =>
    }
    var parsed := ParseBooking(req);
    if parsed.None? {
      return Err(InvalidBody);
    }
    var v := parsed.value;
    if v.rideId !in store.rides {
      return Err(RideNotFound);
    }
    var ride := store.rides[v.rideId];
    if ride.seatsAvailable < v.seatsBooked {
      return Err(OnlySeatsAvailable(ride.seatsAvailable));
    }
    var created := store.CreateBooking(newId, PendingBooking(v));
    if created.Threw? {
      return Err(ServerError(created.reason));
    }
    // Both publishes and the second ride lookup sit in one try block whose
    // failure is only logged.
    var delivered := store.Publish(Storage.Notice("booking:" + newId, "booking.created"), notifierUp);
    if delivered && v.rideId in store.rides {
      var _ := store.Publish(Storage.Notice("driver:" + store.rides[v.rideId].driverId, "booking.created"), notifierUp);
    }
    reply := Ok(Created(created.value));
  }
}
