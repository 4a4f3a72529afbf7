/** The Express handlers of the seat ledger. Each endpoint is a function
    from the store's state to the next state and the reply, and a method on
    the store object that is proved to do what the function says, whatever
    the notifier does. */
module Routes {
  import opened Ledger
  import opened Requests
  import Storage

  // ---------------------------------------------------------------------
  // POST /api/bookings
  // ---------------------------------------------------------------------

  /** POST /api/bookings: validate, reserve the seats with one conditional
      decrement, and only then insert the pending booking. When the insert
      throws (the schema refuses an empty rideId or passengerId, or the id
      is taken), the reservation is not undone. */
  function PostBookings(s: State, req: BookingRequest, newId: Id): (r: Step<Reply<Booking>>)
    ensures ParseBooking(req).None? ==> r == Step(s, Err(InvalidBody))
    ensures ParseBooking(req).Some? && !Reservable(s, ParseBooking(req).value) ==> r == Step(s, Err(RideUnavailable))
    ensures r.out.Ok? <==>
              ParseBooking(req).Some? && Reservable(s, ParseBooking(req).value) && Insertable(s, newId, ParseBooking(req).value)
    ensures ParseBooking(req).Some? && Reservable(s, ParseBooking(req).value) ==>
              var v := ParseBooking(req).value;
              var ride := s.rides[v.rideId];
              var reserved := s.rides[v.rideId := ride.(seatsAvailable := ride.seatsAvailable - v.seatsBooked)];
              && r.state.rides == reserved
              && r.state.rides[v.rideId].seatsAvailable >= 0
              && (Insertable(s, newId, v) ==>
                    r == Step(s.(rides := reserved, bookings := s.bookings[newId := PendingBooking(v)]), Ok(PendingBooking(v))))
              && (!Insertable(s, newId, v) ==> r == Step(s.(rides := reserved), Err(BookingFailed)))
  {
    match ParseBooking(req)
    case None => Step(s, Err(InvalidBody))
    case Some(v) =>
      var reserved := UpdateRideAtomic(s, v.rideId, -v.seatsBooked);
      if reserved.out.None? then Step(s, Err(RideUnavailable))
      else
        var created := CreateBooking(reserved.state, newId, PendingBooking(v));
        match created.out
        case Threw(_) => Step(created.state, Err(BookingFailed))
        case Returned(b) => Step(created.state, Ok(b))
  }

  method ServePostBookings(store: Storage.Store, req: BookingRequest, newId: Id, notifierUp: bool)
    returns (reply: Reply<Booking>)
    modifies store
    ensures Step(store.Snapshot(), reply) == PostBookings(old(store.Snapshot()), req, newId)
    ensures reply.Ok? && notifierUp ==>
              store.outbox == old(store.outbox) +
                [Storage.Notice("driver:" + store.rides[reply.body.rideId].driverId, "booking.created")]
    ensures !(reply.Ok? && notifierUp) ==> store.outbox == old(store.outbox)
  {
    var parsed := ParseBooking(req);
    if parsed.None? {
      return Err(InvalidBody);
    }
    var v := parsed.value;
    var ride := store.UpdateRideAtomic(v.rideId, -v.seatsBooked);
    if ride.None? {
      return Err(RideUnavailable);
    }
    var created := store.CreateBooking(newId, PendingBooking(v));
    if created.Threw? {
      return Err(BookingFailed);
    }
    // The notification's failure is caught and logged; the reply stands.
    var _ := store.Publish(Storage.Notice("driver:" + ride.value.driverId, "booking.created"), notifierUp);
    reply := Ok(created.value);
  }

  // ---------------------------------------------------------------------
  // PATCH /api/bookings/:id
  // ---------------------------------------------------------------------

  /** The request body asks for status `x`. */
  predicate Asks(status: Option<StatusName>, x: BookingStatus) {
    status.Some? && status.value == x
  }

  /** The checks of the handler: only the ride's driver may set accepted or
      rejected, only the booking's passenger may set cancelled; any other
      status (or none) is not checked. A missing x-user-id header is None
      and matches nobody. */
  predicate Authorized(ride: Ride, booking: Booking, userId: Option<Id>, status: Option<StatusName>) {
    && (Asks(status, Accepted) || Asks(status, Rejected) ==> userId == Some(ride.driverId))
    && (Asks(status, Cancelled) ==> userId == Some(booking.passengerId))
  }

  /** PATCH /api/bookings/:id: 404 for a missing booking or ride, 403 when
      the caller may not set the status, otherwise updateBooking, with no
      check of the booking's current status. */
  function PatchBooking(s: State, bookingId: Id, userId: Option<Id>, status: Option<StatusName>): (r: Step<Reply<Booking>>)
    ensures bookingId !in s.bookings ==> r == Step(s, Err(BookingNotFound))
    ensures bookingId in s.bookings && s.bookings[bookingId].rideId !in s.rides ==> r == Step(s, Err(RideNotFound))
    ensures r.out.Err? ==> r.state == s
    ensures r.out == Err(NotRideDriver) <==>
              && bookingId in s.bookings && s.bookings[bookingId].rideId in s.rides
              && (Asks(status, Accepted) || Asks(status, Rejected))
              && userId != Some(s.rides[s.bookings[bookingId].rideId].driverId)
    ensures r.out == Err(NotBookingPassenger) <==>
              && bookingId in s.bookings && s.bookings[bookingId].rideId in s.rides
              && Asks(status, Cancelled)
              && userId != Some(s.bookings[bookingId].passengerId)
    ensures r.out.Ok? <==>
              && bookingId in s.bookings && s.bookings[bookingId].rideId in s.rides
              && Authorized(s.rides[s.bookings[bookingId].rideId], s.bookings[bookingId], userId, status)
    ensures r.out.Ok? ==> UpdateBooking(s, bookingId, status) == Step(r.state, Some(r.out.body))
  {
    if bookingId !in s.bookings then Step(s, Err(BookingNotFound))
    else
      var booking := s.bookings[bookingId];
      if booking.rideId !in s.rides then Step(s, Err(RideNotFound))
      else
        var ride := s.rides[booking.rideId];
        if (Asks(status, Accepted) || Asks(status, Rejected)) && userId != Some(ride.driverId) then
          Step(s, Err(NotRideDriver))
        else if Asks(status, Cancelled) && userId != Some(booking.passengerId) then
          Step(s, Err(NotBookingPassenger))
        else
          var updated := UpdateBooking(s, bookingId, status);
          Step(updated.state, Ok(updated.out.value))
  }

  method ServePatchBooking(store: Storage.Store, bookingId: Id, userId: Option<Id>, status: Option<StatusName>, notifierUp: bool)
    returns (reply: Reply<Booking>)
    modifies store
    ensures Step(store.Snapshot(), reply) == PatchBooking(old(store.Snapshot()), bookingId, userId, status)
    ensures reply.Ok? && notifierUp ==>
              store.outbox == old(store.outbox) +
                [Storage.Notice("passenger:" + old(store.bookings)[bookingId].passengerId, "booking.updated"),
                 Storage.Notice("driver:" + old(store.rides)[old(store.bookings)[bookingId].rideId].driverId, "booking.updated")]
    ensures !(reply.Ok? && notifierUp) ==> store.outbox == old(store.outbox)
  {
    if bookingId !in store.bookings {
      return Err(BookingNotFound);
    }
    var booking := store.bookings[bookingId];
    if booking.rideId !in store.rides {
      return Err(RideNotFound);
    }
    var ride := store.rides[booking.rideId];
    if Asks(status, Accepted) || Asks(status, Rejected) {
      if userId != Some(ride.driverId) {
        return Err(NotRideDriver);
      }
    }
    if Asks(status, Cancelled) {
      if userId != Some(booking.passengerId) {
        return Err(NotBookingPassenger);
      }
    }
    var updated := store.UpdateBooking(bookingId, status);
    // Both publishes sit in one try block: a failure of the first skips
    // the second, and neither changes the reply.
    var delivered := store.Publish(Storage.Notice("passenger:" + booking.passengerId, "booking.updated"), notifierUp);
    if delivered {
      var _ := store.Publish(Storage.Notice("driver:" + ride.driverId, "booking.updated"), notifierUp);
    }
    reply := Ok(updated.value);
  }

  // ---------------------------------------------------------------------
  // PATCH /api/rides/:id/status, PATCH /api/rides/:id/location
  // ---------------------------------------------------------------------

  /** The request body asks for ride status `x`. */
  predicate AsksRide(status: Option<RideStatusName>, x: RideStatus) {
    status.Some? && status.value == x
  }

  /** The update the status endpoint sends: the status, and isActive false
      when the status is completed. */
  function StatusPatch(status: Option<RideStatusName>): RidePatch {
    var named: Option<RideStatus> := if status.Some? then Some(status.value) else None;
    RidePatch(named, if AsksRide(status, Completed) then Some(false) else None, None, None, None)
  }

  /** PATCH /api/rides/:id/status: always 200, with the updated ride or,
      for an unknown ride, an empty body. Anyone may call it. */
  function PatchRideStatus(s: State, rideId: Id, status: Option<RideStatusName>): (r: Step<Reply<Option<Ride>>>)
    ensures r.out.Ok?
    ensures rideId !in s.rides ==> r == Step(s, Ok(None))
    ensures rideId in s.rides ==>
              var before := s.rides[rideId];
              && r.out.body.Some?
              && r.state == s.(rides := s.rides[rideId := r.out.body.value])
              && r.out.body.value.isActive == (before.isActive && !AsksRide(status, Completed))
              && r.out.body.value.status == (if status.Some? then status.value else before.status)
              && r.out.body.value == before.(isActive := r.out.body.value.isActive, status := r.out.body.value.status)
  {
    var updated := UpdateRide(s, rideId, StatusPatch(status));
    Step(updated.state, Ok(updated.out))
  }

  method ServePatchRideStatus(store: Storage.Store, rideId: Id, status: Option<RideStatusName>)
    returns (reply: Reply<Option<Ride>>)
    modifies store
    ensures Step(store.Snapshot(), reply) == PatchRideStatus(old(store.Snapshot()), rideId, status)
    ensures store.outbox == old(store.outbox)
  {
    var ride := store.UpdateRide(rideId, StatusPatch(status));
    reply := Ok(ride);
  }

  /** PATCH /api/rides/:id/location: 404 for an unknown ride, 403 unless
      the caller is the ride's driver, otherwise the position is stored. */
  function PatchRideLocation(s: State, rideId: Id, lat: Option<real>, lng: Option<real>, userId: Option<Id>): (r: Step<Reply<Ride>>)
    ensures rideId !in s.rides ==> r == Step(s, Err(RideNotFound))
    ensures rideId in s.rides && userId != Some(s.rides[rideId].driverId) ==> r == Step(s, Err(NotAuthorized))
    ensures r.out.Ok? <==> rideId in s.rides && userId == Some(s.rides[rideId].driverId)
    ensures r.out.Ok? ==>
              && r.out.body == Patched(s.rides[rideId], RidePatch(None, None, None, lat, lng))
              && r.state == s.(rides := s.rides[rideId := r.out.body])
  {
    if rideId !in s.rides then Step(s, Err(RideNotFound))
    else if userId != Some(s.rides[rideId].driverId) then Step(s, Err(NotAuthorized))
    else
      var updated := UpdateRide(s, rideId, RidePatch(None, None, None, lat, lng));
      Step(updated.state, Ok(updated.out.value))
  }

  method ServePatchRideLocation(store: Storage.Store, rideId: Id, lat: Option<real>, lng: Option<real>, userId: Option<Id>, notifierUp: bool)
    returns (reply: Reply<Ride>)
    modifies store
    ensures Step(store.Snapshot(), reply) == PatchRideLocation(old(store.Snapshot()), rideId, lat, lng, userId)
    ensures reply.Ok? && notifierUp ==> store.outbox == old(store.outbox) + [Storage.Notice("ride:" + rideId, "location.update")]
    ensures !(reply.Ok? && notifierUp) ==> store.outbox == old(store.outbox)
  {
    if rideId !in store.rides {
      return Err(RideNotFound);
    }
    if userId != Some(store.rides[rideId].driverId) {
      return Err(NotAuthorized);
    }
    var updated := store.UpdateRide(rideId, RidePatch(None, None, None, lat, lng));
    var _ := store.Publish(Storage.Notice("ride:" + rideId, "location.update"), notifierUp);
    reply := Ok(updated.value);
  }

  // ---------------------------------------------------------------------
  // DELETE /api/rides/:id
  // ---------------------------------------------------------------------

  /** DELETE /api/rides/:id: the cascade, then 404 exactly when no ride was
      removed. The cascade runs in both cases. */
  function DeleteRideRoute(s: State, rideId: Id): (r: Step<Reply<bool>>)
    ensures r.out.Err? <==> rideId !in s.rides
    ensures r.out.Err? ==> r.out.failure == RideNotFound
    ensures r.out.Ok? ==> r.out.body
    ensures r.state == DeleteRide(s, rideId).state
  {
    var deleted := DeleteRide(s, rideId);
    if !deleted.out then Step(deleted.state, Err(RideNotFound)) else Step(deleted.state, Ok(true))
  }

  method ServeDeleteRide(store: Storage.Store, rideId: Id) returns (reply: Reply<bool>)
    modifies store
    ensures Step(store.Snapshot(), reply) == DeleteRideRoute(old(store.Snapshot()), rideId)
    ensures store.outbox == old(store.outbox)
  {
    var deleted := store.DeleteRide(rideId);
    if !deleted {
      return Err(RideNotFound);
    }
    reply := Ok(true);
  }
}
