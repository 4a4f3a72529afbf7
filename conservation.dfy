/** Seat conservation: the seats a ride has given out are the seats its
    pending and accepted bookings hold. The Express POST and the accept and
    accepted-to-cancelled transitions keep this balance; a reject, a cancel
    of a pending booking, and every Next.js POST break it. */
module Conservation {
  import opened Ledger
  import opened Requests
  import Routes
  import NextBookings
  import Sums

  /** The seats one booking holds on its ride. */
  function LiveSeats(b: Booking): (r: int)
    ensures b.status.Live() ==> r == b.seatsBooked
    ensures !b.status.Live() ==> r == 0
  {
    if b.status.Live() then b.seatsBooked else 0
  }

  function HeldWeight(bookings: map<Id, Booking>): Id -> int {
    b => if b in bookings then LiveSeats(bookings[b]) else 0
  }

  /** The seats held by the live bookings on a ride. */
  ghost function Held(bookings: map<Id, Booking>, rideId: Id): int {
    Sums.Total(BookingsOn(bookings, rideId), HeldWeight(bookings))
  }

  /** Seats given out but held by no live booking: zero on a ride whose
      ledger balances, positive where seats leaked. */
  ghost function Leak(s: State, rideId: Id): int
    requires rideId in s.rides
  {
    s.rides[rideId].seatsTotal - s.rides[rideId].seatsAvailable - Held(s.bookings, rideId)
  }

  ghost predicate Conserved(s: State, rideId: Id) {
    rideId in s.rides && Leak(s, rideId) == 0
  }

  /** Inserting a booking under a new id adds the seats it holds to its
      ride and nothing to any other ride. */
  lemma HeldAfterInsert(bookings: map<Id, Booking>, id: Id, b: Booking, rideId: Id)
    requires id !in bookings
    ensures Held(bookings[id := b], rideId) == Held(bookings, rideId) + (if b.rideId == rideId then LiveSeats(b) else 0)
  {
    var after := bookings[id := b];
    var before := BookingsOn(bookings, rideId);
    forall x | x in before ensures HeldWeight(after)(x) == HeldWeight(bookings)(x) {
      assert x != id;
    }
    Sums.TotalCongruent(before, HeldWeight(after), HeldWeight(bookings));
    if b.rideId == rideId {
      assert BookingsOn(after, rideId) == before + {id};
      Sums.TotalAdd(before, HeldWeight(after), id);
    } else {
      assert BookingsOn(after, rideId) == before;
    }
  }

  /** Rewriting a booking without moving it to another ride changes what
      its ride holds by the difference of what the two versions hold. */
  lemma HeldAfterWrite(bookings: map<Id, Booking>, id: Id, b: Booking, rideId: Id)
    requires id in bookings && b.rideId == bookings[id].rideId
    ensures Held(bookings[id := b], rideId) ==
              Held(bookings, rideId) + (if b.rideId == rideId then LiveSeats(b) - LiveSeats(bookings[id]) else 0)
  {
    var after := bookings[id := b];
    var on := BookingsOn(bookings, rideId);
    assert BookingsOn(after, rideId) == on;
    var rest := on - {id};
    forall x | x in rest ensures HeldWeight(after)(x) == HeldWeight(bookings)(x) {
    }
    Sums.TotalCongruent(rest, HeldWeight(after), HeldWeight(bookings));
    if b.rideId == rideId {
      Sums.TotalRemove(on, HeldWeight(after), id);
      Sums.TotalRemove(on, HeldWeight(bookings), id);
    } else {
      assert rest == on;
    }
  }

  /** An Express POST whose insert succeeds, or that fails before the
      reservation, keeps every ride's balance: the seats it takes from the
      ride are the seats the new booking holds. */
  lemma PostBookingsConserves(s: State, req: BookingRequest, newId: Id, rideId: Id)
    requires Conserved(s, rideId)
    requires ParseBooking(req).Some? && Reservable(s, ParseBooking(req).value) ==> Insertable(s, newId, ParseBooking(req).value)
    ensures Conserved(Routes.PostBookings(s, req, newId).state, rideId)
  {
    var r := Routes.PostBookings(s, req, newId);
    if r.out.Ok? {
      var v := ParseBooking(req).value;
      HeldAfterInsert(s.bookings, newId, PendingBooking(v), rideId);
    }
  }

  /** When the insert throws after the reservation (an empty rideId or
      passengerId that the schema refuses, or a taken id), the Express POST
      has taken the seats and created nothing: the ride leaks what was
      asked for. */
  lemma PostBookingsFailedInsertLeaks(s: State, req: BookingRequest, newId: Id)
    requires ParseBooking(req).Some? && Reservable(s, ParseBooking(req).value)
    requires !Insertable(s, newId, ParseBooking(req).value)
    ensures var v := ParseBooking(req).value;
            var r := Routes.PostBookings(s, req, newId);
            r.out == Err(BookingFailed) && Leak(r.state, v.rideId) == Leak(s, v.rideId) + v.seatsBooked
  {
  }

  /** A Next.js POST that succeeds adds a live booking and takes no seats:
      the ride's ledger is short by exactly the seats booked. */
  lemma NextPostOverdraws(s: State, req: BookingRequest, newId: Id)
    requires ParseBooking(req).Some? && ParseBooking(req).value.rideId in s.rides
    requires newId !in s.bookings
    ensures var v := ParseBooking(req).value;
            var r := NextBookings.HandleBookings(s, NextBookings.Post, req, newId);
            r.out.Ok? ==> Leak(r.state, v.rideId) == Leak(s, v.rideId) - v.seatsBooked
  {
    var v := ParseBooking(req).value;
    var r := NextBookings.HandleBookings(s, NextBookings.Post, req, newId);
    if r.out.Ok? {
      HeldAfterInsert(s.bookings, newId, PendingBooking(v), v.rideId);
    }
  }

  /** What a status change does to the balance of the booking's ride: the
      seats the booking stops holding leak unless updateBooking gives them
      back; other rides are untouched. */
  lemma PatchBookingLeak(s: State, bookingId: Id, userId: Option<Id>, status: Option<StatusName>, rideId: Id)
    requires rideId in s.rides
    ensures var r := Routes.PatchBooking(s, bookingId, userId, status);
            r.out.Ok? ==>
              var before := s.bookings[bookingId];
              var after := r.state.bookings[bookingId];
              rideId in r.state.rides &&
              Leak(r.state, rideId) == Leak(s, rideId) +
                (if before.rideId == rideId
                 then LiveSeats(before) - LiveSeats(after) - (if ReleasesSeats(before.status, status) then before.seatsBooked else 0)
                 else 0)
  {
    var r := Routes.PatchBooking(s, bookingId, userId, status);
    if r.out.Ok? {
      var before := s.bookings[bookingId];
      HeldAfterWrite(s.bookings, bookingId, r.state.bookings[bookingId], rideId);
    }
  }

  /** On a balanced ride, an authorised status change keeps the balance
      exactly when the seats the booking stops holding are the seats that
      come back. */
  lemma PatchBookingConservesIff(s: State, bookingId: Id, userId: Option<Id>, status: Option<StatusName>)
    requires bookingId in s.bookings && Conserved(s, s.bookings[bookingId].rideId)
    ensures var before := s.bookings[bookingId];
            var r := Routes.PatchBooking(s, bookingId, userId, status);
            r.out.Ok? ==>
              (Conserved(r.state, before.rideId) <==>
                 LiveSeats(before) - LiveSeats(r.state.bookings[bookingId]) ==
                   (if ReleasesSeats(before.status, status) then before.seatsBooked else 0))
  {
    PatchBookingLeak(s, bookingId, userId, status, s.bookings[bookingId].rideId);
  }

  /** The driver accepting a pending booking keeps the balance. */
  lemma AcceptConserves(s: State, bookingId: Id)
    requires bookingId in s.bookings && s.bookings[bookingId].status == Pending
    requires Conserved(s, s.bookings[bookingId].rideId)
    ensures var r := Routes.PatchBooking(s, bookingId, Some(s.rides[s.bookings[bookingId].rideId].driverId), Some(Accepted));
            r.out.Ok? && Conserved(r.state, s.bookings[bookingId].rideId)
  {
    PatchBookingConservesIff(s, bookingId, Some(s.rides[s.bookings[bookingId].rideId].driverId), Some(Accepted));
  }

  /** The passenger cancelling an accepted booking keeps the balance. */
  lemma AcceptedCancelConserves(s: State, bookingId: Id)
    requires bookingId in s.bookings && s.bookings[bookingId].status == Accepted
    requires Conserved(s, s.bookings[bookingId].rideId)
    ensures var r := Routes.PatchBooking(s, bookingId, Some(s.bookings[bookingId].passengerId), Some(Cancelled));
            r.out.Ok? && Conserved(r.state, s.bookings[bookingId].rideId)
  {
    PatchBookingConservesIff(s, bookingId, Some(s.bookings[bookingId].passengerId), Some(Cancelled));
  }

  /** The driver rejecting a live booking of k seats on a balanced ride
      leaves those k seats given out and held by nobody. */
  lemma RejectLeaks(s: State, bookingId: Id)
    requires bookingId in s.bookings && s.bookings[bookingId].status.Live()
    requires Conserved(s, s.bookings[bookingId].rideId)
    ensures var b := s.bookings[bookingId];
            var r := Routes.PatchBooking(s, bookingId, Some(s.rides[b.rideId].driverId), Some(Rejected));
            r.out.Ok? && Leak(r.state, b.rideId) == b.seatsBooked
  {
    var b := s.bookings[bookingId];
    PatchBookingLeak(s, bookingId, Some(s.rides[b.rideId].driverId), Some(Rejected), b.rideId);
  }

  /** The passenger cancelling a pending booking of k seats on a balanced
      ride leaks those k seats. */
  lemma PendingCancelLeaks(s: State, bookingId: Id)
    requires bookingId in s.bookings && s.bookings[bookingId].status == Pending
    requires Conserved(s, s.bookings[bookingId].rideId)
    ensures var b := s.bookings[bookingId];
            var r := Routes.PatchBooking(s, bookingId, Some(b.passengerId), Some(Cancelled));
            r.out.Ok? && Leak(r.state, b.rideId) == b.seatsBooked
  {
    var b := s.bookings[bookingId];
    PatchBookingLeak(s, bookingId, Some(b.passengerId), Some(Cancelled), b.rideId);
  }
}
