/** Sequences of requests through the handlers, as the code runs them:
    where seats come back, where they leak, what the authorisation checks
    refuse and what they let through. */
module Scenarios {
  import opened Ledger
  import opened Requests
  import Routes
  import NextBookings

  /** A body asking for k seats. */
  function SeatRequest(rideId: Id, passengerId: Id, k: int): (req: BookingRequest)
    ensures ParseBooking(req) == if k >= 1 then Some(ValidBooking(rideId, passengerId, k)) else None
  {
    BookingRequest(Some(rideId), Some(passengerId), Number(k))
  }

  // ---------------------------------------------------------------------
  // Seats through the booking lifecycle
  // ---------------------------------------------------------------------

  /** Reserving k seats, the driver accepting, and the passenger cancelling
      puts the ride back exactly as it was. */
  lemma ReserveAcceptCancelRestores(s: State, rideId: Id, passengerId: Id, k: int, newId: Id)
    requires rideId in s.rides && 1 <= k <= s.rides[rideId].seatsAvailable && newId !in s.bookings
    requires rideId != "" && passengerId != ""
    ensures var posted := Routes.PostBookings(s, SeatRequest(rideId, passengerId, k), newId);
            var accepted := Routes.PatchBooking(posted.state, newId, Some(s.rides[rideId].driverId), Some(Accepted));
            var cancelled := Routes.PatchBooking(accepted.state, newId, Some(passengerId), Some(Cancelled));
            && posted.out.Ok? && accepted.out.Ok? && cancelled.out.Ok?
            && posted.state.rides[rideId].seatsAvailable == s.rides[rideId].seatsAvailable - k
            && accepted.state.rides == posted.state.rides
            && cancelled.state.bookings[newId].status == Cancelled
            && cancelled.state.rides == s.rides
  {
    var ride := s.rides[rideId];
    var posted := Routes.PostBookings(s, SeatRequest(rideId, passengerId, k), newId);
    assert posted.state.bookings[newId] == PendingBooking(ValidBooking(rideId, passengerId, k));
    var accepted := Routes.PatchBooking(posted.state, newId, Some(ride.driverId), Some(Accepted));
    assert accepted.state.bookings[newId].status == Accepted;
    var cancelled := Routes.PatchBooking(accepted.state, newId, Some(passengerId), Some(Cancelled));
    assert cancelled.state.rides[rideId] == ride;
    assert cancelled.state.rides == s.rides;
  }

  /** Reserving k seats and the driver rejecting leaves the ride k seats
      short: the rejected booking holds nothing, yet the seats stay taken. */
  lemma ReserveRejectLeaks(s: State, rideId: Id, passengerId: Id, k: int, newId: Id)
    requires rideId in s.rides && 1 <= k <= s.rides[rideId].seatsAvailable && newId !in s.bookings
    requires rideId != "" && passengerId != ""
    ensures var posted := Routes.PostBookings(s, SeatRequest(rideId, passengerId, k), newId);
            var rejected := Routes.PatchBooking(posted.state, newId, Some(s.rides[rideId].driverId), Some(Rejected));
            && posted.out.Ok? && rejected.out.Ok?
            && rejected.state.bookings[newId].status == Rejected
            && rejected.state.rides == posted.state.rides
            && rejected.state.rides[rideId].seatsAvailable == s.rides[rideId].seatsAvailable - k
  {
    var posted := Routes.PostBookings(s, SeatRequest(rideId, passengerId, k), newId);
    assert posted.state.bookings[newId].status == Pending;
  }

  /** The passenger cancelling a booking that is still pending gives no
      seats back either. */
  lemma PendingCancelLeaks(s: State, bookingId: Id)
    requires bookingId in s.bookings && s.bookings[bookingId].status == Pending
    requires s.bookings[bookingId].rideId in s.rides
    ensures var r := Routes.PatchBooking(s, bookingId, Some(s.bookings[bookingId].passengerId), Some(Cancelled));
            r.out.Ok? && r.out.body.status == Cancelled && r.state.rides == s.rides
  {
  }

  /** Whoever asks, a second cancel changes nothing: the booking is no
      longer accepted, so no seats come back twice. */
  lemma CancelTwiceAddsNothing(s: State, bookingId: Id, userId: Option<Id>)
    ensures var first := Routes.PatchBooking(s, bookingId, userId, Some(Cancelled));
            var second := Routes.PatchBooking(first.state, bookingId, userId, Some(Cancelled));
            first.out.Ok? ==> second.out.Ok? && second.state == first.state
  {
    var first := Routes.PatchBooking(s, bookingId, userId, Some(Cancelled));
    if first.out.Ok? {
      assert first.state.bookings[bookingId] == s.bookings[bookingId].(status := Cancelled);
      var second := Routes.PatchBooking(first.state, bookingId, userId, Some(Cancelled));
      assert second.state.rides == first.state.rides;
      assert second.state.bookings == first.state.bookings;
    }
  }

  /** Nothing stops the driver from accepting a cancelled booking; the
      passenger can then cancel it again and collect its seats a second
      time. */
  lemma ReacceptThenCancelAddsSeats(s: State, bookingId: Id)
    requires bookingId in s.bookings && s.bookings[bookingId].status == Cancelled
    requires s.bookings[bookingId].rideId in s.rides
    ensures var b := s.bookings[bookingId];
            var ride := s.rides[b.rideId];
            var accepted := Routes.PatchBooking(s, bookingId, Some(ride.driverId), Some(Accepted));
            var cancelled := Routes.PatchBooking(accepted.state, bookingId, Some(b.passengerId), Some(Cancelled));
            && accepted.out.Ok? && accepted.state.rides == s.rides
            && cancelled.out.Ok?
            && cancelled.state.rides[b.rideId] == ride.(seatsAvailable := ride.seatsAvailable + b.seatsBooked)
  {
    var b := s.bookings[bookingId];
    var accepted := Routes.PatchBooking(s, bookingId, Some(s.rides[b.rideId].driverId), Some(Accepted));
    assert accepted.state.bookings[bookingId] == b.(status := Accepted);
  }

  /** Reserve, accept, cancel, accept again, cancel again: a ride that
      started full of free seats ends with k more free seats than it has. */
  lemma AcceptAfterCancelOverflows(s: State, rideId: Id, passengerId: Id, k: int, newId: Id)
    requires rideId in s.rides && 1 <= k <= s.rides[rideId].seatsAvailable && newId !in s.bookings
    requires rideId != "" && passengerId != ""
    requires s.rides[rideId].seatsAvailable == s.rides[rideId].seatsTotal
    ensures var driver := Some(s.rides[rideId].driverId);
            var posted := Routes.PostBookings(s, SeatRequest(rideId, passengerId, k), newId);
            var accepted := Routes.PatchBooking(posted.state, newId, driver, Some(Accepted));
            var cancelled := Routes.PatchBooking(accepted.state, newId, Some(passengerId), Some(Cancelled));
            var reaccepted := Routes.PatchBooking(cancelled.state, newId, driver, Some(Accepted));
            var recancelled := Routes.PatchBooking(reaccepted.state, newId, Some(passengerId), Some(Cancelled));
            && recancelled.out.Ok? && rideId in recancelled.state.rides
            && recancelled.state.rides[rideId].seatsAvailable == s.rides[rideId].seatsTotal + k
            && recancelled.state.rides[rideId].seatsAvailable > recancelled.state.rides[rideId].seatsTotal
  {
    var driver := Some(s.rides[rideId].driverId);
    ReserveAcceptCancelRestores(s, rideId, passengerId, k, newId);
    var posted := Routes.PostBookings(s, SeatRequest(rideId, passengerId, k), newId);
    var accepted := Routes.PatchBooking(posted.state, newId, driver, Some(Accepted));
    var cancelled := Routes.PatchBooking(accepted.state, newId, Some(passengerId), Some(Cancelled));
    assert cancelled.state.bookings[newId] == PendingBooking(ValidBooking(rideId, passengerId, k)).(status := Cancelled);
    assert cancelled.state.rides == s.rides;
    ReacceptThenCancelAddsSeats(cancelled.state, newId);
    var reaccepted := Routes.PatchBooking(cancelled.state, newId, driver, Some(Accepted));
    var recancelled := Routes.PatchBooking(reaccepted.state, newId, Some(passengerId), Some(Cancelled));
    assert recancelled.state.rides[rideId] == s.rides[rideId].(seatsAvailable := s.rides[rideId].seatsAvailable + k);
  }

  /** A ride of two seats: A takes both; B is refused; the driver rejects A;
      B asks again and is still refused, because the rejection gave nothing
      back. */
  lemma TwoSeatRideAfterReject(s: State, rideId: Id, a: Id, b: Id, idA: Id, idB1: Id, idB2: Id)
    requires rideId in s.rides && s.rides[rideId].seatsAvailable == 2
    requires idA !in s.bookings && idB1 !in s.bookings && idB2 !in s.bookings
    requires rideId != "" && a != "" && b != ""
    ensures var postA := Routes.PostBookings(s, SeatRequest(rideId, a, 2), idA);
            var postB := Routes.PostBookings(postA.state, SeatRequest(rideId, b, 1), idB1);
            var reject := Routes.PatchBooking(postB.state, idA, Some(s.rides[rideId].driverId), Some(Rejected));
            var retry := Routes.PostBookings(reject.state, SeatRequest(rideId, b, 1), idB2);
            && postA.out.Ok? && postA.state.rides[rideId].seatsAvailable == 0
            && postB.out == Err(RideUnavailable) && postB.state == postA.state
            && reject.out.Ok? && reject.state.bookings[idA].status == Rejected
            && reject.state.rides[rideId].seatsAvailable == 0
            && retry.out == Err(RideUnavailable) && retry.state == reject.state
  {
    var postA := Routes.PostBookings(s, SeatRequest(rideId, a, 2), idA);
    assert postA.state.bookings[idA].status == Pending;
  }

  /** A body with an empty passengerId passes the request schema, so the
      Express handler takes the seats before the Booking schema refuses the
      insert: a 400 with the seats gone and no booking. The Next.js handler
      has reserved nothing and answers 500, the store unchanged. */
  lemma EmptyPassengerTakesSeats(s: State, rideId: Id, k: int, newId: Id)
    requires rideId in s.rides && 1 <= k <= s.rides[rideId].seatsAvailable
    ensures var express := Routes.PostBookings(s, SeatRequest(rideId, "", k), newId);
            && express.out == Err(BookingFailed) && express.out.failure.Code() == 400
            && express.state.bookings == s.bookings
            && express.state.rides[rideId].seatsAvailable == s.rides[rideId].seatsAvailable - k
    ensures var next := NextBookings.HandleBookings(s, NextBookings.Post, SeatRequest(rideId, "", k), newId);
            next == Step(s, Err(ServerError(BookingInvalid))) && next.out.failure.Code() == 500
  {
    assert !BookingDocValid(PendingBooking(ValidBooking(rideId, "", k)));
  }

  // ---------------------------------------------------------------------
  // Authorisation
  // ---------------------------------------------------------------------

  /** The driver of the ride may not cancel a passenger's booking. */
  lemma DriverCannotCancel(s: State, bookingId: Id)
    requires bookingId in s.bookings && s.bookings[bookingId].rideId in s.rides
    requires s.rides[s.bookings[bookingId].rideId].driverId != s.bookings[bookingId].passengerId
    ensures var r := Routes.PatchBooking(s, bookingId, Some(s.rides[s.bookings[bookingId].rideId].driverId), Some(Cancelled));
            r == Step(s, Err(NotBookingPassenger)) && r.out.failure.Code() == 403
  {
  }

  /** Nothing checks the current status: the driver may accept or reject a
      booking in any state, and a rejected or cancelled one comes back. */
  lemma DriverMayDecideAnyBooking(s: State, bookingId: Id, decision: BookingStatus)
    requires decision == Accepted || decision == Rejected
    requires bookingId in s.bookings && s.bookings[bookingId].rideId in s.rides
    ensures var r := Routes.PatchBooking(s, bookingId, Some(s.rides[s.bookings[bookingId].rideId].driverId), Some(decision));
            r.out.Ok? && r.out.body == s.bookings[bookingId].(status := decision) && r.state.rides == s.rides
  {
  }

  /** A body without a status, or with pending or a name outside the
      enum, passes every check whatever the caller: the booking is written
      as it is asked and no seats move. */
  lemma UncheckedStatusesPass(s: State, bookingId: Id, userId: Option<Id>, status: Option<StatusName>)
    requires status.None? || Routes.Asks(status, Pending) || (status.Some? && status.value.Unlisted?)
    requires bookingId in s.bookings && s.bookings[bookingId].rideId in s.rides
    ensures var r := Routes.PatchBooking(s, bookingId, userId, status);
            && r.out.Ok?
            && r.out.body.status == (if status.Some? then status.value else s.bookings[bookingId].status)
            && r.state.rides == s.rides
  {
  }

  // ---------------------------------------------------------------------
  // Deleting rides and users
  // ---------------------------------------------------------------------

  /** A ride with one pending and one accepted booking is deleted: both
      bookings end rejected, the ride is gone, no other ride changes. */
  lemma DeleteRideWithTwoBookings(s: State, rideId: Id, pending: Id, accepted: Id)
    requires rideId in s.rides && pending in s.bookings && accepted in s.bookings
    requires s.bookings[pending].rideId == rideId && s.bookings[pending].status == Pending
    requires s.bookings[accepted].rideId == rideId && s.bookings[accepted].status == Accepted
    ensures var r := Routes.DeleteRideRoute(s, rideId);
            && r.out == Ok(true)
            && rideId !in r.state.rides
            && r.state.bookings[pending] == s.bookings[pending].(status := Rejected)
            && r.state.bookings[accepted] == s.bookings[accepted].(status := Rejected)
            && (forall id :: id in r.state.rides ==> r.state.rides[id] == s.rides[id])
            && (forall b :: b in r.state.bookings && r.state.bookings[b].rideId == rideId ==>
                  !r.state.bookings[b].status.Live())
  {
  }

  /** Bookings left behind by a ride that is already gone are rejected by
      a delete of that ride, which still answers 404. */
  lemma DeleteMissingRideRejectsOrphans(s: State, rideId: Id, orphan: Id)
    requires rideId !in s.rides
    requires orphan in s.bookings && s.bookings[orphan].rideId == rideId && s.bookings[orphan].status.Live()
    ensures var r := Routes.DeleteRideRoute(s, rideId);
            r.out == Err(RideNotFound) && r.state.rides == s.rides &&
            r.state.bookings[orphan].status == Rejected
  {
  }

  /** Deleting a passenger deletes their bookings, and the seats those
      bookings held stay taken on rides of other drivers. */
  lemma DeletedPassengerKeepsSeats(s: State, uid: Id, bookingId: Id)
    requires bookingId in s.bookings && s.bookings[bookingId].passengerId == uid
    requires s.bookings[bookingId].rideId in s.rides && s.rides[s.bookings[bookingId].rideId].driverId != uid
    ensures var r := DeleteUser(s, uid);
            var rideId := s.bookings[bookingId].rideId;
            bookingId !in r.state.bookings && rideId in r.state.rides && r.state.rides[rideId] == s.rides[rideId]
  {
  }

  // ---------------------------------------------------------------------
  // The Next.js handler against the Express one
  // ---------------------------------------------------------------------

  /** On a ride with one free seat, two one-seat POSTs to the Next.js
      handler both succeed and the ride still shows one free seat; the
      Express handler refuses the second. */
  lemma NextOversubscribes(s: State, rideId: Id, a: Id, b: Id, id1: Id, id2: Id)
    requires rideId in s.rides && s.rides[rideId].seatsAvailable == 1
    requires id1 != id2 && id1 !in s.bookings && id2 !in s.bookings
    requires rideId != "" && a != "" && b != ""
    ensures var first := NextBookings.HandleBookings(s, NextBookings.Post, SeatRequest(rideId, a, 1), id1);
            var second := NextBookings.HandleBookings(first.state, NextBookings.Post, SeatRequest(rideId, b, 1), id2);
            && first.out.Ok? && second.out.Ok?
            && second.state.rides == s.rides
            && second.state.bookings[id1].status == Pending && second.state.bookings[id1].rideId == rideId
            && second.state.bookings[id2].status == Pending && second.state.bookings[id2].rideId == rideId
    ensures var first := Routes.PostBookings(s, SeatRequest(rideId, a, 1), id1);
            var second := Routes.PostBookings(first.state, SeatRequest(rideId, b, 1), id2);
            first.out.Ok? && second.out == Err(RideUnavailable)
  {
    var first := NextBookings.HandleBookings(s, NextBookings.Post, SeatRequest(rideId, a, 1), id1);
    assert first.state.bookings[id1].status == Pending;
  }

  /** The Next.js handler accepts a request for exactly the free seats and
      refuses one seat more with "Only N seats available". */
  lemma NextCapacityBoundary(s: State, rideId: Id, passengerId: Id, newId: Id)
    requires rideId in s.rides && s.rides[rideId].seatsAvailable >= 1 && newId !in s.bookings
    requires rideId != "" && passengerId != ""
    ensures var n := s.rides[rideId].seatsAvailable;
            && NextBookings.HandleBookings(s, NextBookings.Post, SeatRequest(rideId, passengerId, n), newId).out.Ok?
            && NextBookings.HandleBookings(s, NextBookings.Post, SeatRequest(rideId, passengerId, n + 1), newId)
                 == Step(s, Err(OnlySeatsAvailable(n)))
  {
  }

  // ---------------------------------------------------------------------
  // Unread counters
  // ---------------------------------------------------------------------

  /** The driver writes to the passenger and the passenger reads: the
      passenger's counter goes up by one and back to zero, the driver's is
      never touched. */
  lemma DriverMessageThenRead(s: State, messageId: Id, bookingId: Id, content: string, now: int, later: int)
    requires messageId !in s.messages && bookingId in s.bookings && s.bookings[bookingId].rideId in s.rides
    requires s.rides[s.bookings[bookingId].rideId].driverId != s.bookings[bookingId].passengerId
    requires bookingId != "" && s.rides[s.bookings[bookingId].rideId].driverId != "" && content != ""
    ensures var b := s.bookings[bookingId];
            var driver := s.rides[b.rideId].driverId;
            var sent := CreateMessage(s, messageId, bookingId, driver, content, None, None, now);
            var read := MarkMessagesRead(sent.state, bookingId, b.passengerId, later);
            && sent.out.Returned?
            && sent.state.bookings[bookingId].unreadCount[b.passengerId] ==
                 (if b.passengerId in b.unreadCount then b.unreadCount[b.passengerId] else 0) + 1
            && read.bookings[bookingId].unreadCount[b.passengerId] == 0
            && (driver in read.bookings[bookingId].unreadCount <==> driver in b.unreadCount)
            && (driver in b.unreadCount ==> read.bookings[bookingId].unreadCount[driver] == b.unreadCount[driver])
            && read.messages[messageId].isRead
            && ReadMark(b.passengerId, later) in read.messages[messageId].readBy
  {
    var b := s.bookings[bookingId];
    var driver := s.rides[b.rideId].driverId;
    var sent := CreateMessage(s, messageId, bookingId, driver, content, None, None, now);
    assert sent.state.messages[messageId].senderId == driver;
    assert ReadableBy(sent.state.messages[messageId], bookingId, b.passengerId);
  }

  /** Reading twice leaves two read marks of the same reader on a message:
      each mark is a new subdocument, so `$addToSet` never finds it there. */
  lemma ReadTwiceAddsTwoMarks(s: State, messageId: Id, bookingId: Id, reader: Id, at: int)
    requires messageId in s.messages && ReadableBy(s.messages[messageId], bookingId, reader)
    ensures var once := MarkMessagesRead(s, bookingId, reader, at);
            var twice := MarkMessagesRead(once, bookingId, reader, at);
            twice.messages[messageId].readBy == s.messages[messageId].readBy + [ReadMark(reader, at), ReadMark(reader, at)]
  {
    var once := MarkMessagesRead(s, bookingId, reader, at);
    assert ReadableBy(once.messages[messageId], bookingId, reader);
  }
}
