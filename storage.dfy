/** The storage layer: one object holding the document collections, whose
    methods change them in place. Each method is proved to leave the store
    in the state, and to return the value, that the matching Ledger
    function describes. */
module Storage {
  import opened Ledger
  import Sums

  /** A notification the publish/subscribe service accepted. */
  datatype Notice = Notice(channel: string, event: string)

  class Store {
    var rides: map<Id, Ride>
    var bookings: map<Id, Booking>
    var messages: map<Id, Message>
    var users: map<Id, User>
    var vehicles: map<Id, Vehicle>
    var reviews: map<Id, Review>
    /** Every notification accepted so far; nothing in the ledger reads it. */
    ghost var outbox: seq<Notice>

    /** The collections as one value. */
    function Snapshot(): Ledger.State
      reads this
    {
      Ledger.State(rides, bookings, messages, users, vehicles, reviews)
    }

    constructor (initial: Ledger.State)
      ensures Snapshot() == initial && outbox == []
    {
      rides, bookings, messages := initial.rides, initial.bookings, initial.messages;
      users, vehicles, reviews := initial.users, initial.vehicles, initial.reviews;
      outbox := [];
    }

    /** One publish call: it is accepted when the notifier is up and throws
        otherwise; the caller's `catch` decides what a throw skips. */
    method Publish(n: Notice, notifierUp: bool) returns (accepted: bool)
      modifies this
      ensures accepted == notifierUp
      ensures outbox == old(outbox) + (if notifierUp then [n] else [])
      ensures Snapshot() == old(Snapshot())
    {
      accepted := notifierUp;
      if notifierUp {
        outbox := outbox + [n];
      }
    }

    method UpdateRideAtomic(id: Id, seatDelta: int) returns (ride: Option<Ride>)
      modifies this
      ensures Step(Snapshot(), ride) == Ledger.UpdateRideAtomic(old(Snapshot()), id, seatDelta)
      ensures outbox == old(outbox)
    {
      // One conditional update: the filter and the increment are a single step.
      if AtomicGuard(rides, id, seatDelta) {
        var updated := rides[id].(seatsAvailable := rides[id].seatsAvailable + seatDelta);
        rides := rides[id := updated];
        ride := Some(updated);
      } else {
        ride := None;
      }
    }

    method UpdateRide(id: Id, p: RidePatch) returns (ride: Option<Ride>)
      modifies this
      ensures Step(Snapshot(), ride) == Ledger.UpdateRide(old(Snapshot()), id, p)
      ensures outbox == old(outbox)
    {
      if id in rides {
        var updated := Patched(rides[id], p);
        rides := rides[id := updated];
        ride := Some(updated);
      } else {
        ride := None;
      }
    }

    method CreateBooking(id: Id, b: Booking) returns (created: Attempt<Booking>)
      modifies this
      ensures Step(Snapshot(), created) == Ledger.CreateBooking(old(Snapshot()), id, b)
      ensures outbox == old(outbox)
    {
      if !BookingDocValid(b) {
        created := Threw(BookingInvalid);
      } else if id in bookings {
        created := Threw(DuplicateKey);
      } else {
        bookings := bookings[id := b];
        created := Returned(b);
      }
    }

    method UpdateBooking(id: Id, status: Option<BookingStatus>) returns (booking: Option<Booking>)
      modifies this
      ensures Step(Snapshot(), booking) == Ledger.UpdateBooking(old(Snapshot()), id, status)
      ensures outbox == old(outbox)
    {
      if id !in bookings {
        return None;
      }
      var existing := bookings[id];
      var updated := existing.(status := if status.Some? then status.value else existing.status);
      bookings := bookings[id := updated];
      booking := Some(updated);
      if updated.rideId in rides {
        var ride := rides[updated.rideId];
        if status == Some(Cancelled) && existing.status == Accepted {
          var _ := UpdateRide(updated.rideId, RidePatch(None, None, Some(ride.seatsAvailable + updated.seatsBooked), None, None));
        }
      }
    }

    method DeleteRide(id: Id) returns (deleted: bool)
      modifies this
      ensures Step(Snapshot(), deleted) == Ledger.DeleteRide(old(Snapshot()), id)
      ensures outbox == old(outbox)
    {
      var fetched := bookings;
      var found := BookingsOn(fetched, id);
      var todo := found;
      while todo != {}
        invariant todo <= found
        invariant rides == old(rides) && messages == old(messages) && users == old(users)
        invariant vehicles == old(vehicles) && reviews == old(reviews) && outbox == old(outbox)
        invariant bookings.Keys == fetched.Keys
        invariant forall b :: b in fetched ==>
                    bookings[b] == if b in todo then fetched[b] else RejectLiveOn(fetched, {id})[b]
        decreases todo
      {
        var b :| b in todo;
        if fetched[b].status == Pending || fetched[b].status == Accepted {
          bookings := bookings[b := bookings[b].(status := Rejected)];
        }
        todo := todo - {b};
      }
      assert bookings == RejectLiveOn(fetched, {id});
      deleted := id in rides;
      rides := rides - {id};
    }

    /** The `driverRides.map(ride => this.deleteRide(ride._id))` part of
        deleteUser, one ride after another. */
    method DeleteRides(driven: set<Id>)
      modifies this
      ensures rides == old(rides) - driven
      ensures bookings == RejectLiveOn(old(bookings), driven)
      ensures messages == old(messages) && users == old(users)
      ensures vehicles == old(vehicles) && reviews == old(reviews) && outbox == old(outbox)
    {
      var todo := driven;
      assert bookings == RejectLiveOn(old(bookings), {});
      while todo != {}
        invariant todo <= driven
        invariant rides == old(rides) - (driven - todo)
        invariant bookings == RejectLiveOn(old(bookings), driven - todo)
        invariant messages == old(messages) && users == old(users)
        invariant vehicles == old(vehicles) && reviews == old(reviews) && outbox == old(outbox)
        decreases todo
      {
        var r :| r in todo;
        ghost var before := bookings;
        var _ := DeleteRide(r);
        assert bookings == RejectLiveOn(before, {r});
        RejectLiveOnGrows(old(bookings), driven - todo, r);
        assert driven - (todo - {r}) == (driven - todo) + {r};
        todo := todo - {r};
      }
    }

    method DeleteUser(uid: Id) returns (deleted: bool)
      modifies this
      ensures Step(Snapshot(), deleted) == Ledger.DeleteUser(old(Snapshot()), uid)
      ensures outbox == old(outbox)
    {
      var driven := DriverRides(rides, uid);
      DeleteRides(driven);
      bookings := map b | b in bookings && bookings[b].passengerId != uid :: bookings[b];
      vehicles := map v | v in vehicles && vehicles[v].ownerId != uid :: vehicles[v];
      reviews := map w | w in reviews && reviews[w].reviewerId != uid && reviews[w].revieweeId != uid :: reviews[w];
      deleted := uid in users;
      users := users - {uid};
    }

    /** The seats that `reduce` adds up for one ride's accepted bookings. */
    method SumBilledSeats(ids: set<Id>) returns (sum: int)
      ensures sum == Sums.Total(ids, SeatWeight(bookings))
    {
      sum := 0;
      var todo := ids;
      while todo != {}
        invariant todo <= ids
        invariant sum + Sums.Total(todo, SeatWeight(bookings)) == Sums.Total(ids, SeatWeight(bookings))
        decreases todo
      {
        var b :| b in todo;
        Sums.TotalRemove(todo, SeatWeight(bookings), b);
        sum := sum + (if b in bookings then BilledSeats(bookings[b]) else 0);
        todo := todo - {b};
      }
    }

    method GetDriverStats(driverId: Id) returns (stats: DriverStats)
      ensures stats == DriverStatsOf(Snapshot(), driverId)
    {
      var driven := DriverRides(rides, driverId);
      var activeRides := |set id | id in driven && rides[id].isActive|;
      var totalBookings := 0;
      var totalEarnings := 0;
      var todo := driven;
      while todo != {}
        invariant todo <= driven
        invariant totalBookings + Sums.Total(todo, CountWeight(bookings)) == Sums.Total(driven, CountWeight(bookings))
        invariant totalEarnings + Sums.Total(todo, EarningsWeight(Snapshot())) == Sums.Total(driven, EarningsWeight(Snapshot()))
        decreases todo
      {
        var r :| r in todo;
        var accepted := AcceptedOn(bookings, r);
        totalBookings := totalBookings + |accepted|;
        var seats := SumBilledSeats(accepted);
        totalEarnings := totalEarnings + seats * rides[r].costPerSeat;
        Sums.TotalRemove(todo, CountWeight(bookings), r);
        Sums.TotalRemove(todo, EarningsWeight(Snapshot()), r);
        todo := todo - {r};
      }
      stats := DriverStats(|driven|, activeRides, totalBookings, totalEarnings);
    }

    method CreateMessage(messageId: Id, bookingId: Id, senderId: Id, content: string,
                         messageType: Option<string>, fileUrl: Option<string>, now: int) returns (sent: Attempt<Message>)
      modifies this
      ensures Step(Snapshot(), sent) ==
              Ledger.CreateMessage(old(Snapshot()), messageId, bookingId, senderId, content, messageType, fileUrl, now)
      ensures outbox == old(outbox)
    {
      if !MessageDocValid(bookingId, senderId, content, messageType) {
        return Threw(MessageInvalid);
      }
      if messageId in messages {
        return Threw(DuplicateKey);
      }
      var msg := Message(bookingId, senderId, content, TypeOrText(messageType), fileUrl, false, [], now);
      messages := messages[messageId := msg];
      if bookingId in bookings {
        var booking := bookings[bookingId];
        if booking.rideId !in rides {
          return Threw(NullRide);
        }
        var receiver := Receiver(rides[booking.rideId], booking, senderId);
        var last := LastMessage(Some(if messageType == Some("image") then ImageLabel else content),
                                Some(senderId), Some(now), TypeOrText(messageType));
        bookings := bookings[bookingId := booking.(lastMessage := Some(last), unreadCount := Bump(booking.unreadCount, receiver))];
      }
      sent := Returned(msg);
    }

    method MarkMessagesRead(bookingId: Id, userId: Id, now: int)
      modifies this
      ensures Snapshot() == Ledger.MarkMessagesRead(old(Snapshot()), bookingId, userId, now)
      ensures outbox == old(outbox)
    {
      // One multi-document update over the booking's messages the reader did not send.
      messages := map m | m in messages ::
        if ReadableBy(messages[m], bookingId, userId)
        then messages[m].(readBy := AddReadMark(messages[m].readBy, ReadMark(userId, now)), isRead := true)
        else messages[m];
      if bookingId in bookings {
        bookings := bookings[bookingId := bookings[bookingId].(unreadCount := bookings[bookingId].unreadCount[userId := 0])];
      }
    }
  }
}
