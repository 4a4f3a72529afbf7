/** What every request keeps: no ride's free seats below zero and every
    booking asking for at least one seat; that a run of Express POSTs never
    hands out more seats than a ride had; and the bounds of the driver
    statistics. */
module Soundness {
  import opened Ledger
  import opened Requests
  import Routes
  import NextBookings
  import Sums

  ghost predicate Sound(s: State) {
    && (forall r :: r in s.rides ==> s.rides[r].seatsAvailable >= 0)
    && (forall b :: b in s.bookings ==> s.bookings[b].seatsBooked >= 1)
  }

  /** Every request that changes the ledger: the Express handlers, the
      Next.js booking handler, and the storage calls of the user and chat
      endpoints. */
  datatype Operation =
    | ExpressPostBooking(req: BookingRequest, newId: Id)
    | ExpressPatchBooking(bookingId: Id, userId: Option<Id>, status: Option<StatusName>)
    | ExpressRideStatus(rideId: Id, rideStatus: Option<RideStatusName>)
    | ExpressRideLocation(rideId: Id, lat: Option<real>, lng: Option<real>, caller: Option<Id>)
    | ExpressDeleteRide(rideId: Id)
    | NextBookingRequest(verb: NextBookings.Verb, body: BookingRequest, bookingId: Id)
    | RemoveUser(uid: Id)
    | SendMessage(messageId: Id, chat: Id, senderId: Id, content: string,
                  messageType: Option<string>, fileUrl: Option<string>, now: int)
    | ReadMessages(chat: Id, reader: Id, at: int)

  function Apply(s: State, op: Operation): State {
    match op
    case ExpressPostBooking(req, newId) => Routes.PostBookings(s, req, newId).state
    case ExpressPatchBooking(id, userId, status) => Routes.PatchBooking(s, id, userId, status).state
    case ExpressRideStatus(id, status) => Routes.PatchRideStatus(s, id, status).state
    case ExpressRideLocation(id, lat, lng, caller) => Routes.PatchRideLocation(s, id, lat, lng, caller).state
    case ExpressDeleteRide(id) => Routes.DeleteRideRoute(s, id).state
    case NextBookingRequest(verb, body, id) => NextBookings.HandleBookings(s, verb, body, id).state
    case RemoveUser(uid) => DeleteUser(s, uid).state
    case SendMessage(m, chat, sender, content, kind, url, now) => CreateMessage(s, m, chat, sender, content, kind, url, now).state
    case ReadMessages(chat, reader, at) => MarkMessagesRead(s, chat, reader, at)
  }

  function Run(s: State, ops: seq<Operation>): State
    decreases |ops|
  {
    if ops == [] then s else Run(Apply(s, ops[0]), ops[1..])
  }

  /** Each request keeps the state sound. A cancel gives back seats it
      never took away from a ride, so free seats can grow past the ride's
      total (see Scenarios), but never drop below zero. */
  lemma ApplySound(s: State, op: Operation)
    requires Sound(s)
    ensures Sound(Apply(s, op))
  {
    match op
    case ExpressPostBooking(req, newId) => PostSound(s, req, newId);
    case ExpressPatchBooking(id, userId, status) => PatchSound(s, id, userId, status);
    case ExpressRideStatus(id, status) =>
    case ExpressRideLocation(id, lat, lng, caller) =>
    case ExpressDeleteRide(id) =>
    case NextBookingRequest(verb, body, id) => NextSound(s, verb, body, id);
    case RemoveUser(uid) => RemoveUserSound(s, uid);
    case SendMessage(m, chat, sender, content, kind, url, now) => MessageSound(s, m, chat, sender, content, kind, url, now);
    case ReadMessages(chat, reader, at) =>
  }

  lemma PatchSound(s: State, bookingId: Id, userId: Option<Id>, status: Option<StatusName>)
    requires Sound(s)
    ensures Sound(Routes.PatchBooking(s, bookingId, userId, status).state)
  {
    var r := Routes.PatchBooking(s, bookingId, userId, status);
    if r.out.Ok? {
      forall rid | rid in r.state.rides ensures r.state.rides[rid].seatsAvailable >= 0 {
        assert rid in s.rides;
      }
    }
  }

  lemma RemoveUserSound(s: State, uid: Id)
    requires Sound(s)
    ensures Sound(DeleteUser(s, uid).state)
  {
    var r := DeleteUser(s, uid);
    forall b | b in r.state.bookings ensures r.state.bookings[b].seatsBooked >= 1 {
      assert r.state.bookings[b] == RejectLiveOn(s.bookings, DriverRides(s.rides, uid))[b];
    }
  }

  lemma PostSound(s: State, req: BookingRequest, newId: Id)
    requires Sound(s)
    ensures Sound(Routes.PostBookings(s, req, newId).state)
  {
  }

  lemma NextSound(s: State, verb: NextBookings.Verb, req: BookingRequest, newId: Id)
    requires Sound(s)
    ensures Sound(NextBookings.HandleBookings(s, verb, req, newId).state)
  {
  }

  lemma MessageSound(s: State, messageId: Id, bookingId: Id, senderId: Id, content: string,
                     messageType: Option<string>, fileUrl: Option<string>, now: int)
    requires Sound(s)
    ensures Sound(CreateMessage(s, messageId, bookingId, senderId, content, messageType, fileUrl, now).state)
  {
  }

  /** Any sequence of requests keeps the state sound. */
  lemma {:induction false} RunSound(s: State, ops: seq<Operation>)
    requires Sound(s)
    ensures Sound(Run(s, ops))
    decreases |ops|
  {
    if ops != [] {
      ApplySound(s, ops[0]);
      RunSound(Apply(s, ops[0]), ops[1..]);
    }
  }

  // ---------------------------------------------------------------------
  // No overbooking through the Express POST
  // ---------------------------------------------------------------------

  datatype PostCall = PostCall(req: BookingRequest, newId: Id)

  function RunPosts(s: State, posts: seq<PostCall>): State
    decreases |posts|
  {
    if posts == [] then s
    else RunPosts(Routes.PostBookings(s, posts[0].req, posts[0].newId).state, posts[1..])
  }

  /** The seats of the bookings a run of POSTs created on one ride. */
  function Granted(s: State, posts: seq<PostCall>, rideId: Id): int
    decreases |posts|
  {
    if posts == [] then 0
    else
      var step := Routes.PostBookings(s, posts[0].req, posts[0].newId);
      (if step.out.Ok? && step.out.body.rideId == rideId then step.out.body.seatsBooked else 0)
        + Granted(step.state, posts[1..], rideId)
  }

  /** However the POSTs for a ride are interleaved with POSTs for others,
      the seats granted on it never exceed its free seats at the start, and
      its free seats never drop below zero. */
  lemma {:induction false} PostsNeverOverbook(s: State, posts: seq<PostCall>, rideId: Id)
    requires rideId in s.rides && s.rides[rideId].seatsAvailable >= 0
    ensures var final := RunPosts(s, posts);
            && rideId in final.rides
            && final.rides[rideId].seatsAvailable >= 0
            && final.rides[rideId].seatsAvailable + Granted(s, posts, rideId) <= s.rides[rideId].seatsAvailable
            && 0 <= Granted(s, posts, rideId) <= s.rides[rideId].seatsAvailable
    decreases |posts|
  {
    if posts != [] {
      var step := Routes.PostBookings(s, posts[0].req, posts[0].newId);
      assert step.state.rides[rideId].seatsAvailable +
               (if step.out.Ok? && step.out.body.rideId == rideId then step.out.body.seatsBooked else 0)
             <= s.rides[rideId].seatsAvailable;
      PostsNeverOverbook(step.state, posts[1..], rideId);
    }
  }

  // ---------------------------------------------------------------------
  // getDriverStats
  // ---------------------------------------------------------------------

  /** A driver's active rides are among their rides. */
  lemma ActiveRidesAtMostTotal(s: State, driverId: Id)
    ensures DriverStatsOf(s, driverId).activeRides <= DriverStatsOf(s, driverId).totalRides
  {
    var driven := DriverRides(s.rides, driverId);
    var active := set id | id in driven && s.rides[id].isActive;
    assert active <= driven;
    SubsetCardinality(active, driven);
  }

  lemma {:induction false} SubsetCardinality<T>(a: set<T>, b: set<T>)
    requires a <= b
    ensures |a| <= |b|
    decreases |b|
  {
    if b != {} {
      var x :| x in b;
      SubsetCardinality(a - {x}, b - {x});
    }
  }

  /** A driver with no rides has nothing to report. */
  lemma NoRidesNoStats(s: State, driverId: Id)
    requires forall id :: id in s.rides ==> s.rides[id].driverId != driverId
    ensures DriverStatsOf(s, driverId) == DriverStats(0, 0, 0, 0)
  {
    assert DriverRides(s.rides, driverId) == {};
  }

  /** On a sound state whose driver charges a non-negative price, bookings
      and earnings are never negative. */
  lemma StatsNonNegative(s: State, driverId: Id)
    requires Sound(s)
    requires forall id :: id in s.rides && s.rides[id].driverId == driverId ==> s.rides[id].costPerSeat >= 0
    ensures DriverStatsOf(s, driverId).totalBookings >= 0
    ensures DriverStatsOf(s, driverId).totalEarnings >= 0
  {
    var driven := DriverRides(s.rides, driverId);
    Sums.TotalNonNegative(driven, CountWeight(s.bookings));
    forall r | r in driven ensures EarningsWeight(s)(r) >= 0 {
      var accepted := AcceptedOn(s.bookings, r);
      forall b | b in accepted ensures SeatWeight(s.bookings)(b) >= 0 {
      }
      Sums.TotalNonNegative(accepted, SeatWeight(s.bookings));
    }
    Sums.TotalNonNegative(driven, EarningsWeight(s));
  }

  /** An accepted booking counts toward its driver's bookings; accepting
      one more pending booking raises totalBookings by exactly one. */
  lemma AcceptCountsOneBooking(s: State, bookingId: Id)
    requires bookingId in s.bookings && s.bookings[bookingId].status == Pending
    requires s.bookings[bookingId].rideId in s.rides
    ensures var driver := s.rides[s.bookings[bookingId].rideId].driverId;
            var r := Routes.PatchBooking(s, bookingId, Some(driver), Some(Accepted));
            r.out.Ok? &&
            DriverStatsOf(r.state, driver).totalBookings == DriverStatsOf(s, driver).totalBookings + 1
  {
    var b := s.bookings[bookingId];
    var driver := s.rides[b.rideId].driverId;
    var r := Routes.PatchBooking(s, bookingId, Some(driver), Some(Accepted));
    assert r.state == s.(bookings := s.bookings[bookingId := b.(status := Accepted)]);
    var driven := DriverRides(s.rides, driver);
    assert DriverRides(r.state.rides, driver) == driven;
    var before := CountWeight(s.bookings);
    var after := CountWeight(r.state.bookings);
    assert AcceptedOn(r.state.bookings, b.rideId) == AcceptedOn(s.bookings, b.rideId) + {bookingId};
    assert after(b.rideId) == before(b.rideId) + 1;
    var rest := driven - {b.rideId};
    forall x | x in rest ensures after(x) == before(x) {
      assert AcceptedOn(r.state.bookings, x) == AcceptedOn(s.bookings, x);
    }
    Sums.TotalCongruent(rest, after, before);
    Sums.TotalRemove(driven, after, b.rideId);
    Sums.TotalRemove(driven, before, b.rideId);
  }
}
