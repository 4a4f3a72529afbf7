/** The documents of the carpooling store and every storage operation of
    the seat ledger as a function from one state of the store to the next.
    The class Storage.Store performs the same operations in place and is
    proved to agree with these functions; the modules Scenarios,
    Conservation and Soundness reason about sequences of them. */
module Ledger {
  import Sums

  type Id = string

  datatype Option<T> = None | Some(value: T)

  /** A storage call that returns a value or throws; `Threw` carries the
      error's message. */
  datatype Attempt<T> = Returned(value: T) | Threw(reason: string)

  // ---------------------------------------------------------------------
  // Documents
  // ---------------------------------------------------------------------

  /** A booking's status. `Unlisted` is a status string outside the enum
      of the Booking schema: findByIdAndUpdate runs no validators, so such
      a string is stored as it is. */
  datatype BookingStatus = Pending | Accepted | Rejected | Cancelled | Unlisted(name: string)
  {
    /** A booking that still holds (or asks for) seats on its ride. */
    predicate Live() { this == Pending || this == Accepted }

    /** Each status string has one representation: `Unlisted` never
        carries one of the enum's names. */
    predicate Canonical() {
      Unlisted? ==> name !in {"pending", "accepted", "rejected", "cancelled"}
    }
  }

  /** A status as a request names it: one representation per string. */
  type StatusName = s: BookingStatus | s.Canonical() witness Pending

  /** A ride's status; `UnlistedRide` as for bookings. */
  datatype RideStatus = Scheduled | Ongoing | Completed | UnlistedRide(name: string)
  {
    /** `UnlistedRide` never carries one of the enum's names. */
    predicate Canonical() {
      UnlistedRide? ==> name !in {"scheduled", "ongoing", "completed"}
    }
  }

  type RideStatusName = s: RideStatus | s.Canonical() witness Scheduled

  /** Coordinates, stored as JavaScript doubles, are exact reals here; the
      ledger only stores and returns them. */
  datatype Ride = Ride(
    driverId: Id,
    vehicleId: Option<Id>,
    departureTime: int,
    seatsTotal: int,
    seatsAvailable: int,
    costPerSeat: int,
    isActive: bool,
    status: RideStatus,
    currentLat: Option<real>,
    currentLng: Option<real>)

  /** The nested `lastMessage` of a booking. Its `messageType` has a
      default, so a booking created without one already carries
      `{ messageType: "text" }`; the other fields are then missing (None). */
  datatype LastMessage = LastMessage(content: Option<string>, senderId: Option<Id>, timestamp: Option<int>, messageType: string)

  const NoLastMessage := LastMessage(None, None, None, "text")

  datatype Booking = Booking(
    rideId: Id,
    passengerId: Id,
    status: BookingStatus,
    seatsBooked: int,
    unreadCount: map<Id, int>,
    lastMessage: Option<LastMessage>)

  datatype ReadMark = ReadMark(userId: Id, readAt: int)

  datatype Message = Message(
    bookingId: Id,
    senderId: Id,
    content: string,
    messageType: string,
    fileUrl: Option<string>,
    isRead: bool,
    readBy: seq<ReadMark>,
    createdAt: int)

  datatype User = User(
    name: string,
    email: string,
    password: string,
    role: string,
    avatar: Option<string>,
    phone: Option<string>,
    cnic: Option<string>,
    cnicStatus: string,
    isAdmin: bool,
    clerkId: Option<string>)

  datatype Vehicle = Vehicle(ownerId: Id, model: string, plate: string, color: string, seats: int)

  datatype Review = Review(rideId: Id, reviewerId: Id, revieweeId: Id, rating: int, comment: Option<string>)

  /** The collections of the document store, each keyed by document id. */
  datatype State = State(
    rides: map<Id, Ride>,
    bookings: map<Id, Booking>,
    messages: map<Id, Message>,
    users: map<Id, User>,
    vehicles: map<Id, Vehicle>,
    reviews: map<Id, Review>)

  /** The state after a storage call, and what the call returned. */
  datatype Step<T> = Step(state: State, out: T)

  function Lookup<V>(m: map<Id, V>, k: Id): (r: Option<V>)
    ensures r.Some? <==> k in m
    ensures r.Some? ==> r.value == m[k]
  {
    if k in m then Some(m[k]) else None
  }

  /** JavaScript truthiness of an optional string: missing and "" are false. */
  predicate Truthy(o: Option<string>) {
    o.Some? && o.value != ""
  }

  // ---------------------------------------------------------------------
  // Pure helpers: mapDoc, stripPassword, getSafeDriver
  // ---------------------------------------------------------------------

  /** mapDoc on one document, seen as its field map: a missing document
      stays missing, `_id` is renamed to `id`, `__v` is dropped. */
  function MapDoc<V>(doc: Option<map<string, V>>): (r: Option<map<string, V>>)
    ensures r.None? <==> doc.None?
    ensures r.Some? ==> "_id" !in r.value && "__v" !in r.value
    ensures r.Some? && "_id" in doc.value ==> "id" in r.value && r.value["id"] == doc.value["_id"]
    ensures r.Some? && "_id" !in doc.value ==>
              ("id" in r.value <==> "id" in doc.value) &&
              ("id" in r.value ==> r.value["id"] == doc.value["id"])
    ensures r.Some? ==> forall k :: k in doc.value && k != "_id" && k != "__v" && k != "id" ==>
              k in r.value && r.value[k] == doc.value[k]
    ensures r.Some? ==> forall k :: k in r.value ==> k in doc.value || k == "id"
  {
    match doc
    case None => None
    case Some(obj) =>
      var renamed := if "_id" in obj then (obj - {"_id"})["id" := obj["_id"]] else obj;
      Some(renamed - {"__v"})
  }

  /** A user as the API returns it. `password` is absent (None) once it has
      been stripped; the placeholder driver carries an empty one. */
  datatype UserView = UserView(
    id: Id,
    name: string,
    email: string,
    role: string,
    cnicStatus: string,
    isAdmin: bool,
    clerkId: Option<string>,
    avatar: Option<string>,
    phone: Option<string>,
    cnic: Option<string>,
    password: Option<string>)

  function StripPassword(id: Id, u: User): (r: UserView)
    ensures r.password.None? && r.id == id
    ensures r.name == u.name && r.email == u.email && r.role == u.role && r.cnicStatus == u.cnicStatus
    ensures r.isAdmin == u.isAdmin && r.clerkId == u.clerkId && r.avatar == u.avatar
    ensures r.phone == u.phone && r.cnic == u.cnic
  {
    UserView(id, u.name, u.email, u.role, u.cnicStatus, u.isAdmin, u.clerkId, u.avatar, u.phone, u.cnic, None)
  }

  const UnknownDriverName := "Unknown Driver"
  const MissingEmail := "missing@data.com"

  /** The driver shown for a ride: the stored driver without a password,
      or a placeholder when the driver document is gone. */
  function GetSafeDriver(driver: Option<User>, driverId: Id): (r: UserView)
    ensures r.id == driverId
    ensures r.password.None? <==> driver.Some?
    ensures r.password.None? || r.password == Some("")
    ensures driver.Some? ==> r == StripPassword(driverId, driver.value)
    ensures driver.None? ==> r.name == UnknownDriverName && r.email == MissingEmail && r.role == "driver"
                             && r.cnicStatus == "not_uploaded" && !r.isAdmin
                             && r.clerkId.None? && r.avatar.None? && r.phone.None? && r.cnic.None?
  {
    match driver
    case Some(u) => StripPassword(driverId, u)
    case None =>
      UserView(driverId, UnknownDriverName, MissingEmail, "driver", "not_uploaded", false,
               None, None, None, None, Some(""))
  }

  // ---------------------------------------------------------------------
  // getAllRides: the active-ride listing
  // ---------------------------------------------------------------------

  datatype RideWithDriver = RideWithDriver(ride: Ride, driver: UserView, vehicle: Option<Vehicle>, bookingsCount: nat)

  /** Every booking on a ride, whatever its status. */
  function BookingsOn(bookings: map<Id, Booking>, rideId: Id): (r: set<Id>)
    ensures forall b :: b in r <==> b in bookings && bookings[b].rideId == rideId
  {
    set b | b in bookings && bookings[b].rideId == rideId
  }

  function VehicleOf(s: State, ride: Ride): (r: Option<Vehicle>)
    ensures r.Some? <==> Truthy(ride.vehicleId) && ride.vehicleId.value in s.vehicles
    ensures r.Some? ==> r.value == s.vehicles[ride.vehicleId.value]
  {
    if Truthy(ride.vehicleId) then Lookup(s.vehicles, ride.vehicleId.value) else None
  }

  /** The listing getAllRides builds, keyed by ride id: the active rides
      only, each with its driver, its vehicle and its number of bookings. */
  function ListRides(s: State): (r: map<Id, RideWithDriver>)
    ensures forall id :: id in r <==> id in s.rides && s.rides[id].isActive
    ensures forall id :: id in r ==>
              && r[id].ride == s.rides[id]
              && r[id].bookingsCount == |BookingsOn(s.bookings, id)|
              && r[id].driver == GetSafeDriver(Lookup(s.users, s.rides[id].driverId), s.rides[id].driverId)
              && r[id].vehicle == VehicleOf(s, s.rides[id])
  {
    map id | id in s.rides && s.rides[id].isActive ::
      var ride := s.rides[id];
      RideWithDriver(ride, GetSafeDriver(Lookup(s.users, ride.driverId), ride.driverId),
                     VehicleOf(s, ride), |BookingsOn(s.bookings, id)|)
  }

  // ---------------------------------------------------------------------
  // Rides: updateRideAtomic and updateRide
  // ---------------------------------------------------------------------

  function Abs(x: int): (r: nat)
    ensures r == x || r == -x
  {
    if x < 0 then -x else x
  }

  /** The filter of updateRideAtomic's findOneAndUpdate: the ride exists
      and, when seats are taken away, has at least as many as are taken. */
  predicate AtomicGuard(rides: map<Id, Ride>, id: Id, seatDelta: int) {
    id in rides && (seatDelta < 0 ==> rides[id].seatsAvailable >= Abs(seatDelta))
  }

  /** updateRideAtomic: one conditional `$inc` of seatsAvailable. */
  function UpdateRideAtomic(s: State, id: Id, seatDelta: int): (r: Step<Option<Ride>>)
    ensures r.out.Some? <==> id in s.rides && (seatDelta >= 0 || s.rides[id].seatsAvailable >= -seatDelta)
    ensures r.out.None? ==> r.state == s
    ensures r.out.Some? ==>
              && r.out.value.seatsAvailable == s.rides[id].seatsAvailable + seatDelta
              && r.out.value == s.rides[id].(seatsAvailable := r.out.value.seatsAvailable)
              && r.state == s.(rides := s.rides[id := r.out.value])
    ensures r.out.Some? && seatDelta < 0 ==> r.out.value.seatsAvailable >= 0
  {
    if AtomicGuard(s.rides, id, seatDelta) then
      var ride := s.rides[id].(seatsAvailable := s.rides[id].seatsAvailable + seatDelta);
      Step(s.(rides := s.rides[id := ride]), Some(ride))
    else
      Step(s, None)
  }

  /** The fields of a ride an update may set; None leaves a field as it is
      (Mongoose drops undefined keys from an update). */
  datatype RidePatch = RidePatch(
    status: Option<RideStatus>,
    isActive: Option<bool>,
    seatsAvailable: Option<int>,
    currentLat: Option<real>,
    currentLng: Option<real>)

  function Patched(ride: Ride, p: RidePatch): (r: Ride)
    ensures r.driverId == ride.driverId && r.vehicleId == ride.vehicleId
    ensures r.departureTime == ride.departureTime && r.seatsTotal == ride.seatsTotal
    ensures r.costPerSeat == ride.costPerSeat
    ensures r.status == if p.status.Some? then p.status.value else ride.status
    ensures r.isActive == if p.isActive.Some? then p.isActive.value else ride.isActive
    ensures r.seatsAvailable == if p.seatsAvailable.Some? then p.seatsAvailable.value else ride.seatsAvailable
    ensures r.currentLat == if p.currentLat.Some? then p.currentLat else ride.currentLat
    ensures r.currentLng == if p.currentLng.Some? then p.currentLng else ride.currentLng
  {
    ride.(
      status := if p.status.Some? then p.status.value else ride.status,
      isActive := if p.isActive.Some? then p.isActive.value else ride.isActive,
      seatsAvailable := if p.seatsAvailable.Some? then p.seatsAvailable.value else ride.seatsAvailable,
      currentLat := if p.currentLat.Some? then p.currentLat else ride.currentLat,
      currentLng := if p.currentLng.Some? then p.currentLng else ride.currentLng)
  }

  /** updateRide: findByIdAndUpdate with `new: true`. */
  function UpdateRide(s: State, id: Id, p: RidePatch): (r: Step<Option<Ride>>)
    ensures r.out.Some? <==> id in s.rides
    ensures r.out.None? ==> r.state == s
    ensures r.out.Some? ==> r.out.value == Patched(s.rides[id], p) && r.state == s.(rides := s.rides[id := r.out.value])
  {
    if id in s.rides then
      var ride := Patched(s.rides[id], p);
      Step(s.(rides := s.rides[id := ride]), Some(ride))
    else
      Step(s, None)
  }

  // ---------------------------------------------------------------------
  // Bookings: createBooking and updateBooking
  // ---------------------------------------------------------------------

  const DuplicateKey := "E11000 duplicate key error"

  const BookingInvalid := "Booking validation failed"

  /** The checks the Booking schema runs on create: `rideId` and
      `passengerId` are required strings (an empty string fails a required
      path) and the status is one of the enum. */
  predicate BookingDocValid(b: Booking) {
    b.rideId != "" && b.passengerId != "" && !b.status.Unlisted?
  }

  /** createBooking: validate the document, then insert it under a fresh
      id; the id stands for a random UUID. A document the schema refuses
      and an id that is taken both make the call throw and write nothing. */
  function CreateBooking(s: State, id: Id, b: Booking): (r: Step<Attempt<Booking>>)
    ensures r.out.Returned? <==> BookingDocValid(b) && id !in s.bookings
    ensures r.out.Threw? ==> r.state == s
    ensures !BookingDocValid(b) ==> r.out == Threw(BookingInvalid)
    ensures BookingDocValid(b) && id in s.bookings ==> r.out == Threw(DuplicateKey)
    ensures r.out.Returned? ==> r.out.value == b && r.state == s.(bookings := s.bookings[id := b])
  {
    if !BookingDocValid(b) then Step(s, Threw(BookingInvalid))
    else if id in s.bookings then Step(s, Threw(DuplicateKey))
    else Step(s.(bookings := s.bookings[id := b]), Returned(b))
  }

  /** The one case in which updateBooking gives seats back. */
  predicate ReleasesSeats(before: BookingStatus, requested: Option<BookingStatus>) {
    requested == Some(Cancelled) && before == Accepted
  }

  /** updateBooking: write the requested status whatever the current one
      is, then give the booking's seats back to its ride only on
      accepted -> cancelled (a read of the ride followed by a write). */
  function UpdateBooking(s: State, id: Id, status: Option<BookingStatus>): (r: Step<Option<Booking>>)
    ensures r.out.None? <==> id !in s.bookings
    ensures r.out.None? ==> r.state == s
    ensures r.out.Some? ==>
              && r.out.value == s.bookings[id].(status := if status.Some? then status.value else s.bookings[id].status)
              && r.state.bookings == s.bookings[id := r.out.value]
              && r.state.messages == s.messages && r.state.users == s.users
              && r.state.vehicles == s.vehicles && r.state.reviews == s.reviews
              && r.state.rides.Keys == s.rides.Keys
    ensures r.out.Some? ==> forall rid :: rid in s.rides ==>
              r.state.rides[rid] ==
                if rid == s.bookings[id].rideId && ReleasesSeats(s.bookings[id].status, status)
                then s.rides[rid].(seatsAvailable := s.rides[rid].seatsAvailable + s.bookings[id].seatsBooked)
                else s.rides[rid]
  {
    if id !in s.bookings then Step(s, None)
    else
      var existing := s.bookings[id];
      var booking := existing.(status := if status.Some? then status.value else existing.status);
      var s1 := s.(bookings := s.bookings[id := booking]);
      if booking.rideId in s1.rides && ReleasesSeats(existing.status, status) then
        var ride := s1.rides[booking.rideId];
        var s2 := UpdateRide(s1, booking.rideId,
                             RidePatch(None, None, Some(ride.seatsAvailable + booking.seatsBooked), None, None)).state;
        Step(s2, Some(booking))
      else
        Step(s1, Some(booking))
  }

  // ---------------------------------------------------------------------
  // deleteRide and deleteUser: the cascades
  // ---------------------------------------------------------------------

  /** The cascade of deleteRide over a set of rides: every pending or
      accepted booking of those rides is set to rejected. */
  function RejectLiveOn(bookings: map<Id, Booking>, rideIds: set<Id>): (r: map<Id, Booking>)
    ensures r.Keys == bookings.Keys
    ensures forall b :: b in bookings ==> r[b] == bookings[b].(status := r[b].status)
    ensures forall b :: b in bookings && bookings[b].rideId in rideIds && bookings[b].status.Live() ==>
              r[b].status == Rejected
    ensures forall b :: b in bookings && !(bookings[b].rideId in rideIds && bookings[b].status.Live()) ==>
              r[b] == bookings[b]
    ensures forall b :: b in r && r[b].rideId in rideIds ==> !r[b].status.Live()
  {
    map b | b in bookings ::
      if bookings[b].rideId in rideIds && bookings[b].status.Live() then bookings[b].(status := Rejected)
      else bookings[b]
  }

  /** Running the cascade for one more ride after a set of rides is the
      cascade for the larger set: what lets deleteUser call deleteRide ride
      by ride. */
  lemma RejectLiveOnGrows(bookings: map<Id, Booking>, done: set<Id>, r: Id)
    ensures RejectLiveOn(RejectLiveOn(bookings, done), {r}) == RejectLiveOn(bookings, done + {r})
  {
    var once := RejectLiveOn(bookings, done);
    var next := RejectLiveOn(once, {r});
    var all := RejectLiveOn(bookings, done + {r});
    forall b | b in bookings ensures next[b] == all[b] {
      assert once[b].rideId == bookings[b].rideId;
    }
    assert next.Keys == all.Keys;
  }

  /** deleteRide: reject the live bookings of the ride (even when the ride
      itself is already gone), remove the ride, report whether it existed.
      No seats are given back. */
  function DeleteRide(s: State, id: Id): (r: Step<bool>)
    ensures r.out <==> id in s.rides
    ensures r.state.rides == s.rides - {id}
    ensures r.state.bookings == RejectLiveOn(s.bookings, {id})
    ensures r.state.messages == s.messages && r.state.users == s.users
    ensures r.state.vehicles == s.vehicles && r.state.reviews == s.reviews
  {
    Step(s.(rides := s.rides - {id}, bookings := RejectLiveOn(s.bookings, {id})), id in s.rides)
  }

  /** The rides a user drives. */
  function DriverRides(rides: map<Id, Ride>, driverId: Id): (r: set<Id>)
    ensures forall id :: id in r <==> id in rides && rides[id].driverId == driverId
  {
    set id | id in rides && rides[id].driverId == driverId
  }

  /** deleteUser: delete (with the deleteRide cascade) every ride the user
      drives, delete the user's bookings as a passenger, their vehicles,
      every review they wrote or received, then the user; report whether
      the user existed. Messages are kept and no seats are given back. */
  function DeleteUser(s: State, uid: Id): (r: Step<bool>)
    ensures r.out <==> uid in s.users
    ensures r.state.users == s.users - {uid}
    ensures r.state.messages == s.messages
    ensures forall id :: id in r.state.rides <==> id in s.rides && s.rides[id].driverId != uid
    ensures forall id :: id in r.state.rides ==> r.state.rides[id] == s.rides[id]
    ensures forall b :: b in r.state.bookings <==> b in s.bookings && s.bookings[b].passengerId != uid
    ensures forall b :: b in r.state.bookings ==>
              r.state.bookings[b] == RejectLiveOn(s.bookings, DriverRides(s.rides, uid))[b]
    ensures forall v :: v in r.state.vehicles <==> v in s.vehicles && s.vehicles[v].ownerId != uid
    ensures forall v :: v in r.state.vehicles ==> r.state.vehicles[v] == s.vehicles[v]
    ensures forall w :: w in r.state.reviews <==>
              w in s.reviews && s.reviews[w].reviewerId != uid && s.reviews[w].revieweeId != uid
    ensures forall w :: w in r.state.reviews ==> r.state.reviews[w] == s.reviews[w]
  {
    var driven := DriverRides(s.rides, uid);
    var rejected := RejectLiveOn(s.bookings, driven);
    Step(State(
           s.rides - driven,
           map b | b in rejected && rejected[b].passengerId != uid :: rejected[b],
           s.messages,
           s.users - {uid},
           map v | v in s.vehicles && s.vehicles[v].ownerId != uid :: s.vehicles[v],
           map w | w in s.reviews && s.reviews[w].reviewerId != uid && s.reviews[w].revieweeId != uid :: s.reviews[w]),
         uid in s.users)
  }

  // ---------------------------------------------------------------------
  // getDriverStats
  // ---------------------------------------------------------------------

  /** averageRating is not part of this model (float division). */
  datatype DriverStats = DriverStats(totalRides: int, activeRides: int, totalBookings: int, totalEarnings: int)

  function AcceptedOn(bookings: map<Id, Booking>, rideId: Id): (r: set<Id>)
    ensures forall b :: b in r <==> b in bookings && bookings[b].rideId == rideId && bookings[b].status == Accepted
  {
    set b | b in bookings && bookings[b].rideId == rideId && bookings[b].status == Accepted
  }

  /** `b.seatsBooked || 1`: a zero seat count is billed as one seat. */
  function BilledSeats(b: Booking): (r: int)
    ensures b.seatsBooked != 0 ==> r == b.seatsBooked
    ensures b.seatsBooked == 0 ==> r == 1
  {
    if b.seatsBooked == 0 then 1 else b.seatsBooked
  }

  function SeatWeight(bookings: map<Id, Booking>): Id -> int {
    b => if b in bookings then BilledSeats(bookings[b]) else 0
  }

  function CountWeight(bookings: map<Id, Booking>): Id -> int {
    r => |AcceptedOn(bookings, r)|
  }

  /** A ride's earnings: its accepted seats times its price per seat. */
  ghost function RideEarnings(s: State, rideId: Id): int {
    if rideId in s.rides
    then Sums.Total(AcceptedOn(s.bookings, rideId), SeatWeight(s.bookings)) * s.rides[rideId].costPerSeat
    else 0
  }

  ghost function EarningsWeight(s: State): Id -> int {
    r => RideEarnings(s, r)
  }

  /** What getDriverStats reports: the driver's rides, the active ones,
      the accepted bookings on them, and the earnings from those. */
  ghost function DriverStatsOf(s: State, driverId: Id): DriverStats {
    var driven := DriverRides(s.rides, driverId);
    DriverStats(
      |driven|,
      |set id | id in driven && s.rides[id].isActive|,
      Sums.Total(driven, CountWeight(s.bookings)),
      Sums.Total(driven, EarningsWeight(s)))
  }

  // ---------------------------------------------------------------------
  // Chat: createMessage and markMessagesRead
  // ---------------------------------------------------------------------

  /** `messageType || 'text'`. */
  function TypeOrText(messageType: Option<string>): (r: string)
    ensures Truthy(messageType) ==> r == messageType.value
    ensures !Truthy(messageType) ==> r == "text"
  {
    if Truthy(messageType) then messageType.value else "text"
  }

  const ImageLabel := "\U{1F4F7} Image"

  /** The participant who did not send: the passenger when the driver
      sends, the driver otherwise (a third party's message goes to the
      driver). */
  function Receiver(ride: Ride, booking: Booking, senderId: Id): (r: Id)
    ensures senderId == ride.driverId ==> r == booking.passengerId
    ensures senderId != ride.driverId ==> r == ride.driverId
  {
    if senderId == ride.driverId then booking.passengerId else ride.driverId
  }

  /** `$inc` of one counter: a counter that is not there starts at 0. */
  function Bump(counts: map<Id, int>, k: Id): (r: map<Id, int>)
    ensures k in r && r[k] == (if k in counts then counts[k] else 0) + 1
    ensures forall u :: u != k ==> (u in r <==> u in counts) && (u in r ==> r[u] == counts[u])
  {
    counts[k := (if k in counts then counts[k] else 0) + 1]
  }

  const NullRide := "Cannot read properties of null (reading 'driverId')"
  const MessageInvalid := "Message validation failed"

  /** The checks the Message schema runs on create: `bookingId`,
      `senderId` and `content` are required strings, and the message type
      (after the `'text'` default) is one of the enum. */
  predicate MessageDocValid(bookingId: Id, senderId: Id, content: string, messageType: Option<string>) {
    bookingId != "" && senderId != "" && content != "" && TypeOrText(messageType) in {"text", "image", "file"}
  }

  /** The message is valid and its id is free: the insert succeeds. */
  predicate MessageStored(s: State, messageId: Id, bookingId: Id, senderId: Id, content: string, messageType: Option<string>) {
    MessageDocValid(bookingId, senderId, content, messageType) && messageId !in s.messages
  }

  /** createMessage: store the message, then, when its booking exists,
      record it as the booking's last message and bump the receiver's
      unread counter. A message the schema refuses, or a taken id, throws
      before anything is written; a booking whose ride is gone makes the
      call throw after the message is stored. */
  function CreateMessage(s: State, messageId: Id, bookingId: Id, senderId: Id, content: string,
                         messageType: Option<string>, fileUrl: Option<string>, now: int): (r: Step<Attempt<Message>>)
    ensures !MessageDocValid(bookingId, senderId, content, messageType) ==> r == Step(s, Threw(MessageInvalid))
    ensures MessageDocValid(bookingId, senderId, content, messageType) && messageId in s.messages ==>
              r == Step(s, Threw(DuplicateKey))
    ensures MessageStored(s, messageId, bookingId, senderId, content, messageType) ==>
              var msg := Message(bookingId, senderId, content, TypeOrText(messageType), fileUrl, false, [], now);
              && r.state.messages == s.messages[messageId := msg]
              && r.state.rides == s.rides && r.state.users == s.users
              && r.state.vehicles == s.vehicles && r.state.reviews == s.reviews
              && r.state.bookings.Keys == s.bookings.Keys
              && (forall b :: b in s.bookings && b != bookingId ==> r.state.bookings[b] == s.bookings[b])
              && (r.out.Threw? <==> bookingId in s.bookings && s.bookings[bookingId].rideId !in s.rides)
              && (r.out.Returned? ==> r.out.value == msg)
    ensures !MessageStored(s, messageId, bookingId, senderId, content, messageType) ||
            bookingId !in s.bookings || s.bookings[bookingId].rideId !in s.rides ==>
              r.state.bookings == s.bookings
    ensures MessageStored(s, messageId, bookingId, senderId, content, messageType) &&
            bookingId in s.bookings && s.bookings[bookingId].rideId in s.rides ==>
              var b := s.bookings[bookingId];
              var receiver := Receiver(s.rides[b.rideId], b, senderId);
              var b' := r.state.bookings[bookingId];
              && b' == b.(unreadCount := b'.unreadCount, lastMessage := b'.lastMessage)
              && b'.unreadCount == Bump(b.unreadCount, receiver)
              && b'.lastMessage == Some(LastMessage(Some(if messageType == Some("image") then ImageLabel else content),
                                                    Some(senderId), Some(now), TypeOrText(messageType)))
  {
    if !MessageDocValid(bookingId, senderId, content, messageType) then Step(s, Threw(MessageInvalid))
    else if messageId in s.messages then Step(s, Threw(DuplicateKey))
    else
      var msg := Message(bookingId, senderId, content, TypeOrText(messageType), fileUrl, false, [], now);
      var s1 := s.(messages := s.messages[messageId := msg]);
      if bookingId !in s.bookings then Step(s1, Returned(msg))
      else
        var booking := s.bookings[bookingId];
        if booking.rideId !in s.rides then Step(s1, Threw(NullRide))
        else
          var receiver := Receiver(s.rides[booking.rideId], booking, senderId);
          var last := LastMessage(Some(if messageType == Some("image") then ImageLabel else content),
                                  Some(senderId), Some(now), TypeOrText(messageType));
          var updated := booking.(lastMessage := Some(last), unreadCount := Bump(booking.unreadCount, receiver));
          Step(s1.(bookings := s.bookings[bookingId := updated]), Returned(msg))
  }

  /** `$addToSet` of a read mark: each mark is cast to a subdocument with
      an `_id` of its own, so it never equals a mark already there and is
      always appended, even when the same reader marked it before. */
  function AddReadMark(readBy: seq<ReadMark>, mark: ReadMark): (r: seq<ReadMark>)
    ensures |r| == |readBy| + 1 && r[..|readBy|] == readBy && r[|readBy|] == mark
  {
    readBy + [mark]
  }

  /** One message of the booking not sent by the reader. */
  predicate ReadableBy(m: Message, bookingId: Id, userId: Id) {
    m.bookingId == bookingId && m.senderId != userId
  }

  /** markMessagesRead: mark as read by `userId` every message of the
      booking that `userId` did not send, and reset only `userId`'s unread
      counter on the booking. */
  function MarkMessagesRead(s: State, bookingId: Id, userId: Id, now: int): (r: State)
    ensures r.messages.Keys == s.messages.Keys
    ensures forall m :: m in s.messages && ReadableBy(s.messages[m], bookingId, userId) ==>
              && r.messages[m] == s.messages[m].(isRead := true, readBy := r.messages[m].readBy)
              && r.messages[m].readBy == AddReadMark(s.messages[m].readBy, ReadMark(userId, now))
    ensures forall m :: m in s.messages && !ReadableBy(s.messages[m], bookingId, userId) ==>
              r.messages[m] == s.messages[m]
    ensures bookingId !in s.bookings ==> r.bookings == s.bookings
    ensures bookingId in s.bookings ==>
              var b := s.bookings[bookingId];
              && bookingId in r.bookings
              && r.bookings == s.bookings[bookingId := b.(unreadCount := r.bookings[bookingId].unreadCount)]
              && userId in r.bookings[bookingId].unreadCount && r.bookings[bookingId].unreadCount[userId] == 0
              && forall u :: u != userId ==>
                   (u in r.bookings[bookingId].unreadCount <==> u in b.unreadCount) &&
                   (u in b.unreadCount ==> r.bookings[bookingId].unreadCount[u] == b.unreadCount[u])
    ensures r.rides == s.rides && r.users == s.users && r.vehicles == s.vehicles && r.reviews == s.reviews
  {
    var messages := map m | m in s.messages ::
      if ReadableBy(s.messages[m], bookingId, userId)
      then s.messages[m].(readBy := AddReadMark(s.messages[m].readBy, ReadMark(userId, now)), isRead := true)
      else s.messages[m];
    var bookings :=
      if bookingId in s.bookings
      then s.bookings[bookingId := s.bookings[bookingId].(unreadCount := s.bookings[bookingId].unreadCount[userId := 0])]
      else s.bookings;
    s.(messages := messages, bookings := bookings)
  }
}
