/** The booking request body that both booking endpoints validate with the
    same schema, and the replies the HTTP handlers send. */
module Requests {
  import opened Ledger

  /** The `seatsBooked` field of a request body as the validator sees it:
      missing, a number, or anything else. */
  datatype SeatsField = Absent | Number(n: int) | NotANumber

  /** A request body; a field that is missing or not a string is None. */
  datatype BookingRequest = BookingRequest(rideId: Option<Id>, passengerId: Option<Id>, seatsBooked: SeatsField)

  datatype ValidBooking = ValidBooking(rideId: Id, passengerId: Id, seatsBooked: int)

  /** The schema `{ rideId: string, passengerId: string,
      seatsBooked: number, at least 1, default 1 }`. */
  function ParseBooking(req: BookingRequest): (r: Option<ValidBooking>)
    ensures r.Some? <==>
              && req.rideId.Some? && req.passengerId.Some?
              && (req.seatsBooked.Absent? || (req.seatsBooked.Number? && req.seatsBooked.n >= 1))
    ensures r.Some? ==>
              && r.value.rideId == req.rideId.value
              && r.value.passengerId == req.passengerId.value
              && r.value.seatsBooked >= 1
    ensures r.Some? && req.seatsBooked.Absent? ==> r.value.seatsBooked == 1
    ensures r.Some? && req.seatsBooked.Number? ==> r.value.seatsBooked == req.seatsBooked.n
  {
    if req.rideId.None? || req.passengerId.None? then None
    else
      match req.seatsBooked
      case Absent => Some(ValidBooking(req.rideId.value, req.passengerId.value, 1))
      case Number(n) => if n >= 1 then Some(ValidBooking(req.rideId.value, req.passengerId.value, n)) else None
      case NotANumber => None
  }

  /** The booking both endpoints insert for a valid request, with the
      schema's defaults applied: no unread counters, and a `lastMessage`
      holding only its default `messageType`. */
  function PendingBooking(v: ValidBooking): (b: Booking)
    ensures b.status == Pending && b.rideId == v.rideId && b.passengerId == v.passengerId
    ensures b.seatsBooked == v.seatsBooked && b.unreadCount == map[]
    ensures b.lastMessage == Some(NoLastMessage)
    ensures BookingDocValid(b) <==> v.rideId != "" && v.passengerId != ""
  {
    Booking(v.rideId, v.passengerId, Pending, v.seatsBooked, map[], Some(NoLastMessage))
  }

  /** The ride exists and has at least the seats the request asks for:
      the condition both booking endpoints test before they insert. */
  predicate Reservable(s: State, v: ValidBooking) {
    v.rideId in s.rides && s.rides[v.rideId].seatsAvailable >= v.seatsBooked
  }

  /** The insert of the pending booking for v succeeds: the schema
      accepts it and its id is free. */
  predicate Insertable(s: State, newId: Id, v: ValidBooking) {
    BookingDocValid(PendingBooking(v)) && newId !in s.bookings
  }

  /** Why a handler answered with an error. */
  datatype Failure =
    | InvalidBody
    | RideUnavailable
    | BookingFailed
    | BookingNotFound
    | RideNotFound
    | NotRideDriver
    | NotBookingPassenger
    | NotAuthorized
    | OnlySeatsAvailable(available: int)
    | MethodNotAllowed
    | ServerError(message: string)
  {
    /** The HTTP status code of the error response. */
    function Code(): (r: int)
      ensures 400 <= r < 600
      ensures r == 500 <==> ServerError?
    {
      match this
      case InvalidBody => 400
      case RideUnavailable => 400
      case BookingFailed => 400
      case OnlySeatsAvailable(_) => 400
      case BookingNotFound => 404
      case RideNotFound => 404
      case NotRideDriver => 403
      case NotBookingPassenger => 403
      case NotAuthorized => 403
      case MethodNotAllowed => 405
      case ServerError(_) => 500
    }

    /** The `message` of the error response. The validator's own wording
        for an invalid body is not part of this model. */
    function Text(): (r: string)
      ensures r != ""
    {
      match this
      case InvalidBody => "Validation error"
      case RideUnavailable => "Ride not found or not enough seats available"
      case BookingFailed => "Booking failed"
      case OnlySeatsAvailable(n) => "Only " + IntToString(n) + " seats available"
      case BookingNotFound => "Booking not found"
      case RideNotFound => "Ride not found"
      case NotRideDriver => "Only drivers can accept/reject bookings"
      case NotBookingPassenger => "Only passengers can cancel their own bookings"
      case NotAuthorized => "Not authorized"
      case MethodNotAllowed => "Method not allowed"
      case ServerError(m) => if m == "" then "Booking failed" else m
    }
  }

  /** A 200 response with a body, or an error response. */
  datatype Reply<T> = Ok(body: T) | Err(failure: Failure)

  function DigitChar(d: nat): (c: char)
    requires d < 10
    ensures '0' <= c <= '9' && c as int - '0' as int == d
  {
    ('0' as int + d) as char
  }

  /** The number a string of decimal digits denotes. */
  ghost function DecimalValue(t: string): int
    decreases |t|
  {
    if t == [] then 0 else DecimalValue(t[..|t| - 1]) * 10 + (t[|t| - 1] as int - '0' as int)
  }

  /** The decimal digits of n, as a template literal prints an integer
      below 10^21: they denote n, and only 0 itself starts with the digit 0. */
  function Digits(n: nat): (r: string)
    ensures |r| >= 1
    ensures forall i :: 0 <= i < |r| ==> '0' <= r[i] <= '9'
    ensures DecimalValue(r) == n
    ensures r[0] == '0' <==> n == 0
    decreases n
  {
    if n < 10 then [DigitChar(n)]
    else
      var r := Digits(n / 10) + [DigitChar(n % 10)];
      assert r[..|r| - 1] == Digits(n / 10);
      r
  }

  /** An integer as a template literal prints it (below 10^21 in absolute
      value): a minus sign before the digits of a negative number. */
  function IntToString(i: int): (r: string)
    ensures |r| >= 1
    ensures i < 0 <==> r[0] == '-'
    ensures forall k :: (if i < 0 then 1 else 0) <= k < |r| ==> '0' <= r[k] <= '9'
    ensures i >= 0 ==> DecimalValue(r) == i && (|r| > 1 ==> r[0] != '0')
    ensures i < 0 ==> |r| >= 2 && DecimalValue(r[1..]) == -i && r[1] != '0'
  {
    if i < 0 then "-" + Digits(-i) else Digits(i)
  }
}
