# UniPool seat ledger in Dafny

UniPool is a carpooling service. Drivers post rides with a number of seats,
passengers book seats, drivers accept or reject bookings, and passengers
cancel them. This project models the part of the service that keeps the
books: how a ride's `seatsAvailable` counter and its bookings' `status`
fields change together. It covers:

- the MongoDB storage layer (`MongoStorage`);
- the Express handlers for bookings and rides;
- the second, Next.js booking handler;
- the cascades when a ride or a user is deleted;
- the unread-message counters of the booking chat;
- the driver statistics.

The model follows what the code does, not an idealised ledger. The lemmas
show where the two differ.

Modules:

- `Sums` (`sums.dfy`): sums of a weight over a finite set, the shape of every
  `reduce` and `+=` over query results, with the lemma that the order of
  summation does not matter.
- `Ledger` (`ledger.dfy`): the documents (rides, bookings, messages, users,
  vehicles, reviews) and every storage operation as a function from one state
  of the store to the next (`Step`). Storage calls that can throw return an
  `Attempt`.
- `Requests` (`requests.dfy`): the booking body schema shared by both booking
  endpoints, and the error replies with their HTTP codes and messages.
- `Storage` (`storage.dfy`): the class `Store`. Its map fields are updated in
  place by methods with `modifies` clauses. Each method is proved to end in
  the state, and return the value, that the matching `Ledger` function gives.
  The loops of `deleteRide`, `deleteUser` and `getDriverStats` carry their
  invariants. Notifications go to a ghost `outbox`, and a `notifierUp`
  parameter decides whether a publish succeeds or throws.
- `Routes` (`routes.dfy`): the Express handlers. Each is a function on the
  state plus a method on `Store` proved equal to it, including which
  notifications it sends.
- `NextBookings` (`next_bookings.dfy`): the Next.js `/api/bookings` handler in
  the same two forms.
- `Scenarios` (`scenarios.dfy`): request sequences as the code runs them.
  Seats come back after accept then cancel. They leak after reject or after
  cancelling a pending booking. A second cancel adds nothing. Re-accepting a
  cancelled booking pushes free seats past the ride's total. The handlers
  refuse some callers and let others through.
- `Conservation` (`conservation.dfy`): the balance `seatsTotal -
  seatsAvailable == seats held by pending and accepted bookings`. It says
  which requests keep the balance and by how much the others break it.
- `Soundness` (`soundness.dfy`): no free-seat counter goes below zero and
  every booking asks for at least one seat, across any sequence of requests.
  A run of Express POSTs never grants more seats than the ride had. The
  driver statistics are bounded.

Identifiers that the source draws from `randomUUID()`, the clock (`new
Date()`) and the notifier's availability are parameters. Creating a booking
or a message runs the schema's checks first: a required string that is empty
or missing, or a value outside an enum, makes the insert throw and write
nothing. An id that is already taken makes the insert throw a duplicate-key
error, as MongoDB would. Request fields that may be missing are `Option`s: a
missing `x-user-id` header is `None` and matches no user. Status strings
outside the schema enum (`Unlisted`, `UnlistedRide`) are stored as given,
because `findByIdAndUpdate` runs no validators. A status or method that a
request names has one representation only (`StatusName`, `RideStatusName`,
`Verb`): `Unlisted("cancelled")` is not a request for `Cancelled`.

### How the code treats seats and callers

These are properties of the code. Where the other booking handler,
`src/pages/api/bookings/[id].ts` (not part of this model), behaves
differently, the difference is named.

- Seats come back only on accepted → cancelled (`src/storage/index.ts:403-405`).
  A reject, and a cancel from pending, give nothing back.
  `Scenarios.ReserveRejectLeaks`, `Scenarios.PendingCancelLeaks` and
  `Conservation.RejectLeaks` show the leak.
- Nothing checks that a booking is pending before it is accepted or rejected
  (`src/routes/index.ts:274-287`); `[id].ts` answers 409 to an accept of a
  booking that is not pending. The driver may revive a rejected or cancelled
  booking (`Scenarios.DriverMayDecideAnyBooking`). Re-accepting and cancelling again
  pushes `seatsAvailable` past `seatsTotal`
  (`Scenarios.AcceptAfterCancelOverflows`).
- Only the booking's passenger may cancel; the driver gets 403
  (`Scenarios.DriverCannotCancel`). `[id].ts` lets the driver cancel too.
- A missing identity gets 403 for accepted/rejected/cancelled; `[id].ts`
  answers 401 to a missing identity and to a caller it does not authorise.
  Any other status, or none, is written with no check at all
  (`Scenarios.UncheckedStatusesPass`).
- The Express POST answers 400 for an unknown ride as well as for a full one.
  The Next.js handler answers 404 for an unknown ride.
- The Express POST takes the seats before it inserts the booking. When the
  insert throws, it answers 400 and the seats stay taken
  (`Conservation.PostBookingsFailedInsertLeaks`). The request schema accepts an
  empty `passengerId` that the Booking schema refuses, so such a body is
  enough (`Scenarios.EmptyPassengerTakesSeats`).
- The Next.js handler reads the ride, compares, and inserts a booking. It
  never decrements `seatsAvailable`, so it oversubscribes a ride
  (`Scenarios.NextOversubscribes`, `Conservation.NextPostOverdraws`).
- On a two-seat ride, after A takes both seats and the driver rejects A, B's
  retry still fails, because the reject gave nothing back
  (`Scenarios.TwoSeatRideAfterReject`).
- Every read of a chat adds another read mark, even for a reader who already
  marked the message (`Scenarios.ReadTwiceAddsTwoMarks`).
- `DELETE /api/rides/:id` and `PATCH /api/rides/:id/status` check no caller.
  The status endpoint answers 200 with an empty body for an unknown ride.
  The delete cascade rejects orphaned live bookings even when the ride is
  already gone, and then answers 404.

## Model

| member | source | states |
|---|---|---|
| Ledger.MapDoc | src/storage/index.ts:72-87 | a missing document stays missing; `_id` becomes `id`, `__v` is dropped, every other field is kept unchanged and nothing else is added |
| Ledger.StripPassword | src/storage/index.ts:11-14 | the user view has no password and every other field of the user |
| Ledger.GetSafeDriver | src/storage/index.ts:89-104 | a stored driver is returned without password; a missing one becomes the "Unknown Driver" placeholder with its fixed fields and an empty password; the id is always the ride's driverId |
| Ledger.ListRides | src/storage/index.ts:201-234 | the listing holds exactly the active rides, each with its safe driver, its vehicle when `vehicleId` is set and found, and the number of its bookings of any status |
| Ledger.UpdateRideAtomic | src/storage/index.ts:173-180 | succeeds iff the ride exists and, for a negative delta, has at least that many seats; then the counter moves by the delta (never below zero for a decrement) and nothing else changes; otherwise the state is untouched |
| Ledger.Patched | src/storage/index.ts:276-279 | an update sets exactly the fields it carries and leaves every other ride field as it was |
| Ledger.UpdateRide | src/storage/index.ts:276-279 | an unknown ride gives nothing and no change; a known ride is replaced by its patched version |
| Ledger.CreateBooking | src/storage/index.ts:387-391 | a booking with an empty rideId or passengerId or a status outside the enum is refused and changes nothing; otherwise a fresh id inserts the booking as given, and a taken id throws and changes nothing |
| Ledger.BookingDocValid | src/models/Booking.ts:5-11 | the Booking schema accepts a document iff its rideId and passengerId are non-empty and its status is one of the enum |
| Ledger.UpdateBooking | src/storage/index.ts:393-409 | a missing booking gives nothing and no change; otherwise the requested status is written whatever the current one is, and the booking's ride gets its seats back only when the booking goes from accepted to cancelled; no other ride or collection changes |
| Ledger.RejectLiveOn | src/storage/index.ts:286-291 | every pending or accepted booking on the given rides becomes rejected, every other booking is unchanged, only statuses change, and no live booking is left on those rides |
| Ledger.RejectLiveOnGrows | src/storage/index.ts:127-133 | running the cascade ride by ride gives the cascade over the whole set of rides |
| Ledger.DeleteRide | src/storage/index.ts:281-298 | returns true iff the ride existed; the ride is removed, its live bookings are rejected (also when the ride was already gone), no seats are given back and nothing else changes |
| Ledger.DeleteUser | src/storage/index.ts:127-143 | returns true iff the user existed; removes the user, the rides they drive (cascading), their bookings as passenger, their vehicles and every review they wrote or received; keeps messages and all other documents unchanged apart from the cascade |
| Ledger.BilledSeats | src/storage/index.ts:479 | a zero seat count is billed as one seat, any other as itself |
| Ledger.TypeOrText | src/storage/index.ts:432-433 | a missing or empty message type becomes "text" |
| Ledger.Receiver | src/storage/index.ts:440 | the passenger receives the driver's messages; the driver receives everyone else's |
| Ledger.Bump | src/storage/index.ts:448 | `$inc` raises one counter by one, starting from zero when it is missing, and leaves every other counter |
| Ledger.CreateMessage | src/storage/index.ts:430-452 | a message with an empty booking id, sender or content, or a type outside text/image/file, is refused and changes nothing, as is one under a taken id; otherwise the message is stored unread with its type defaulted; when its booking exists the booking's last message is set (an image shows as "📷 Image") and only the receiver's unread counter goes up; a booking whose ride is gone makes the call throw after the message is stored |
| Ledger.MessageDocValid | src/models/Message.ts:5-8 | the Message schema accepts a message iff its booking id, sender and content are non-empty and its type, after the "text" default, is text, image or file |
| Ledger.AddReadMark | src/storage/index.ts:462 | `$addToSet` of a new read-mark subdocument appends it after every existing mark, which stay as they were |
| Ledger.MarkMessagesRead | src/storage/index.ts:459-465 | exactly the booking's messages not sent by the reader are marked read and get one more read mark of the reader; only the reader's counter on that booking is reset to zero |
| Storage.Store.Publish | src/routes/index.ts:247-253 | a publish is recorded iff the notifier is up and changes no document |
| Storage.Store.UpdateRideAtomic | src/storage/index.ts:173-180 | the in-place update ends in the state and returns the ride that Ledger.UpdateRideAtomic gives |
| Storage.Store.UpdateRide | src/storage/index.ts:276-279 | the in-place update agrees with Ledger.UpdateRide |
| Storage.Store.CreateBooking | src/storage/index.ts:387-391 | the insert agrees with Ledger.CreateBooking |
| Storage.Store.UpdateBooking | src/storage/index.ts:393-409 | the status write followed by the conditional ride write agrees with Ledger.UpdateBooking |
| Storage.Store.DeleteRide | src/storage/index.ts:281-298 | the loop over the ride's bookings followed by the ride delete agrees with Ledger.DeleteRide |
| Storage.Store.DeleteRides | src/storage/index.ts:129-131 | deleting the driver's rides one by one removes exactly those rides and rejects the live bookings on all of them |
| Storage.Store.DeleteUser | src/storage/index.ts:127-143 | the in-place cascade agrees with Ledger.DeleteUser |
| Storage.Store.SumBilledSeats | src/storage/index.ts:479 | the `reduce` over a ride's accepted bookings is the sum of their billed seats |
| Storage.Store.GetDriverStats | src/storage/index.ts:467-485 | the loop over the driver's rides returns the number of rides, of active rides, of accepted bookings on them, and the sum of billed seats times price |
| Storage.Store.CreateMessage | src/storage/index.ts:430-452 | the in-place writes agree with Ledger.CreateMessage |
| Storage.Store.MarkMessagesRead | src/storage/index.ts:459-465 | the in-place writes agree with Ledger.MarkMessagesRead |
| Requests.ParseBooking | src/routes/index.ts:227-234 | a body is accepted iff both ids are strings and the seat count is missing or a number of at least one; a missing count becomes 1 |
| Requests.PendingBooking | src/routes/index.ts:245 | the booking created for a valid body is pending, with the requested ride, passenger and seat count, no unread counters and a last message holding only the default type "text"; the schema accepts it iff both ids are non-empty |
| Requests.Failure.Code | src/routes/index.ts:225-302 | every error reply is a 4xx or 5xx status, and 500 exactly for a server error |
| Requests.Failure.Text | src/routes/index.ts:225-302 | every error reply carries a non-empty message, an empty server-error message included |
| Requests.IntToString | src/pages/api/bookings/index.ts:34 | the text of the seat count in "Only N seats available": a minus sign exactly for negative counts, then digits that denote the count's absolute value with no leading zero |
| Requests.Digits | src/pages/api/bookings/index.ts:34 | the digits of a natural number denote it, and only 0 starts with the digit 0 |
| Routes.PostBookings | src/routes/index.ts:225-260 | an invalid body is 400 with no change; a ride that is missing or has too few seats is 400 with no change; otherwise the seats are taken first and a pending booking is created iff the Booking schema accepts it and the id is free; when the insert throws, 400 with the seats still taken and no booking |
| Routes.ServePostBookings | src/routes/index.ts:225-260 | the handler agrees with Routes.PostBookings and notifies the driver's channel only after a created booking |
| Routes.PatchBooking | src/routes/index.ts:262-302 | 404 for a missing booking or ride; 403 iff accepted/rejected comes from someone other than the driver or cancelled from someone other than the passenger; every error leaves the state unchanged; otherwise the reply and the state are those of updateBooking |
| Routes.ServePatchBooking | src/routes/index.ts:262-302 | the handler agrees with Routes.PatchBooking and notifies the passenger and then the driver; a failed first publish skips the second |
| Routes.PatchRideStatus | src/routes/index.ts:173-183 | always 200; an unknown ride gives an empty body and no change; a known ride gets the status, and isActive becomes false iff the status is completed (otherwise it is kept) |
| Routes.ServePatchRideStatus | src/routes/index.ts:173-183 | the handler agrees with Routes.PatchRideStatus |
| Routes.PatchRideLocation | src/routes/index.ts:185-207 | 404 for an unknown ride, 403 unless the caller is the driver, otherwise only the coordinates are written |
| Routes.ServePatchRideLocation | src/routes/index.ts:185-207 | the handler agrees with Routes.PatchRideLocation and notifies the ride's channel after an update |
| Routes.DeleteRideRoute | src/routes/index.ts:209-213 | 404 iff the ride did not exist; the cascade runs either way |
| Routes.ServeDeleteRide | src/routes/index.ts:209-213 | the handler agrees with Routes.DeleteRideRoute |
| NextBookings.HandleBookings | src/pages/api/bookings/index.ts:12-70 | GET lists the bookings; any other method but POST is 405; POST is 400 for an invalid body, 404 for an unknown ride, 400 "Only N seats available" iff fewer seats are free than asked, 500 with the schema's or the duplicate-key message when the insert throws, with nothing changed, and otherwise inserts a pending booking; the rides are never written |
| NextBookings.CreatedNotices | src/pages/api/bookings/index.ts:38-62 | a created booking is announced on its own channel and then on the driver's, or not at all when the notifier is down |
| NextBookings.ServeBookings | src/pages/api/bookings/index.ts:12-70 | the handler agrees with NextBookings.HandleBookings and sends the notices only after a created booking |
| Scenarios.ReserveAcceptCancelRestores | src/storage/index.ts:403-405 | reserve k seats, accept, cancel: every request succeeds and the rides end exactly as they began |
| Scenarios.ReserveRejectLeaks | src/storage/index.ts:403-405 | reserve k seats, reject: the booking is rejected and the ride stays k seats short |
| Scenarios.PendingCancelLeaks | src/storage/index.ts:403-405 | a passenger's cancel of a pending booking succeeds and gives no seats back |
| Scenarios.CancelTwiceAddsNothing | src/storage/index.ts:403-405 | after a successful cancel, the same cancel again succeeds and changes nothing |
| Scenarios.ReacceptThenCancelAddsSeats | src/routes/index.ts:274-287 | the driver may accept a cancelled booking; cancelling it again gives its seats back a second time |
| Scenarios.AcceptAfterCancelOverflows | src/storage/index.ts:393-409 | reserve, accept, cancel, accept, cancel on a ride with all seats free ends with seatsAvailable = seatsTotal + k |
| Scenarios.TwoSeatRideAfterReject | src/routes/index.ts:239-245 | A takes both seats of a two-seat ride, B is refused, the driver rejects A, B is refused again |
| Scenarios.DriverCannotCancel | src/routes/index.ts:281-285 | the ride's driver cancelling a passenger's booking gets 403 and changes nothing |
| Scenarios.DriverMayDecideAnyBooking | src/routes/index.ts:274-287 | the driver's accept or reject succeeds from any current status and moves no seats |
| Scenarios.UncheckedStatusesPass | src/routes/index.ts:274-287 | no status, pending, or a status name outside the enum is written for any caller, with no seat change |
| Scenarios.DeleteRideWithTwoBookings | src/storage/index.ts:281-298 | deleting a ride with a pending and an accepted booking rejects both, removes the ride and no other ride changes |
| Scenarios.DeleteMissingRideRejectsOrphans | src/storage/index.ts:283-293 | a delete of a ride that is gone answers 404 and still rejects its live bookings |
| Scenarios.DeletedPassengerKeepsSeats | src/storage/index.ts:132 | deleting a passenger removes their booking and leaves its ride's seat counter as it was |
| Scenarios.NextOversubscribes | src/pages/api/bookings/index.ts:32-36 | on a ride with one free seat two one-seat Next.js POSTs both create pending bookings and the ride is unchanged, while the Express POST refuses the second |
| Scenarios.NextCapacityBoundary | src/pages/api/bookings/index.ts:34 | asking for exactly the free seats succeeds; one more is refused with the free-seat count |
| Scenarios.EmptyPassengerTakesSeats | src/routes/index.ts:227-258 | a body with an empty passengerId takes the seats on the Express POST and gets 400 with no booking; the Next.js POST answers 500 and changes nothing |
| Scenarios.DriverMessageThenRead | src/storage/index.ts:430-465 | the driver's message raises only the passenger's counter; the passenger's read resets it to zero and marks the message read; the driver's counter is never touched |
| Scenarios.ReadTwiceAddsTwoMarks | src/storage/index.ts:459-463 | two reads by the same reader leave two equal read marks on the message |
| Conservation.HeldAfterInsert | src/storage/index.ts:387-391 | inserting a booking adds the seats it holds to its own ride's held seats only |
| Conservation.HeldAfterWrite | src/storage/index.ts:397 | rewriting a booking changes its ride's held seats by the difference of what the two versions hold |
| Conservation.PostBookingsConserves | src/routes/index.ts:239-245 | an Express POST whose insert succeeds, or that stops before taking seats, keeps every ride's balance of given-out and held seats |
| Conservation.PostBookingsFailedInsertLeaks | src/routes/index.ts:239-258 | when the insert throws after the seats are taken (the Booking schema refuses the document or the id is taken), the reply is 400 and the ride leaks the requested seats |
| Conservation.NextPostOverdraws | src/pages/api/bookings/index.ts:32-36 | a successful Next.js POST holds seats the ride never gave out |
| Conservation.PatchBookingLeak | src/storage/index.ts:393-409 | a status change shifts its ride's balance by the seats the booking stops holding minus the seats given back, and leaves other rides' balances |
| Conservation.PatchBookingConservesIff | src/storage/index.ts:401-406 | on a balanced ride a status change keeps the balance iff the seats the booking stops holding are exactly the seats given back |
| Conservation.AcceptConserves | src/routes/index.ts:274-287 | the driver accepting a pending booking keeps the balance |
| Conservation.AcceptedCancelConserves | src/storage/index.ts:403-405 | the passenger cancelling an accepted booking keeps the balance |
| Conservation.RejectLeaks | src/storage/index.ts:401-406 | rejecting a live booking of k seats on a balanced ride leaks exactly k seats |
| Conservation.PendingCancelLeaks | src/storage/index.ts:401-406 | cancelling a pending booking of k seats on a balanced ride leaks exactly k seats |
| Soundness.ApplySound | src/routes/index.ts:225-302 | every request keeps free seats non-negative and every booking at one seat or more |
| Soundness.RunSound | src/routes/index.ts:225-302 | so does any sequence of requests |
| Soundness.PostsNeverOverbook | src/routes/index.ts:239-243 | over any run of Express POSTs a ride's free seats stay non-negative and the seats granted on it never exceed its free seats at the start |
| Soundness.ActiveRidesAtMostTotal | src/storage/index.ts:470-471 | a driver's active rides are at most their rides |
| Soundness.NoRidesNoStats | src/storage/index.ts:467-485 | a driver with no rides gets all-zero statistics |
| Soundness.StatsNonNegative | src/storage/index.ts:475-481 | with sound bookings and non-negative prices, bookings and earnings are non-negative |
| Soundness.AcceptCountsOneBooking | src/storage/index.ts:476-479 | accepting a pending booking raises the driver's totalBookings by exactly one |

## Left out

- Notifications: publishes through the notifier are recorded as (channel, event) pairs in a ghost log. Their payloads, the console logging and the Next.js handler's log file are not modelled.
- Concurrency: every storage call is one atomic step, and handlers run one at a time. Races between concurrent requests, and between the reads and writes inside `updateBooking` and the Next.js handler, are not modelled. The `Promise.all` in `deleteUser` is run one part after another. The parts touch disjoint fields or documents, and passenger bookings are deleted after the cascade rejects them, so the end state is the same in any order.
- Database failures other than a taken id and the schema checks on create (lost connection, cast errors of malformed ids) are not modelled. So the `catch` branches that answer 400/500 or return false on such errors are not modelled either.
- `getDriverAverageRating` and the `averageRating` field of the driver statistics are left out: floating-point division and `toFixed`.
- Storage.Store.GetDriverStats: returns the four integer statistics without `averageRating`, for the reason above.
- Ledger.ListRides: returns the listing as a map keyed by ride id, without the `departureTime` sort. The driver object in the source comes from a lean document, so it carries its id under `_id`; the model gives it as `id`.
- Ledger.MapDoc: models one document as a field map. The array branch and the `toObject` distinction are not part of it.
- `GET /api/bookings` in the Next.js handler returns the booking collection as stored. The `populate` joins, the review lookups and the sort of `getAllBookings` are left out.
- Requests.ParseBooking: seat counts are integers. A fractional number such as 1.5, which the schema accepts, is not modelled. The validator's own error text is not modelled (`Validation error` stands for it).
- Ledger.BilledSeats: `seatsBooked` is always present in the model, so only a zero count is billed as one, not a missing one. Prices are integers; fractional prices are not modelled.
- Ledger.CreateMessage: the message's `createdAt` and the last message's `timestamp` come from two clock reads in the source. The model uses one `now` for both.
- Ledger.CreateBooking: the schema's validation error is given by its first words, `Booking validation failed`, without the list of failing paths; the same holds for `Message validation failed` in Ledger.CreateMessage. The id stands for a random UUID, which is never empty, so the required `_id` is not checked.
- Ledger.CreateMessage: a missing body field of the chat endpoint is modelled as the empty string, which the required check refuses alike. The message's `fileName` and `fileSize` are not modelled; the chat endpoint never sets them.
- Requests.IntToString: JavaScript prints numbers of 10^21 and more in exponent form, and numbers above 2^53 lose precision; the model prints every integer in plain decimal. Seat counts never come near either bound.
- Ledger.StripPassword: the user document leaves out `emailNotifications`, `pushNotifications` and `marketingNotifications`, and the ride document leaves out `sourceLat`, `sourceLng`, `sourceAddress`, `destLat`, `destLng` and `destAddress`. The ledger only copies them, so "every other field" means every modelled field.
- Coordinates are exact reals; they are only stored and returned.
- The user, vehicle, review, authentication, upload, geocode and chat-listing endpoints and the React pages are not part of this model. `DELETE /api/users/:id` and the chat endpoints appear only through the storage calls they make.
- Creating rides is not part of this model; the lemmas start from any state.
