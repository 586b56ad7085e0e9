# Seat-reservation saga of the redbus services, in Dafny

This project models the core of the redbus bus-booking services: the
**seat-reservation saga** that holds seats for a booking and then confirms,
releases, cancels or expires the hold across two services. It also models
the pure rule sets that feed the saga: journey scheduling, the payment status
machine, the search filter and the shared string helpers.

The model has these parts:

- **Tables.** Each table is a sequence of rows in storage order. A unique
  column is stated as "the sequence of its values has no duplicates". A
  query without `ORDER BY` returns rows in storage order, which is one
  concrete choice for an order the database leaves open. The JPQL and
  derived queries of `SeatInventoryRepository`, `JourneyRepository` and
  `BookingRepository` are pure functions over these tables (`SeatRepository`,
  `JourneyRepository`, `BookingRepository`), with lemmas about what they
  select, count and sort. The bulk update `updateSeatAvailability` is
  `SeatRepository.BulkUpdate`. The seat table's composite key
  (`journey_id`, `seat_number`) is `SeatRepository.UniqueSeatNumbers`, and
  the pairing of a taken seat with an owner is `SeatRepository.HoldsMarked`,
  a property every write of the model keeps.
- **Journey-side database.** `JourneyDatabase.Database` is a class holding
  the routes, the journeys (with their `availableSeats` counters) and the
  seat inventory.
- **Seat inventory lock manager.** `SeatManagement.SeatManagementService`
  (`SeatManagementServiceImpl`) provides the all-or-nothing lock, the
  ownership stamp, the release, the inventory read and the availability
  check.
- **Booking state machine.** `BookingSaga.BookingService`
  (`BookingServiceImpl`) keeps the booking table as a field. It reaches the
  journey service through a `SeatManagementService` gateway whose methods
  stand for the REST calls of `JourneyServiceClient` and have exactly the
  lock manager's contracts, so the saga is verified end to end as one
  sequential program.
- **Transactions.** A service method that ends in an exception rolls back its
  own table. Calls it already made to the other service stay made. Every
  contract states this explicitly.
- **Journey scheduling.** `JourneyScheduling.JourneyService`
  (`JourneyServiceImpl`) implements create, update and cancel, plus default
  and custom seat generation. The search and "upcoming" listings are pure
  functions.
- **Payment status machine.** `Payments.PaymentService`
  (`PaymentServiceImpl`) handles payment processing and refunds.
- **Search filter.** `Search.FilterJourney` and `Search.FilterPage` model
  `SearchServiceImpl.filterJourney` and the filtering step of
  `searchJourneys`.
- **String helpers.** `Strings` models `StringUtils`.
- **Data representation.**
  - A Java `null` is an `Option`.
  - A thrown exception is `Failure(error)`, and a `void` method returns a
    `Status`.
  - Times are whole minutes, and "now" is a parameter.
  - Amounts are `real`.
  - Generated ids and codes are parameters, since they come from UUID and
    random generators.

The model follows the code as written. Where the design intent (a hold
converted into a confirmed booking, idempotent release, a per-booking
isolated expiry sweep) differs from the code, the code wins. These are the
places:

- **`initiateBooking` never succeeds.** The lock returns its post-lock
  snapshot, in which every seat is unavailable. The guard at
  `BookingServiceImpl.java:65` therefore rejects every lock that went
  through, and the seats stay locked under the marker `"LOCKED"`.
  `BookingSaga.BookingService.InitiateBookingAsWritten` states this. The
  rest of the model uses the corrected `InitiateBooking` (see Findings).
- **Releasing twice inflates the counter.** `releaseSeats` adds the number of
  seats found to `availableSeats` whether or not they were taken, so a second
  release breaks the counter (`SeatManagement.SecondReleaseInflatesCounter`).
  The design describes release as idempotent.
- **The lock does not check seat ownership.** It never checks that the seats
  belong to the journey whose counter it decrements. The counter stays
  consistent exactly when they do (`SeatManagement.LockCounterIff`).
- **The expiry sweep is not isolated per booking.** It runs in one
  transaction. The first booking whose release fails aborts the sweep and
  rolls back every status already written, while the seats already released
  stay released (`BookingSaga.BookingService.ProcessExpiredBookings`). The
  design asks for per-booking isolation.
- **A late confirmation does not stay EXPIRED.** `confirmBooking` on an
  expired hold sets EXPIRED, releases the seats, then throws. The status
  change is rolled back, so the booking stays `SEATS_BLOCKED` with its
  seats freed. Expiry is strict: `isAfter`, so `now > expiryTime`. The
  design says that confirming at or after expiry yields EXPIRED.
- **The cancellation refund is never computed.** The refund test at line
  215 reads the status after line 210 set it to CANCELLED.
  `BookingSaga.CancelledAsWritten` states this. `CancelBooking` uses the
  corrected `BookingSaga.CancelledWithRefund`, which gives a CONFIRMED
  booking half its final amount back (see Findings).
- **A custom seat layout leaves the counters at 40.** With a custom seat
  configuration, `totalSeats` and `availableSeats` stay at 40 whatever the
  number of seats created. The counter matches the inventory iff exactly 40
  seats were configured (`JourneyScheduling.JourneyService.CreateJourney`).
- **A journey-side failure reaches the booking side as an HTTP client
  error.** The journey service's `GlobalExceptionHandler` answers a
  thrown exception with a 4xx or 5xx status, and the default `RestTemplate` of `JourneyServiceClient` throws on
  such a status inside `exchange`, before the body checks at lines 40, 65
  and 115. So the texts "Failed to fetch journey details", "Failed to lock
  seats" and "Failed to get seat inventory" are thrown only for a 2xx answer
  with a null or unsuccessful body, which the journey service never sends.
  The model calls every such failure `RemoteCallFailed`. The message it
  carries ("Failed to fetch journey details", "Failed to lock seats",
  "Failed to get seat inventory", "Failed to release seats") is only a
  label naming the call that failed, not the text of the exception.

## Model

| member | source | states |
|---|---|---|
| BookingModel.StatusNameInjective | booking-service/src/main/java/com/redbus/booking/enums/BookingStatus.java:4-13 | distinct statuses print distinct names, so a "current status" message names the status exactly |
| BookingModel.SelectedSeatIds | booking-service/src/main/java/com/redbus/booking/service/impl/BookingServiceImpl.java:58-63 | the ids sent to the lock are the selections' seat ids, one per selection, in request order |
| BookingModel.HeldSeatIds | booking-service/src/main/java/com/redbus/booking/service/impl/BookingServiceImpl.java:320-322 | the ids released for a booking are its booking seats' seat ids, in order |
| BookingModel.Unlocked | booking-service/src/main/java/com/redbus/booking/service/impl/BookingServiceImpl.java:330 | every booking seat gets `isLocked` false; nothing else in the booking changes and the held seat ids are the same |
| BookingRepository.FindBooking | booking-service/src/main/java/com/redbus/booking/repository/BookingRepository.java:20 | finds a row iff the id occurs in the table; the row found carries that id |
| BookingRepository.FindByBookingCode | booking-service/src/main/java/com/redbus/booking/repository/BookingRepository.java:22 | finds a row iff the code occurs in the table; the row found carries that code |
| BookingRepository.FindBookingUnique | booking-service/src/main/java/com/redbus/booking/repository/BookingRepository.java:20-26 | with unique reference ids and codes, each lookup returns the one row holding the key |
| BookingRepository.SaveBooking | booking-service/src/main/java/com/redbus/booking/service/impl/BookingServiceImpl.java:138 | `save` replaces the row with the same id in place, or appends a new row |
| BookingRepository.SaveExistingBooking | booking-service/src/main/java/com/redbus/booking/service/impl/BookingServiceImpl.java:186 | saving an existing booking keeps the keys unique and the id set, and changes only that booking's lookup |
| BookingRepository.SaveBookingOverwrites | booking-service/src/main/java/com/redbus/booking/service/impl/BookingServiceImpl.java:219 | a second save of the same booking overwrites the first |
| BookingRepository.SaveNewBooking | booking-service/src/main/java/com/redbus/booking/service/impl/BookingServiceImpl.java:138 | saving a booking with a fresh id and code keeps the keys unique and makes it findable |
| BookingRepository.FindExpiredBookings | booking-service/src/main/java/com/redbus/booking/repository/BookingRepository.java:34-36 | returns exactly the rows with the status and `expiryTime` strictly before now, in table order |
| BookingRepository.SameIdSameRow | booking-service/src/main/java/com/redbus/booking/repository/BookingRepository.java:20 | under the unique id column two rows with one id are the same row |
| BookingRepository.ExpiredBookingsDistinct | booking-service/src/main/java/com/redbus/booking/repository/BookingRepository.java:34-36 | the expired-bookings list names each booking once |
| BookingRepository.FindByUserReferenceId | booking-service/src/main/java/com/redbus/booking/repository/BookingRepository.java:28 | exactly the user's bookings, as a sub-list of the table |
| BookingRepository.FindByJourneyReferenceId | booking-service/src/main/java/com/redbus/booking/repository/BookingRepository.java:30 | exactly the journey's bookings, as a sub-list of the table |
| BookingRepository.CountConfirmedSeatsCountsBookings | booking-service/src/main/java/com/redbus/booking/repository/BookingRepository.java:38-39 | the count counts bookings, not seats: a CONFIRMED or SEATS_BLOCKED booking of the journey adds exactly one whatever its seat count |
| BookingRepository.CountConfirmedSeatsBound | booking-service/src/main/java/com/redbus/booking/repository/BookingRepository.java:38-39 | the count is at most the number of bookings, and equals it iff every booking is a counted one |
| BookingRepository.UserConfirmedBookingsSorted | booking-service/src/main/java/com/redbus/booking/repository/BookingRepository.java:41-42 | exactly the user's CONFIRMED bookings, each once (a permutation of the user's CONFIRMED rows), with `bookingTime` non-increasing |
| BookingSaga.Persisted | common/src/main/java/com/redbus/common/entity/BaseEntity.java:38-43 | persisting gives every passenger without an id a generated one and keeps existing ids |
| BookingSaga.BuildPassengers | booking-service/src/main/java/com/redbus/booking/service/impl/BookingServiceImpl.java:100-117 | one passenger per selection, index-wise, with the selection's seat number and no id yet |
| BookingSaga.ViewOf | booking-service/src/main/java/com/redbus/booking/service/impl/BookingServiceImpl.java:123 | a lock view is found for an id iff one carries it |
| BookingSaga.BuildBookingSeatsAsWritten | booking-service/src/main/java/com/redbus/booking/service/impl/BookingServiceImpl.java:120-136 | the loop as written: it succeeds iff the lists are long enough and every passenger already has an id; with a fresh (id-less) first passenger it throws a null pointer; it pairs seat i with the view at index i |
| BookingSaga.LockedViewsInTableOrder | journey-service/src/main/java/com/redbus/journey/repository/SeatInventoryRepository.java:39-41 | concrete case: the lock answers in table order, so index pairing charges a seat another seat's fare |
| BookingSaga.BuildBookingSeats | booking-service/src/main/java/com/redbus/booking/service/impl/BookingServiceImpl.java:120-136 | one locked booking seat per selection, with the selection's seat and number, the persisted passenger's id and the fare of the view with that seat's id |
| BookingSaga.RowFares | journey-service/src/main/java/com/redbus/journey/service/impl/SeatManagementServiceImpl.java:180 | the fare of each requested seat is base fare times its row's multiplier |
| BookingSaga.ViewFares | booking-service/src/main/java/com/redbus/booking/service/impl/BookingServiceImpl.java:131 | the fare charged per selection is the calculated fare of that seat's view |
| BookingSaga.LockedViewsFares | journey-service/src/main/java/com/redbus/journey/service/impl/SeatManagementServiceImpl.java:77-79 | a successful lock's views name every requested seat; per-seat fares and the total agree with the locked rows |
| BookingSaga.LockedForRequestHolds | journey-service/src/main/java/com/redbus/journey/service/impl/SeatManagementServiceImpl.java:63-79 | what the gateway's lock contract delivers is what the booking side relies on |
| BookingSaga.LockedSnapshotsRejected | booking-service/src/main/java/com/redbus/booking/service/impl/BookingServiceImpl.java:65-67 | the guard as written rejects every post-lock snapshot, since all its seats are taken |
| BookingSaga.CancelledAsWritten | booking-service/src/main/java/com/redbus/booking/service/impl/BookingServiceImpl.java:210-217 | as written: CANCELLED with time and reason, and the refund is never set |
| BookingSaga.CancelledWithRefund | booking-service/src/main/java/com/redbus/booking/service/impl/BookingServiceImpl.java:210-217 | CANCELLED with time and reason; a CONFIRMED booking gets half its final amount as refund; nothing else changes |
| BookingSaga.PaymentRecorded | booking-service/src/main/java/com/redbus/booking/service/impl/BookingServiceImpl.java:174-184 | records the payment ref and status; CONFIRMED iff the status is "SUCCESS", FAILED iff not; nothing else changes |
| BookingSaga.ExpiredHold | booking-service/src/main/java/com/redbus/booking/service/impl/BookingServiceImpl.java:305-307 | a swept booking is EXPIRED with the same seats, all unlocked |
| BookingSaga.ExpireHoldsLeavesNoHold | booking-service/src/main/java/com/redbus/booking/service/impl/BookingServiceImpl.java:298-311 | after a full sweep no expired hold is left at that instant, and every other booking is untouched |
| BookingSaga.ReleasedSeatIds | booking-service/src/main/java/com/redbus/booking/service/impl/BookingServiceImpl.java:304-308 | the seats a sweep releases are exactly those held by the swept bookings |
| BookingSaga.SweptAll | booking-service/src/main/java/com/redbus/booking/service/impl/BookingServiceImpl.java:304-308 | once every booking of the expired list is processed, the table is the full sweep of the old table |
| BookingSaga.RowFaresSumToLockedTotal | journey-service/src/main/java/com/redbus/journey/service/impl/SeatManagementServiceImpl.java:77-79 | for distinct ids that all exist, the per-seat fares add up to the total fare of the locked rows |
| BookingSaga.NewBookingFaresSumToTotal | booking-service/src/main/java/com/redbus/booking/service/impl/BookingServiceImpl.java:120-138 | the fares of a new booking's seats add up to its total amount |
| BookingSaga.BookingService.LockSelectedSeats | booking-service/src/main/java/com/redbus/booking/service/impl/BookingServiceImpl.java:45-63 | count mismatch, missing journey, inactive journey and refused lock each fail, with nothing changed; it succeeds iff the counts match and the lock is granted, and then the seats are locked and the counter dropped |
| BookingSaga.BookingService.InitiateBookingAsWritten | booking-service/src/main/java/com/redbus/booking/service/impl/BookingServiceImpl.java:40-67 | as written it always fails; when the lock was granted it fails with "Selected seats are not available" and the seats stay locked and counted off |
| BookingSaga.BookingService.InitiateBooking | booking-service/src/main/java/com/redbus/booking/service/impl/BookingServiceImpl.java:40-151 | succeeds iff counts match, the lock is granted, the selection is non-empty and the keys are fresh; then one SEATS_BLOCKED booking is appended (PENDING, 15-minute hold, totals equal to the locked rows' fares, no discount, passengers and seats index-wise) and the seats carry the booking id; the booking seats' fares add up to the total; a failure leaves the booking table unchanged |
| BookingSaga.BookingService.RecordBooking | booking-service/src/main/java/com/redbus/booking/service/impl/BookingServiceImpl.java:70-138 | the new booking appended has every field the source sets |
| BookingSaga.BookingService.ReleaseBlockedSeats | booking-service/src/main/java/com/redbus/booking/service/impl/BookingServiceImpl.java:314-332 | a missing booking or journey fails with nothing changed; otherwise the seats are freed, the counter raised by the seats found, and the booking's seats unlocked |
| BookingSaga.BookingService.UpdateBookingStatus | booking-service/src/main/java/com/redbus/booking/service/impl/BookingServiceImpl.java:286-294 | unconditional: a found booking gets the status and nothing else changes; a missing one fails |
| BookingSaga.BookingService.ConfirmBooking | booking-service/src/main/java/com/redbus/booking/service/impl/BookingServiceImpl.java:155-192 | wrong status fails with nothing changed; strictly past expiry fails after releasing the seats, and the booking table rolls back; "SUCCESS" confirms without release; any other status gives FAILED and releases |
| BookingSaga.BookingService.CancelBooking | booking-service/src/main/java/com/redbus/booking/service/impl/BookingServiceImpl.java:195-228 | already CANCELLED, or not CONFIRMED/SEATS_BLOCKED, fails with nothing changed; otherwise the booking is cancelled with its seats released and unlocked; the method uses the corrected `CancelledWithRefund`, so a CONFIRMED booking records half its final amount as refund, which the code as written never does (see Findings) |
| BookingSaga.BookingService.ProcessExpiredBookings | booking-service/src/main/java/com/redbus/booking/service/impl/BookingServiceImpl.java:298-311 | succeeds iff every expired hold's journey exists; then every expired hold is EXPIRED and all their seats freed; otherwise the booking table rolls back while the seats of the holds before the first one with a missing journey stay freed |
| BookingSaga.BookingService.ExpireEach | booking-service/src/main/java/com/redbus/booking/service/impl/BookingServiceImpl.java:304-308 | the loop: done iff every listed booking's journey exists; then the listed bookings are swept and their seats freed; otherwise it stops at the first booking with a missing journey, with exactly the seats of the bookings before it freed |
| BookingSaga.BookingService.ExpireBooking | booking-service/src/main/java/com/redbus/booking/service/impl/BookingServiceImpl.java:305-307 | one turn: EXPIRED and saved, its seats freed; fails iff its journey is missing, and then the seats and journeys are untouched |
| BookingSaga.BookingService.GetBookingById | booking-service/src/main/java/com/redbus/booking/service/impl/BookingServiceImpl.java:232-242 | the booking with that id; "Booking not found" when there is none; a remote failure when its journey cannot be fetched |
| BookingSaga.BookingService.GetBookingByCode | booking-service/src/main/java/com/redbus/booking/service/impl/BookingServiceImpl.java:246-256 | the booking with that code; "Booking not found" when there is none; a remote failure when its journey cannot be fetched |
| BookingSaga.BookingService.GetUserBookings | booking-service/src/main/java/com/redbus/booking/service/impl/BookingServiceImpl.java:260-270 | exactly the user's bookings, failing iff one of their journeys cannot be fetched |
| BookingSaga.BookingService.GetJourneyBookings | booking-service/src/main/java/com/redbus/booking/service/impl/BookingServiceImpl.java:274-283 | exactly the journey's bookings, failing iff the journey cannot be fetched |
| BookingSaga.BookingService.CheckSeatAvailability | booking-service/src/main/java/com/redbus/booking/service/impl/BookingServiceImpl.java:336-343 | fails when the journey is missing; otherwise true iff every listed seat of the journey is available |
| JourneyDatabase.Database.UpdateSeatAvailability | journey-service/src/main/java/com/redbus/journey/repository/SeatInventoryRepository.java:43-47 | the seat table becomes the bulk update; journeys and routes unchanged; the seat-number key kept; a write of (free, no owner) or (taken, owner) keeps owners paired with taken seats |
| JourneyDatabase.Database.AddJourney | journey-service/src/main/java/com/redbus/journey/service/impl/JourneyServiceImpl.java:77-80 | appends the journey and its seat rows, keeping the keys unique, the (journey, seat number) key included |
| JourneyDatabase.Database.SaveJourneyRow | journey-service/src/main/java/com/redbus/journey/service/impl/SeatManagementServiceImpl.java:71-73 | saving a journey replaces its row; seats and routes unchanged |
| JourneyRepository.FindJourney | journey-service/src/main/java/com/redbus/journey/repository/JourneyRepository.java:18 | finds a row iff the id occurs; the row found carries that id |
| JourneyRepository.FindJourneyUnique | journey-service/src/main/java/com/redbus/journey/repository/JourneyRepository.java:18 | with unique ids the lookup returns the one row holding the id |
| JourneyRepository.SaveJourney | journey-service/src/main/java/com/redbus/journey/service/impl/JourneyServiceImpl.java:77 | `save` replaces the row with the same id in place, or appends |
| JourneyRepository.SaveExistingJourney | journey-service/src/main/java/com/redbus/journey/service/impl/JourneyServiceImpl.java:206-207 | saving an existing journey keeps ids unique and changes only its own lookup |
| JourneyRepository.SaveNewJourney | journey-service/src/main/java/com/redbus/journey/service/impl/JourneyServiceImpl.java:77 | saving a journey with a fresh id and code keeps keys unique and makes it findable |
| JourneyRepository.FindVehicleSchedule | journey-service/src/main/java/com/redbus/journey/repository/JourneyRepository.java:45-49 | exactly the vehicle's journeys departing within the closed interval |
| JourneyRepository.UpcomingJourneysSorted | journey-service/src/main/java/com/redbus/journey/repository/JourneyRepository.java:34-35 | exactly the active journeys departing at or after the time, ordered by departure |
| JourneyScheduling.Decimal | journey-service/src/main/java/com/redbus/journey/service/impl/JourneyServiceImpl.java:277 | decimal text has at least one digit, and two from 10 on |
| JourneyScheduling.DecimalInjective | journey-service/src/main/java/com/redbus/journey/service/impl/JourneyServiceImpl.java:277 | distinct numbers print differently |
| JourneyScheduling.SeatLabelInjective | journey-service/src/main/java/com/redbus/journey/service/impl/JourneyServiceImpl.java:277 | the "S%02d" labels of distinct seat numbers differ |
| JourneyScheduling.FirstAndLastDefaultLabels | journey-service/src/main/java/com/redbus/journey/service/impl/JourneyServiceImpl.java:277 | the labels run "S01", "S09", "S10", ..., "S40" |
| JourneyScheduling.DefaultInventoryShape | journey-service/src/main/java/com/redbus/journey/service/impl/JourneyServiceImpl.java:273-283 | the default inventory has one row per seat 1..n, labelled "S%02d", SEATER, available, unowned, multiplier 1.0, ladies iff i % 10 == 1, with distinct numbers |
| JourneyScheduling.CustomInventoryShape | journey-service/src/main/java/com/redbus/journey/service/impl/JourneyServiceImpl.java:260-271 | a complete custom configuration yields one available unowned row per entry, copying number, type, ladies flag and multiplier |
| JourneyScheduling.InventoryRows | journey-service/src/main/java/com/redbus/journey/service/impl/JourneyServiceImpl.java:257-287 | the new rows carry the given ids, belong to the journey, are free, and count as that many available seats |
| JourneyScheduling.FindBySourceDestinationAndDate | journey-service/src/main/java/com/redbus/journey/repository/JourneyRepository.java:37-41 | exactly the journeys on a route with those cities departing on that day |
| JourneyScheduling.SearchJourneys | journey-service/src/main/java/com/redbus/journey/service/impl/JourneyServiceImpl.java:149-158 | exactly the found journeys that are active with a free seat |
| JourneyScheduling.SearchJourneysIsSubsequence | journey-service/src/main/java/com/redbus/journey/service/impl/JourneyServiceImpl.java:155 | the search keeps the query's order |
| JourneyScheduling.UpcomingJourneys | journey-service/src/main/java/com/redbus/journey/service/impl/JourneyServiceImpl.java:162-169 | at most 50 journeys |
| JourneyScheduling.UpcomingJourneysAreEarliest | journey-service/src/main/java/com/redbus/journey/service/impl/JourneyServiceImpl.java:162-169 | the list holds active future journeys by departure; a qualifying journey left out means the list is full and departs no later |
| JourneyScheduling.JourneyService.CreateSeatInventory | journey-service/src/main/java/com/redbus/journey/service/impl/JourneyServiceImpl.java:257-287 | the loops build exactly the inventory function (default or custom); a custom entry with a null field fails, naming the NOT NULL column of the first such entry |
| JourneyScheduling.JourneyService.CreateJourney | journey-service/src/main/java/com/redbus/journey/service/impl/JourneyServiceImpl.java:43-84 | unknown route, a source city shorter than two chars (index out of range), and a vehicle conflict within an hour either side fail with nothing changed; a custom entry with a null field fails on its NOT NULL column; two seats with one number fail on the (journey, seat number) key; success iff none of these and fresh keys; then the SCHEDULED active journey with 40/40 seats, arrival from the route duration and fare from request or route is appended with its inventory; the counter matches iff 40 seats were made; seat owners stay paired with taken seats |
| JourneyScheduling.JourneyService.UpdateJourney | journey-service/src/main/java/com/redbus/journey/service/impl/JourneyServiceImpl.java:87-110 | missing fails; not SCHEDULED fails; otherwise vehicle, departure, recomputed arrival, amenities and the fare only when sent are updated and nothing else |
| JourneyScheduling.JourneyService.CancelJourney | journey-service/src/main/java/com/redbus/journey/service/impl/JourneyServiceImpl.java:196-209 | missing or COMPLETED fails with nothing changed; otherwise CANCELLED and inactive, other journeys and seats untouched |
| JourneyScheduling.InsertJourneyFacts | journey-service/src/main/java/com/redbus/journey/service/impl/JourneyServiceImpl.java:77-80 | adding a fresh journey with fresh seats of distinct numbers keeps the id keys and the (journey, seat number) key unique, keeps owners paired with taken seats, and its available count equals its new rows |
| Payments.Abs | payment-service/src/main/java/com/redbus/payment/service/impl/PaymentServiceImpl.java:57 | the absolute value is non-negative and equals x or -x |
| Payments.AmountMatchesWindow | payment-service/src/main/java/com/redbus/payment/service/impl/PaymentServiceImpl.java:31-57 | amounts match iff the entered amount lies strictly within 0.01 of the required one; the test is symmetric |
| Payments.FindPayment | payment-service/src/main/java/com/redbus/payment/service/impl/PaymentServiceImpl.java:142-143 | finds a payment iff the id occurs |
| Payments.FindSuccessfulPaymentForBooking | payment-service/src/main/java/com/redbus/payment/repository/PaymentRepository.java:29-30 | returns a SUCCESS payment of the booking, or none when there is none |
| Payments.SuccessfulPaymentUnique | payment-service/src/main/java/com/redbus/payment/repository/PaymentRepository.java:29-30 | with one success per booking, the query returns that success |
| Payments.SavePayment | payment-service/src/main/java/com/redbus/payment/service/impl/PaymentServiceImpl.java:156 | `save` replaces the row with the same id or appends |
| Payments.RefundKeepsConstraints | payment-service/src/main/java/com/redbus/payment/service/impl/PaymentServiceImpl.java:153-156 | marking a payment REFUNDED keeps ids unique and at most one success per booking |
| Payments.PaymentService.ProcessPayment | payment-service/src/main/java/com/redbus/payment/service/impl/PaymentServiceImpl.java:34-83 | an existing success for the booking fails; otherwise one payment is appended that ends SUCCESS iff the amounts match (with transaction id, time, retry 0) and FAILED iff not (with the mismatch reason, retry 1), never PROCESSING |
| Payments.PaymentService.InitiateRefund | payment-service/src/main/java/com/redbus/payment/service/impl/PaymentServiceImpl.java:139-161 | missing, not SUCCESS, or more than the required amount fails with nothing changed; otherwise REFUNDED with the amount noted, so a second refund fails |
| Search.FilterJourney | search-service/src/main/java/com/redbus/search/service/impl/SearchServiceImpl.java:112-151 | true iff the journey passes every set filter (seats, fare cap, vehicle type ignoring case, agency substring ignoring case, AC, sleeper) and is active; it throws iff unboxing meets a null on the way |
| Search.BoundsAreInclusive | search-service/src/main/java/com/redbus/search/service/impl/SearchServiceImpl.java:114-121 | exactly the seats asked for, or a fare equal to the cap, passes |
| Search.VehicleTypeIgnoresCase | search-service/src/main/java/com/redbus/search/service/impl/SearchServiceImpl.java:124-127 | a vehicle-type filter differing only in case filters the same |
| Search.DefaultRequestKeepsFreeActive | search-service/src/main/java/com/redbus/search/dto/SearchRequestDto.java:29 | with the default request an active journey is kept iff it has a free seat |
| Search.FilterPage | search-service/src/main/java/com/redbus/search/service/impl/SearchServiceImpl.java:57-60 | fails iff some journey of the page meets a null; otherwise the admitted journeys in page order |
| Search.FilterPageSubList | search-service/src/main/java/com/redbus/search/service/impl/SearchServiceImpl.java:57-60 | the result is an order-preserving sub-list holding exactly the admitted journeys |
| SeatManagement.NotAvailable | journey-service/src/main/java/com/redbus/journey/service/impl/SeatManagementServiceImpl.java:51-53 | exactly the unavailable rows |
| SeatManagement.LockCheck | journey-service/src/main/java/com/redbus/journey/service/impl/SeatManagementServiceImpl.java:36-60 | the lock's guards in order with their messages; succeeds iff the lock is granted, with the rows found |
| SeatManagement.LockedViews | journey-service/src/main/java/com/redbus/journey/service/impl/SeatManagementServiceImpl.java:77-79 | one view per locked row: taken, marked "LOCKED", fare base times multiplier |
| SeatManagement.Resolve | journey-service/src/main/java/com/redbus/journey/service/impl/SeatManagementServiceImpl.java:159-166 | the seats the ids resolve to; all resolve iff the result is as long as the list |
| SeatManagement.SeatManagementService.LockSeatsForBooking | journey-service/src/main/java/com/redbus/journey/service/impl/SeatManagementServiceImpl.java:32-80 | missing journey, inactive journey, rows found not matching the ids, any unavailable seat each fail with no change; success iff granted, then every seat is taken as "LOCKED", the counter drops by the count, and one view per seat carries base times multiplier; owners stay paired with taken seats |
| SeatManagement.SeatManagementService.WriteSeats | journey-service/src/main/java/com/redbus/journey/service/impl/SeatManagementServiceImpl.java:63-73 | the seat rows get the bulk update and the journey gets the new counter |
| SeatManagement.SeatManagementService.UpdateSeatBookingStatus | journey-service/src/main/java/com/redbus/journey/service/impl/SeatManagementServiceImpl.java:84-95 | missing journey fails; otherwise the listed seats are taken and stamped with the ref, the counter untouched; owners stay paired with taken seats |
| SeatManagement.SeatManagementService.ReleaseSeats | journey-service/src/main/java/com/redbus/journey/service/impl/SeatManagementServiceImpl.java:99-122 | missing journey fails; otherwise the found seats are freed and unowned and the counter rises by the number found; owners stay paired with taken seats |
| SeatManagement.SeatManagementService.GetSeatInventory | journey-service/src/main/java/com/redbus/journey/service/impl/SeatManagementServiceImpl.java:126-149 | fails iff the journey is missing; otherwise the views of the listed seats, or of the journey's seats when no list is given |
| SeatManagement.SeatManagementService.CheckSeatAvailability | journey-service/src/main/java/com/redbus/journey/service/impl/SeatManagementServiceImpl.java:153-170 | missing journey fails; inactive is false; otherwise true iff every id resolves to an available seat |
| SeatManagement.TakeAvailableFacts | journey-service/src/main/java/com/redbus/journey/service/impl/SeatManagementServiceImpl.java:71-73 | taking seats lowers only that journey's counter by the count, keeping ids unique |
| SeatManagement.ReturnAvailableFacts | journey-service/src/main/java/com/redbus/journey/service/impl/SeatManagementServiceImpl.java:117-119 | releasing raises only that journey's counter by the count, keeping ids unique |
| SeatManagement.LockGrantedIff | journey-service/src/main/java/com/redbus/journey/service/impl/SeatManagementServiceImpl.java:36-60 | the lock is granted iff the journey is active, the ids are distinct, and each names an available seat |
| SeatManagement.CheckAgreesWithLock | journey-service/src/main/java/com/redbus/journey/service/impl/SeatManagementServiceImpl.java:153-170 | on an active journey, the check says yes for distinct ids iff the lock would be granted |
| SeatManagement.LockCounterIff | journey-service/src/main/java/com/redbus/journey/service/impl/SeatManagementServiceImpl.java:44 | a granted lock keeps the counter equal to the free-seat count iff all the locked seats belong to the journey |
| SeatManagement.ReleaseCounterIff | journey-service/src/main/java/com/redbus/journey/service/impl/SeatManagementServiceImpl.java:107-119 | a release keeps the counter equal to the free-seat count iff every seat found belongs to the journey and was taken |
| SeatManagement.SecondReleaseInflatesCounter | journey-service/src/main/java/com/redbus/journey/service/impl/SeatManagementServiceImpl.java:107-119 | a correct first release followed by the same release again breaks the counter |
| SeatManagement.StampKeepsCounts | journey-service/src/main/java/com/redbus/journey/service/impl/SeatManagementServiceImpl.java:88-92 | stamping already-taken seats leaves the free-seat count unchanged |
| SeatRepository.FindByReferenceId | journey-service/src/main/java/com/redbus/journey/repository/SeatInventoryRepository.java:19 | finds a row iff the id occurs; the row carries it |
| SeatRepository.FindByReferenceIdUnique | journey-service/src/main/java/com/redbus/journey/repository/SeatInventoryRepository.java:19 | with unique ids the lookup returns the row holding the id |
| SeatRepository.FindByReferenceIdsWithLock | journey-service/src/main/java/com/redbus/journey/repository/SeatInventoryRepository.java:39-41 | exactly the rows whose id is in the list |
| SeatRepository.FindByJourneyId | journey-service/src/main/java/com/redbus/journey/repository/SeatInventoryRepository.java:25 | exactly the journey's rows |
| SeatRepository.FindByJourneyIdAndIsAvailableTrue | journey-service/src/main/java/com/redbus/journey/repository/SeatInventoryRepository.java:27 | exactly the journey's available rows |
| SeatRepository.FindByBookingReferenceId | journey-service/src/main/java/com/redbus/journey/repository/SeatInventoryRepository.java:37 | exactly the rows owned by the ref |
| SeatRepository.BulkUpdate | journey-service/src/main/java/com/redbus/journey/repository/SeatInventoryRepository.java:43-47 | every row keeps its place; matched rows get both fields, others are unchanged |
| SeatRepository.FilterKeepsUniqueIds | journey-service/src/main/java/com/redbus/journey/repository/SeatInventoryRepository.java:39-41 | a selection of a table with unique ids has unique ids |
| SeatRepository.LockedRowsUnique | journey-service/src/main/java/com/redbus/journey/repository/SeatInventoryRepository.java:39-41 | the IN-list returns each row once, whatever the duplicates in the list |
| SeatRepository.FoundAllIff | journey-service/src/main/java/com/redbus/journey/service/impl/SeatManagementServiceImpl.java:44-48 | as many rows as ids are found iff the ids are distinct and all exist, so duplicate ids fail the size check |
| SeatRepository.CountAvailableSeatsIsCardinality | journey-service/src/main/java/com/redbus/journey/repository/SeatInventoryRepository.java:31-32 | the count is the number of distinct available seats of the journey |
| SeatRepository.CountMatchesAvailableFinder | journey-service/src/main/java/com/redbus/journey/repository/SeatInventoryRepository.java:27-32 | the count equals the size of the available-seat finder's answer |
| SeatRepository.SeatNumberOrder | journey-service/src/main/java/com/redbus/journey/repository/SeatInventoryRepository.java:34 | ordering by seat number is a total preorder |
| SeatRepository.OrderBySeatNumberSorted | journey-service/src/main/java/com/redbus/journey/repository/SeatInventoryRepository.java:34-35 | the journey's rows, sorted by seat number, as a permutation of the journey's rows |
| SeatRepository.UniqueSeatNumbersPerJourney | journey-service/src/main/java/com/redbus/journey/entity/SeatInventory.java:11-12 | under the (journey, seat number) key a journey's rows carry distinct seat numbers |
| SeatRepository.BulkUpdateKeepsSeatNumbers | journey-service/src/main/java/com/redbus/journey/repository/SeatInventoryRepository.java:43-47 | the bulk update keeps the (journey, seat number) key |
| SeatRepository.BulkUpdateKeepsMarks | journey-service/src/main/java/com/redbus/journey/repository/SeatInventoryRepository.java:43-47 | writing (free, no owner) or (taken, an owner) keeps every row taken iff it has an owner |
| SeatRepository.BulkUpdateKeepsIds | journey-service/src/main/java/com/redbus/journey/repository/SeatInventoryRepository.java:43-47 | the bulk update changes no id or journey |
| SeatRepository.BulkUpdateIdempotent | journey-service/src/main/java/com/redbus/journey/repository/SeatInventoryRepository.java:43-47 | applying the same update twice is applying it once |
| SeatRepository.BulkUpdateOverwrites | journey-service/src/main/java/com/redbus/journey/repository/SeatInventoryRepository.java:43-47 | a second update of the same ids overwrites the first |
| SeatRepository.BulkUpdateAccumulates | journey-service/src/main/java/com/redbus/journey/repository/SeatInventoryRepository.java:43-47 | two updates with the same values are one update of both lists |
| SeatRepository.FindAfterBulkUpdate | journey-service/src/main/java/com/redbus/journey/repository/SeatInventoryRepository.java:43-47 | a lookup after the update finds the stamped row |
| SeatRepository.CountAfterBulkUpdate | journey-service/src/main/java/com/redbus/journey/repository/SeatInventoryRepository.java:31-47 | the free count changes by exactly the matched rows that were free and become taken, or were not free and become free |
| Strings.Trim | common/src/main/java/com/redbus/common/util/StringUtils.java:16 | trimming never lengthens; empty iff all blank; otherwise no blank at either end |
| Strings.TrimIdempotent | common/src/main/java/com/redbus/common/util/StringUtils.java:47-51 | trimming twice is trimming once |
| Strings.IsEmptyMeansBlank | common/src/main/java/com/redbus/common/util/StringUtils.java:15-21 | empty iff null or all blank; not-empty is its negation |
| Strings.TrimToNull | common/src/main/java/com/redbus/common/util/StringUtils.java:47-51 | null iff empty; otherwise the non-empty trimmed text |
| Strings.Truncate | common/src/main/java/com/redbus/common/util/StringUtils.java:53-58 | null stays null; short enough stays; otherwise the prefix of that length; a negative length throws |
| Strings.TruncateIdempotent | common/src/main/java/com/redbus/common/util/StringUtils.java:53-58 | a truncated text is a prefix no longer than the bound and truncates to itself |
| Strings.ToLowerChar | common/src/main/java/com/redbus/common/util/StringUtils.java:62 | A to Z map to a to z, every other char stays |
| Strings.ToUpperChar | common/src/main/java/com/redbus/common/util/StringUtils.java:62 | a to z map to A to Z, every other char stays |
| Strings.ToLower | common/src/main/java/com/redbus/common/util/StringUtils.java:73 | lowers each char, keeping the length |
| Strings.ToLowerFacts | common/src/main/java/com/redbus/common/util/StringUtils.java:73 | lowering is idempotent, leaves no capital, keeps '_' |
| Strings.Capitalize | common/src/main/java/com/redbus/common/util/StringUtils.java:60-63 | blank stays as it is; otherwise first char upper, rest lower, same length |
| Strings.Pieces | common/src/main/java/com/redbus/common/util/StringUtils.java:72 | the text cut at every '_' gives at least one piece, none containing '_' |
| Strings.PiecesJoin | common/src/main/java/com/redbus/common/util/StringUtils.java:72 | joining the pieces with '_' gives the text back |
| Strings.DropTrailingEmpty | common/src/main/java/com/redbus/common/util/StringUtils.java:72 | drops the trailing empty pieces, keeping a prefix that ends in a non-empty piece |
| Strings.SplitUnderscore | common/src/main/java/com/redbus/common/util/StringUtils.java:72 | no part contains '_'; a text without '_' is one part |
| Strings.AllUnderscoresSplitEmpty | common/src/main/java/com/redbus/common/util/StringUtils.java:72 | a text of only '_' splits into no parts at all |
| Strings.CamelJoin | common/src/main/java/com/redbus/common/util/StringUtils.java:73-77 | the joined camel-case text has no '_' |
| Strings.CamelCase | common/src/main/java/com/redbus/common/util/StringUtils.java:70-78 | a successful result has no '_' |
| Strings.CamelCaseCases | common/src/main/java/com/redbus/common/util/StringUtils.java:70-78 | text without '_' maps to its lower case; text of only '_' throws at parts[0] |
| Strings.ToCamelCase | common/src/main/java/com/redbus/common/util/StringUtils.java:70-78 | the loop computes exactly the camel-case function |
| Strings.GenerateRandomAlphanumeric | common/src/main/java/com/redbus/common/util/StringUtils.java:35-41 | a negative length throws; otherwise exactly that many chars, all from A-Z0-9 |
| Strings.GeneratePnr | common/src/main/java/com/redbus/common/util/StringUtils.java:23-25 | ten chars, all from A-Z0-9 |

## Findings

| source | as written | input that shows it | evidently intended | confidence | as-written member | corrected member |
|---|---|---|---|---|---|---|
| booking-service/src/main/java/com/redbus/booking/service/impl/BookingServiceImpl.java:65 | rejects the booking when any returned seat is unavailable, but the lock's answer is the post-lock snapshot where every seat is unavailable | any request for one free seat of an active journey: the lock succeeds, the booking is rejected, and the seat stays locked as "LOCKED" | reject only an empty answer; a granted lock books the seats | high (not executed) | BookingSaga.BookingService.InitiateBookingAsWritten | BookingSaga.BookingService.InitiateBooking |
| booking-service/src/main/java/com/redbus/booking/service/impl/BookingServiceImpl.java:123 | pairs selection i with lock view i, but the lock's query has no ORDER BY, so the views come back in the database's order, not the request's | seats a (multiplier 2) stored before b (multiplier 1), request [b, a], a database answering in storage order: seat b is charged a's fare | pair each selection with the view carrying its seat id | medium (not executed; depends on the order the database answers in) | BookingSaga.LockedViewsInTableOrder | BookingSaga.BuildBookingSeats |
| booking-service/src/main/java/com/redbus/booking/service/impl/BookingServiceImpl.java:130 | reads the passenger's reference id before the passenger was persisted, when it is still null | any request with one selection: the new passenger has no id and the loop throws a null pointer | take the id assigned when the passenger is persisted | high (not executed) | BookingSaga.BuildBookingSeatsAsWritten | BookingSaga.BuildBookingSeats |
| booking-service/src/main/java/com/redbus/booking/service/impl/BookingServiceImpl.java:215 | tests for CONFIRMED after line 210 set the status to CANCELLED, so the refund is never set | cancelling a CONFIRMED booking with final amount 100: no refund recorded | a CONFIRMED booking gets half its final amount back | high (not executed) | BookingSaga.CancelledAsWritten | BookingSaga.CancelledWithRefund |

## Left out

- I/O, logging, HTTP controllers and the REST clients. The clients are replaced by the lock manager object itself. A network failure is the journey-side failure it stands for.
- Concurrency: pessimistic locks, SERIALIZABLE isolation, `@Version` and the scheduler timer. Each service method is one atomic step.
- Floating point: fares, multipliers, amounts, the 0.01 tolerance and the 50% refund are `real`. IEEE rounding is not modelled.
- Integer width: `availableSeats`, counts and `retryCount` are unbounded integers. No 32-bit overflow is modelled.
- The clock and the generators: `LocalDateTime.now()`, `UUID.randomUUID()`, `generateBookingCode`, `generateJourneyCode`, `generatePaymentCode` and `generateTransactionId` are parameters. Random choice in `generateRandomAlphanumeric` is a nondeterministic pick. Of `generateJourneyCode` the model keeps only the failure it can raise, `substring(0, 2)` of a source city shorter than two characters.
- `StringUtils.generateTransactionId`, `generateBookingId`, `generateUUID` and `toSnakeCase` (a regex replacement) are not modelled.
- Unicode: case mapping covers ASCII letters only, and `trim` is modelled on characters up to the space.
- DTO mapping: `toBookingResponseDto`, `toJourneyResponseDto`, `toPaymentResponseDto` and `toSearchResultDto`. The journey fetch for a response is kept only as the failure it can raise.
- Days: `DATE(...)` is whole minutes divided by the minutes of a day. Time zones are not modelled.
- Search: the Elasticsearch query, paging and sort of `searchJourneys` and the other search-service methods (`getPopularRoutes`, indexing, `updateJourneyAvailability`). Only the filtering step over one page of results is modelled.
- Payments: the getters, `checkPaymentStatus`, the booking-service callback, and uniqueness of transaction ids.
- Journey service: the getters, `activateJourney`, `deactivateJourney`, `updateJourneyStatus`, `generateRecurringJourneys` and `getJourneySeatInventory`.
- Column lengths: the database refuses a `seat_number` longer than 10 characters (`SeatInventory.java:23`) and likewise for the other `length` limits. These limits depend on the schema the database was given and are not modelled.
- Repository finders that the core never calls: `findByBookingStatus`, `findByJourneyIdAndSeatNumber`, `findByJourneyCode` and the route finders.
- Request validation: the bean-validation annotations on the request DTOs, such as 1 to 6 seats per booking at booking-service/src/main/java/com/redbus/booking/dto/BookingRequestDto.java:28, are checked by the web layer before the service runs. The model accepts any request.
- Strings.Trim: the contract says what the result looks like (never longer, empty iff the input is all blank, no blank at either end), but not that it is the middle slice of the input.
- SeatManagement.SeatManagementService.GetSeatInventory: states which views are returned, not their order or multiplicity.
- BookingSaga.BookingService.GetUserBookings: states which bookings are returned, not their order.
- BookingSaga.BookingService.GetJourneyBookings: states which bookings are returned, not their order.
- BookingSaga.BookingService.ProcessExpiredBookings: does not state the journeys' `availableSeats` counters after the sweep, only that no journey is added or removed.
- BookingSaga.BookingService.ExpireEach: does not state the journeys' counters, only the journey ids.
- BookingSaga.BookingService.ExpireBooking: does not state the journey's counter, only the journey ids.
- JourneyScheduling.UpcomingJourneys: its own contract gives the bound of 50. Its content and order are stated by `UpcomingJourneysAreEarliest`.
