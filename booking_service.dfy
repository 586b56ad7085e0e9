/** The booking service: the booking side of the seat-reservation saga. A
    booking is opened by locking seats on the journey service, then
    confirmed, cancelled or expired; each of these releases or stamps the
    seats on the journey side.

    The journey service is reached through its `SeatManagementService`,
    whose methods stand for the REST calls and carry exactly the lock
    manager's contracts. Every method here is one transaction of the
    booking database: when it ends in an exception, the booking table is
    rolled back, while calls already made to the journey service stay
    made. */
module BookingSaga {
  import opened Common
  import opened Seqs
  import opened JourneyModel
  import opened SeatRepository
  import opened JourneyRepository
  import opened JourneyDatabase
  import opened SeatManagement
  import opened BookingModel
  import opened BookingRepository

  // -----------------------------------------------------------------------
  // Building a booking

  /** The passenger row built for one selection; it has no id yet. */
  function NewPassenger(selection: SeatSelection, details: PassengerDetails): Passenger {
    Passenger(None, selection.seatNumber, details.passengerName, details.age, details.gender,
              details.idType, details.idNumber, details.isPrimary)
  }

  /** The passengers as persisting them leaves them: a row without an id
      gets the generated one, a row with an id keeps it. */
  function Persisted(passengers: seq<Passenger>, ids: seq<Uuid>): (r: seq<Passenger>)
    requires |ids| == |passengers|
    ensures |r| == |passengers|
    ensures forall i :: 0 <= i < |r| ==> r[i].referenceId.Some?
    ensures forall i :: 0 <= i < |r| ==>
      r[i] == passengers[i].(referenceId := if passengers[i].referenceId.None? then Some(ids[i]) else passengers[i].referenceId)
  {
    seq(|passengers|, i requires 0 <= i < |passengers| =>
      if passengers[i].referenceId.None? then passengers[i].(referenceId := Some(ids[i])) else passengers[i])
  }

  /** The loop that builds one passenger per selection, in request order. */
  method BuildPassengers(selections: seq<SeatSelection>, details: seq<PassengerDetails>) returns (passengers: seq<Passenger>)
    requires |selections| == |details|
    ensures |passengers| == |details|
    ensures forall i :: 0 <= i < |passengers| ==> passengers[i] == NewPassenger(selections[i], details[i])
    ensures forall i :: 0 <= i < |passengers| ==>
      passengers[i].referenceId.None? && passengers[i].seatNumber == selections[i].seatNumber
  {
    passengers := [];
    var i := 0;
    while i < |details|
      invariant 0 <= i <= |details|
      invariant |passengers| == i
      invariant forall k :: 0 <= k < i ==> passengers[k] == NewPassenger(selections[k], details[k])
    {
      passengers := passengers + [NewPassenger(selections[i], details[i])];
      i := i + 1;
    }
  }

  /** The first seat view with the given reference id. */
  function ViewOf(views: seq<SeatInventoryDto>, id: Uuid): (r: Option<SeatInventoryDto>)
    ensures r.Some? <==> exists k :: 0 <= k < |views| && views[k].referenceId == id
    ensures r.Some? ==> r.value in views && r.value.referenceId == id
  {
    if views == [] then None
    else if views[0].referenceId == id then Some(views[0])
    else
      var r := ViewOf(views[1..], id);
      assert forall k :: 1 <= k < |views| ==> views[k] == views[1..][k - 1];
      r
  }

  /** The loop that builds one booking seat per selection, as written: the
      i-th selection is paired with the i-th seat view the lock returned and
      with the i-th passenger, whose id it reads. */
  method BuildBookingSeatsAsWritten(selections: seq<SeatSelection>, views: seq<SeatInventoryDto>, passengers: seq<Passenger>)
    returns (r: Result<seq<BookingSeat>>)
    ensures r.Success? <==>
      && |views| >= |selections| && |passengers| >= |selections|
      && forall i :: 0 <= i < |selections| ==> passengers[i].referenceId.Some?
    ensures r.Failure? ==> r.error == IndexOutOfBounds || r.error == NullPointer
    ensures 0 < |selections| && 0 < |views| && 0 < |passengers| && passengers[0].referenceId.None? ==>
      r == Failure(NullPointer)
    ensures r.Success? ==>
      && |r.value| == |selections|
      && forall i :: 0 <= i < |selections| ==>
           r.value[i] == BookingSeat(selections[i].seatInventoryReferenceId, selections[i].seatNumber,
                                     passengers[i].referenceId.value, views[i].calculatedFare, true)
  {
    var seats: seq<BookingSeat> := [];
    var i := 0;
    while i < |selections|
      invariant 0 <= i <= |selections|
      invariant i <= |views| && i <= |passengers|
      invariant forall k :: 0 <= k < i ==> passengers[k].referenceId.Some?
      invariant |seats| == i
      invariant forall k :: 0 <= k < i ==>
        seats[k] == BookingSeat(selections[k].seatInventoryReferenceId, selections[k].seatNumber,
                                passengers[k].referenceId.value, views[k].calculatedFare, true)
    {
      if i >= |views| {
        return Failure(IndexOutOfBounds);
      }
      if i >= |passengers| {
        return Failure(IndexOutOfBounds);
      }
      if passengers[i].referenceId.None? {
        return Failure(NullPointer);
      }
      var sel := selections[i];
      seats := seats + [BookingSeat(sel.seatInventoryReferenceId, sel.seatNumber,
                                    passengers[i].referenceId.value, views[i].calculatedFare, true)];
      i := i + 1;
    }
    r := Success(seats);
  }

  /** The same loop, corrected: the fare of a selection is the fare of the
      seat view with the selection's id, and the passengers already carry
      their ids. */
  method BuildBookingSeats(selections: seq<SeatSelection>, views: seq<SeatInventoryDto>, passengers: seq<Passenger>)
    returns (seats: seq<BookingSeat>)
    requires |passengers| == |selections|
    requires forall i :: 0 <= i < |passengers| ==> passengers[i].referenceId.Some?
    requires forall i :: 0 <= i < |selections| ==> ViewOf(views, selections[i].seatInventoryReferenceId).Some?
    ensures |seats| == |selections|
    ensures forall i :: 0 <= i < |selections| ==>
      && seats[i].seatInventoryReferenceId == selections[i].seatInventoryReferenceId
      && seats[i].seatNumber == selections[i].seatNumber
      && seats[i].passengerReferenceId == passengers[i].referenceId.value
      && seats[i].seatFare == ViewOf(views, selections[i].seatInventoryReferenceId).value.calculatedFare
      && seats[i].isLocked
  {
    seats := [];
    var i := 0;
    while i < |selections|
      invariant 0 <= i <= |selections|
      invariant |seats| == i
      invariant forall k :: 0 <= k < i ==>
        seats[k] == BookingSeat(selections[k].seatInventoryReferenceId, selections[k].seatNumber,
                                passengers[k].referenceId.value,
                                ViewOf(views, selections[k].seatInventoryReferenceId).value.calculatedFare, true)
    {
      var sel := selections[i];
      var view := ViewOf(views, sel.seatInventoryReferenceId).value;
      seats := seats + [BookingSeat(sel.seatInventoryReferenceId, sel.seatNumber,
                                    passengers[i].referenceId.value, view.calculatedFare, true)];
      i := i + 1;
    }
  }

  /** `mapToDouble(getCalculatedFare).sum()` over the seat views. */
  function TotalFare(views: seq<SeatInventoryDto>): Money {
    SumOf(views, (d: SeatInventoryDto) => d.calculatedFare)
  }

  /** The fare of each listed seat row at the given base fare, in list order
      (zero for an id that names no row). */
  function RowFares(rows: seq<SeatInventory>, ids: seq<Uuid>, baseFare: Money): (r: seq<Money>)
    ensures |r| == |ids|
    ensures forall i :: 0 <= i < |ids| && FindByReferenceId(rows, ids[i]).Some? ==>
      r[i] == SeatFare(baseFare, FindByReferenceId(rows, ids[i]).value.fareMultiplier)
  {
    seq(|ids|, i requires 0 <= i < |ids| =>
      match FindByReferenceId(rows, ids[i])
      case Some(s) => SeatFare(baseFare, s.fareMultiplier)
      case None => 0.0)
  }

  /** The fares of the listed seats, read off the seat views by id. */
  function ViewFares(views: seq<SeatInventoryDto>, ids: seq<Uuid>): (r: seq<Money>)
    requires forall i :: 0 <= i < |ids| ==> ViewOf(views, ids[i]).Some?
    ensures |r| == |ids|
    ensures forall i :: 0 <= i < |ids| ==> r[i] == ViewOf(views, ids[i]).value.calculatedFare
  {
    seq(|ids|, i requires 0 <= i < |ids| => ViewOf(views, ids[i]).value.calculatedFare)
  }

  /** The sum of the fares of the rows a lock finds. */
  function LockedTotal(rows: seq<SeatInventory>, ids: seq<Uuid>, baseFare: Money): Money {
    SumOf(FindByReferenceIdsWithLock(rows, ids), (s: SeatInventory) => SeatFare(baseFare, s.fareMultiplier))
  }

  /** What `initiateBooking` records: a booking of the selected seats that
      holds them for fifteen minutes, one passenger and one locked booking
      seat per selection in request order, the seat of selection i charged
      `fares[i]`, and `total` charged in all with no discount. */
  ghost predicate IsNewBooking(b: Booking, req: BookingRequest, now: Time, bookingId: Uuid, bookingCode: string,
                               passengerIds: seq<Uuid>, total: Money, fares: seq<Money>)
  {
    var sel := req.seatSelections;
    && b.referenceId == bookingId && b.bookingCode == bookingCode
    && b.userReferenceId == req.userReferenceId && b.journeyReferenceId == req.journeyReferenceId
    && b.bookingStatus == SeatsBlocked && b.paymentStatus == "PENDING" && b.paymentReferenceId.None?
    && b.bookingTime == now && b.expiryTime == now + BookingExpiryMinutes
    && b.cancellationTime.None? && b.cancellationReason.None? && b.refundAmount.None?
    && b.totalSeats == |sel|
    && b.totalAmount == total && b.discountAmount == 0.0 && b.finalAmount == total
    && |sel| == |req.passengers| == |passengerIds| == |fares|
    && |b.passengers| == |sel| && |b.bookingSeats| == |sel|
    && (forall i :: 0 <= i < |sel| ==>
          b.passengers[i] == NewPassenger(sel[i], req.passengers[i]).(referenceId := Some(passengerIds[i])))
    && (forall i :: 0 <= i < |sel| ==>
          && b.bookingSeats[i].seatInventoryReferenceId == sel[i].seatInventoryReferenceId
          && b.bookingSeats[i].seatNumber == sel[i].seatNumber
          && b.bookingSeats[i].passengerReferenceId == passengerIds[i]
          && b.bookingSeats[i].seatFare == fares[i]
          && b.bookingSeats[i].isLocked)
  }

  /** The seat views a successful lock returns name each requested seat, and
      by id they carry the fares of the rows locked: the per-seat fares and
      the total agree with the rows. */
  lemma LockedViewsFares(rows: seq<SeatInventory>, ids: seq<Uuid>, views: seq<SeatInventoryDto>, baseFare: Money)
    requires UniqueSeatIds(rows)
    requires |FindByReferenceIdsWithLock(rows, ids)| == |ids| == |views|
    requires forall k :: 0 <= k < |views| ==>
      && views[k].referenceId == FindByReferenceIdsWithLock(rows, ids)[k].referenceId
      && views[k].calculatedFare == SeatFare(baseFare, FindByReferenceIdsWithLock(rows, ids)[k].fareMultiplier)
    ensures forall i :: 0 <= i < |ids| ==> ViewOf(views, ids[i]).Some?
    ensures forall i :: 0 <= i < |ids| ==> FindByReferenceId(rows, ids[i]).Some?
    ensures ViewFares(views, ids) == RowFares(rows, ids, baseFare)
    ensures TotalFare(views) == LockedTotal(rows, ids, baseFare)
  {
    var found := FindByReferenceIdsWithLock(rows, ids);
    FoundAllIff(rows, ids);
    forall i | 0 <= i < |ids|
      ensures ViewOf(views, ids[i]).Some?
      ensures FindByReferenceId(rows, ids[i]).Some?
      ensures ViewOf(views, ids[i]).value.calculatedFare == SeatFare(baseFare, FindByReferenceId(rows, ids[i]).value.fareMultiplier)
    {
      var id := ids[i];
      var s := FindByReferenceId(rows, id).value;
      assert s in found;
      var k :| 0 <= k < |found| && found[k] == s;
      assert views[k].referenceId == id;
      var v := ViewOf(views, id).value;
      var m :| 0 <= m < |views| && views[m] == v;
      assert found[m] in rows;
      FindByReferenceIdUnique(rows, found[m]);
    }
    SumOfPointwise(views, found, (d: SeatInventoryDto) => d.calculatedFare,
                   (s: SeatInventory) => SeatFare(baseFare, s.fareMultiplier));
  }

  /** Charging each selected seat its own row's fare, in request order,
      adds up to the total of the rows the lock finds, in table order: the
      two lists hold the same rows, each once. */
  lemma RowFaresSumToLockedTotal(rows: seq<SeatInventory>, ids: seq<Uuid>, baseFare: Money)
    requires UniqueSeatIds(rows)
    requires Distinct(ids) && forall id :: id in ids ==> id in SeatIds(rows)
    ensures SumOf(RowFares(rows, ids, baseFare), (m: Money) => m) == LockedTotal(rows, ids, baseFare)
  {
    var fare := (s: SeatInventory) => SeatFare(baseFare, s.fareMultiplier);
    var found := FindByReferenceIdsWithLock(rows, ids);
    var resolved := seq(|ids|, i requires 0 <= i < |ids| => FindByReferenceId(rows, ids[i]).value);
    SumOfPointwise(RowFares(rows, ids, baseFare), resolved, (m: Money) => m, fare);
    assert Distinct(resolved) by {
      forall i, j | 0 <= i < j < |resolved| ensures resolved[i] != resolved[j] {
        assert resolved[i].referenceId == ids[i] && resolved[j].referenceId == ids[j];
      }
    }
    assert Distinct(found) by {
      LockedRowsUnique(rows, ids);
      forall i, j | 0 <= i < j < |found| ensures found[i] != found[j] {
        assert SeatIds(found)[i] != SeatIds(found)[j];
      }
    }
    assert Elements(resolved) == Elements(found) by {
      forall s ensures s in resolved <==> s in found {
        if s in resolved {
          var i :| 0 <= i < |resolved| && resolved[i] == s;
          assert s in rows && s.referenceId == ids[i];
        }
        if s in found {
          var i :| 0 <= i < |ids| && ids[i] == s.referenceId;
          FindByReferenceIdUnique(rows, s);
          assert resolved[i] == s;
        }
      }
    }
    DistinctSameElements(resolved, found);
    SumOfPermutation(resolved, found, fare);
  }

  /** The fare charged for one booking seat. */
  function SeatFareOf(s: BookingSeat): Money {
    s.seatFare
  }

  /** A booking recorded from a granted lock charges in all what its seats
      are charged one by one: the booking seats' fares sum to `totalAmount`. */
  lemma NewBookingFaresSumToTotal(b: Booking, req: BookingRequest, now: Time, bookingId: Uuid, bookingCode: string,
                                  passengerIds: seq<Uuid>, rows: seq<SeatInventory>, baseFare: Money)
    requires UniqueSeatIds(rows)
    requires var ids := SelectedSeatIds(req.seatSelections);
      Distinct(ids) && forall id :: id in ids ==> id in SeatIds(rows)
    requires var ids := SelectedSeatIds(req.seatSelections);
      IsNewBooking(b, req, now, bookingId, bookingCode, passengerIds,
                   LockedTotal(rows, ids, baseFare), RowFares(rows, ids, baseFare))
    ensures SumOf(b.bookingSeats, SeatFareOf) == b.totalAmount
  {
    var ids := SelectedSeatIds(req.seatSelections);
    SumOfPointwise(b.bookingSeats, RowFares(rows, ids, baseFare), SeatFareOf, (m: Money) => m);
    RowFaresSumToLockedTotal(rows, ids, baseFare);
  }

  /** What a lock granted for a booking request leaves behind, from the
      tables before (`journeys0`, `seats0`) to the tables after and the seat
      views returned: the selected rows locked, the journey's counter down by
      their number, every view taken and carrying the fare of its row. */
  ghost predicate LockedForRequest(journeys0: seq<Journey>, seats0: seq<SeatInventory>,
                                   journeys1: seq<Journey>, seats1: seq<SeatInventory>,
                                   req: BookingRequest, views: seq<SeatInventoryDto>)
  {
    var ids := SelectedSeatIds(req.seatSelections);
    && FindJourney(journeys0, req.journeyReferenceId).Some?
    && var baseFare := FindJourney(journeys0, req.journeyReferenceId).value.baseFare;
    && seats1 == BulkUpdate(seats0, ids, false, Some(LockedMarker))
    && journeys1 == TakeAvailable(journeys0, req.journeyReferenceId, |ids|)
    && FindJourney(journeys1, req.journeyReferenceId).Some?
    && |views| == |ids|
    && (forall k :: 0 <= k < |views| ==> !views[k].isAvailable)
    && (forall i :: 0 <= i < |ids| ==> ViewOf(views, req.seatSelections[i].seatInventoryReferenceId).Some?)
    && ViewFares(views, ids) == RowFares(seats0, ids, baseFare)
    && TotalFare(views) == LockedTotal(seats0, ids, baseFare)
  }

  /** The lock manager's promises for a granted lock amount to
      `LockedForRequest`. */
  lemma LockedForRequestHolds(journeys0: seq<Journey>, seats0: seq<SeatInventory>,
                              journeys1: seq<Journey>, seats1: seq<SeatInventory>,
                              req: BookingRequest, views: seq<SeatInventoryDto>)
    requires UniqueJourneys(journeys0) && UniqueSeatIds(seats0)
    requires FindJourney(journeys0, req.journeyReferenceId).Some?
    requires var ids := SelectedSeatIds(req.seatSelections);
      && seats1 == BulkUpdate(seats0, ids, false, Some(LockedMarker))
      && journeys1 == TakeAvailable(journeys0, req.journeyReferenceId, |ids|)
    requires var ids := SelectedSeatIds(req.seatSelections);
      var found := FindByReferenceIdsWithLock(seats0, ids);
      var baseFare := FindJourney(journeys0, req.journeyReferenceId).value.baseFare;
      && |views| == |ids| == |found|
      && forall k :: 0 <= k < |views| ==>
           && views[k].referenceId == found[k].referenceId
           && !views[k].isAvailable
           && views[k].calculatedFare == SeatFare(baseFare, found[k].fareMultiplier)
    ensures LockedForRequest(journeys0, seats0, journeys1, seats1, req, views)
  {
    var ids := SelectedSeatIds(req.seatSelections);
    var j := FindJourney(journeys0, req.journeyReferenceId).value;
    TakeAvailableFacts(journeys0, req.journeyReferenceId, j, |ids|, req.journeyReferenceId);
    LockedViewsFares(seats0, ids, views, j.baseFare);
    forall i | 0 <= i < |ids|
      ensures ViewOf(views, req.seatSelections[i].seatInventoryReferenceId).Some?
    {
      assert ids[i] == req.seatSelections[i].seatInventoryReferenceId;
    }
  }

  // -----------------------------------------------------------------------
  // The guard after the lock

  /** The guard after the lock as written: an empty answer, or any seat
      reported taken, rejects the booking. */
  predicate SnapshotRejectedAsWritten(views: seq<SeatInventoryDto>) {
    views == [] || exists k :: 0 <= k < |views| && !views[k].isAvailable
  }

  /** The answer of a successful lock reports every seat taken, since the
      lock has just taken them; so the guard as written rejects every lock
      that went through. */
  lemma LockedSnapshotsRejected(views: seq<SeatInventoryDto>)
    requires forall k :: 0 <= k < |views| ==> !views[k].isAvailable
    ensures SnapshotRejectedAsWritten(views)
  {
    if views != [] {
      assert !views[0].isAvailable;
    }
  }

  /** The lock answers in table order, not in request order. With seat a
      (multiplier 2) stored before seat b (multiplier 1) and the request
      [b, a], the first view is a's: pairing views with selections by
      index charges seat b the fare of seat a. */
  lemma LockedViewsInTableOrder()
    ensures var a := SeatInventory("a", "j", "S01", Seater, true, false, 2.0, None);
            var b := SeatInventory("b", "j", "S02", Seater, true, false, 1.0, None);
            var views := LockedViews(FindByReferenceIdsWithLock([a, b], ["b", "a"]), 100.0);
            && |views| == 2
            && views[0].referenceId == "a" && views[0].calculatedFare == 200.0
            && RowFares([a, b], ["b", "a"], 100.0)[0] == 100.0
  {
    var a := SeatInventory("a", "j", "S01", Seater, true, false, 2.0, None);
    var b := SeatInventory("b", "j", "S02", Seater, true, false, 1.0, None);
    assert [a, b][1..] == [b];
    assert [b][1..] == [];
    assert FindByReferenceIdsWithLock([a, b], ["b", "a"]) == [a, b];
    assert FindByReferenceId([a, b], "b") == Some(b);
  }

  // -----------------------------------------------------------------------
  // Cancellation

  /** Half of what was paid. */
  function RefundAmount(b: Booking): Money {
    b.finalAmount * 0.5
  }

  /** The cancellation update as written: the refund test reads the status
      after it was set to CANCELLED, so it never refunds. */
  function CancelledAsWritten(b: Booking, now: Time, reason: string): (r: Booking)
    ensures r.bookingStatus == BookingStatus.Cancelled
    ensures r.cancellationTime == Some(now) && r.cancellationReason == Some(reason)
    ensures r.refundAmount == b.refundAmount
  {
    var c := b.(bookingStatus := BookingStatus.Cancelled, cancellationTime := Some(now), cancellationReason := Some(reason));
    if c.bookingStatus == Confirmed then c.(refundAmount := Some(RefundAmount(c))) else c
  }

  /** The cancellation update, corrected: a booking that was confirmed is
      refunded half of what was paid; one that only held seats is not. */
  function CancelledWithRefund(b: Booking, now: Time, reason: string): (r: Booking)
    ensures r.bookingStatus == BookingStatus.Cancelled
    ensures r.cancellationTime == Some(now) && r.cancellationReason == Some(reason)
    ensures b.bookingStatus == Confirmed ==> r.refundAmount == Some(b.finalAmount * 0.5)
    ensures b.bookingStatus != Confirmed ==> r.refundAmount == b.refundAmount
    ensures r.(bookingStatus := b.bookingStatus, cancellationTime := b.cancellationTime,
               cancellationReason := b.cancellationReason, refundAmount := b.refundAmount) == b
  {
    var refund := if b.bookingStatus == Confirmed then Some(RefundAmount(b)) else b.refundAmount;
    b.(bookingStatus := BookingStatus.Cancelled, cancellationTime := Some(now), cancellationReason := Some(reason),
       refundAmount := refund)
  }

  // -----------------------------------------------------------------------
  // Confirmation

  /** The statuses from which a payment can confirm a booking. */
  predicate Confirmable(s: BookingStatus) {
    s == SeatsBlocked || s == PaymentPending
  }

  /** The statuses from which a booking can be cancelled. */
  predicate Cancellable(s: BookingStatus) {
    s == Confirmed || s == SeatsBlocked
  }

  /** The booking with the payment callback written onto it: CONFIRMED when
      the payment succeeded, FAILED for any other payment status. */
  function PaymentRecorded(b: Booking, paymentReferenceId: string, paymentStatus: string): (r: Booking)
    ensures r.paymentReferenceId == Some(paymentReferenceId) && r.paymentStatus == paymentStatus
    ensures paymentStatus == "SUCCESS" <==> r.bookingStatus == Confirmed
    ensures paymentStatus != "SUCCESS" <==> r.bookingStatus == BookingStatus.Failed
    ensures r.(paymentReferenceId := b.paymentReferenceId, paymentStatus := b.paymentStatus,
               bookingStatus := b.bookingStatus) == b
  {
    var status := if paymentStatus == "SUCCESS" then Confirmed else BookingStatus.Failed;
    b.(paymentReferenceId := Some(paymentReferenceId), paymentStatus := paymentStatus, bookingStatus := status)
  }

  // -----------------------------------------------------------------------
  // The expiry sweep

  /** Whether the sweep picks the booking up: it still holds seats and its
      hold ran out strictly before `now`. */
  predicate IsExpiredHold(b: Booking, now: Time) {
    ExpiredIn(SeatsBlocked, now)(b)
  }

  /** What the sweep makes of one booking it picked up: EXPIRED, its seats
      unlocked. */
  function ExpiredHold(b: Booking): (r: Booking)
    ensures r.bookingStatus == Expired && r.referenceId == b.referenceId
    ensures HeldSeatIds(r) == HeldSeatIds(b)
    ensures forall i :: 0 <= i < |r.bookingSeats| ==> !r.bookingSeats[i].isLocked
  {
    Unlocked(b.(bookingStatus := Expired))
  }

  /** The booking table after a complete sweep at `now`. */
  function ExpireHolds(rows: seq<Booking>, now: Time): seq<Booking> {
    seq(|rows|, k requires 0 <= k < |rows| => if IsExpiredHold(rows[k], now) then ExpiredHold(rows[k]) else rows[k])
  }

  /** After a complete sweep no booking is left for a sweep at the same
      instant to pick up, and every other booking is as it was. */
  lemma ExpireHoldsLeavesNoHold(rows: seq<Booking>, now: Time)
    ensures FindExpiredBookings(ExpireHolds(rows, now), SeatsBlocked, now) == []
    ensures |ExpireHolds(rows, now)| == |rows|
    ensures forall k :: 0 <= k < |rows| && !IsExpiredHold(rows[k], now) ==> ExpireHolds(rows, now)[k] == rows[k]
  {
    var swept := ExpireHolds(rows, now);
    FilterEmpty(swept, ExpiredIn(SeatsBlocked, now));
  }

  /** The seat rows a list of bookings holds, booking after booking. */
  function ReleasedSeatIds(bs: seq<Booking>): (r: seq<Uuid>)
    ensures forall id :: id in r <==> exists b :: b in bs && id in HeldSeatIds(b)
  {
    if bs == [] then []
    else
      var init := bs[..|bs| - 1];
      var last := bs[|bs| - 1];
      assert forall b :: b in bs <==> b in init || b == last by {
        assert bs == init + [last];
      }
      ReleasedSeatIds(init) + HeldSeatIds(last)
  }

  /** Releasing one more booking of a list adds its seat rows at the end. */
  lemma ReleasedSeatIdsStep(bs: seq<Booking>, i: int)
    requires 0 <= i < |bs|
    ensures ReleasedSeatIds(bs[..i + 1]) == ReleasedSeatIds(bs[..i]) + HeldSeatIds(bs[i])
  {
    PrefixStep(bs, i);
  }

  /** How far the sweep has got: the bookings in `done` are swept, every
      other row of the table it started from is as it was. */
  ghost predicate SweptUpTo(rows0: seq<Booking>, done: seq<Booking>, rows: seq<Booking>) {
    && |rows| == |rows0|
    && forall k :: 0 <= k < |rows0| ==> rows[k] == if rows0[k] in done then ExpiredHold(rows0[k]) else rows0[k]
  }

  /** The next booking of the sweep's list is still on record as the query
      returned it. */
  lemma NextHoldUntouched(rows0: seq<Booking>, expired: seq<Booking>, i: int, rows: seq<Booking>)
    requires UniqueBookings(rows)
    requires Distinct(expired) && forall b :: b in expired ==> b in rows0
    requires 0 <= i < |expired|
    requires SweptUpTo(rows0, expired[..i], rows)
    ensures FindBooking(rows, expired[i].referenceId) == Some(expired[i])
    ensures expired[i] !in expired[..i]
  {
    var b := expired[i];
    assert b in rows0;
    var m :| 0 <= m < |rows0| && rows0[m] == b;
    assert b !in expired[..i] by {
      forall j | 0 <= j < i ensures expired[..i][j] != b {
        assert expired[..i][j] == expired[j];
      }
    }
    assert rows[m] == b;
    FindBookingUnique(rows, b);
  }

  /** One step of the sweep: marking the next booking EXPIRED and then
      unlocking its seats sweeps one more booking. */
  lemma SweepStep(rows0: seq<Booking>, expired: seq<Booking>, i: int, rows: seq<Booking>)
    requires UniqueBookings(rows0) && UniqueBookings(rows)
    requires Distinct(expired) && forall b :: b in expired ==> b in rows0
    requires 0 <= i < |expired|
    requires SweptUpTo(rows0, expired[..i], rows)
    ensures FindBooking(rows, expired[i].referenceId) == Some(expired[i])
    ensures SweptUpTo(rows0, expired[..i + 1], SaveBooking(rows, ExpiredHold(expired[i])))
  {
    var b := expired[i];
    NextHoldUntouched(rows0, expired, i, rows);
    var done := expired[..i];
    var next := SaveBooking(rows, ExpiredHold(b));
    assert b.referenceId in BookingIds(rows);
    PrefixStep(expired, i);
    forall k | 0 <= k < |rows0|
      ensures next[k] == if rows0[k] in done + [b] then ExpiredHold(rows0[k]) else rows0[k]
    {
      assert rows[k].referenceId == rows0[k].referenceId;
      if rows0[k].referenceId == b.referenceId {
        SameIdSameRow(rows0, k, b);
        assert next[k] == ExpiredHold(b);
      } else {
        assert rows0[k] != b;
        assert next[k] == rows[k];
      }
    }
  }

  /** Once every booking the query listed is swept, the table is the one
      `ExpireHolds` describes. */
  lemma SweptAll(rows0: seq<Booking>, now: Time, rows: seq<Booking>)
    requires SweptUpTo(rows0, FindExpiredBookings(rows0, SeatsBlocked, now), rows)
    ensures rows == ExpireHolds(rows0, now)
  {
    var expired := FindExpiredBookings(rows0, SeatsBlocked, now);
    forall k | 0 <= k < |rows0| ensures rows[k] == ExpireHolds(rows0, now)[k] {
      assert rows0[k] in expired <==> IsExpiredHold(rows0[k], now);
    }
  }

  /** The `k`-th booking of the sweep's list is the first whose journey the
      journey service does not know: the one whose release fails. */
  predicate FirstUnknownJourney(expired: seq<Booking>, k: int, known: seq<Uuid>)
    requires 0 <= k < |expired|
  {
    && expired[k].journeyReferenceId !in known
    && forall j :: 0 <= j < k ==> expired[j].journeyReferenceId in known
  }

  /** What a successful `releaseBlockedSeats` of booking `b` does on the
      journey side: the journey is on record, the booking's seat rows are
      free again, and the journey's counter gets back one seat per row
      found. */
  ghost predicate SeatsReleased(seats0: seq<SeatInventory>, journeys0: seq<Journey>,
                                seats1: seq<SeatInventory>, journeys1: seq<Journey>, b: Booking) {
    && FindJourney(journeys0, b.journeyReferenceId).Some?
    && seats1 == BulkUpdate(seats0, HeldSeatIds(b), true, None)
    && journeys1 == ReturnAvailable(journeys0, b.journeyReferenceId,
                                    |FindByReferenceIdsWithLock(seats0, HeldSeatIds(b))|)
  }

  // -----------------------------------------------------------------------
  // The service

  class BookingService {
    var bookings: seq<Booking>
    /** The journey service, as the booking service reaches it. */
    const gateway: SeatManagementService

    ghost predicate Valid()
      reads this, gateway.db
    {
      UniqueBookings(bookings) && gateway.db.Valid()
    }

    constructor(gateway: SeatManagementService)
      requires gateway.db.Valid()
      ensures Valid()
      ensures this.gateway == gateway && bookings == []
    {
      this.gateway := gateway;
      bookings := [];
    }

    /** The first half of `initiateBooking`: the passenger count, the
        journey's details, and the lock of the selected seats. On success,
        the seat views of the rows locked, every one reported taken, and by
        id carrying the fare of its row. */
    method LockSelectedSeats(req: BookingRequest) returns (r: Result<seq<SeatInventoryDto>>)
      requires Valid()
      modifies gateway.db
      ensures Valid() && gateway.db.routes == old(gateway.db.routes)
      ensures r.Failure? ==> gateway.db.seats == old(gateway.db.seats) && gateway.db.journeys == old(gateway.db.journeys)
      ensures |req.seatSelections| != |req.passengers| ==>
        r == Failure(BusinessRule("Number of seats must match number of passengers"))
      ensures |req.seatSelections| == |req.passengers| && FindJourney(old(gateway.db.journeys), req.journeyReferenceId).None? ==>
        r == Failure(RemoteCallFailed("Failed to fetch journey details"))
      ensures && |req.seatSelections| == |req.passengers|
              && FindJourney(old(gateway.db.journeys), req.journeyReferenceId).Some?
              && !FindJourney(old(gateway.db.journeys), req.journeyReferenceId).value.isActive ==>
        r == Failure(BusinessRule("Journey is not active for booking"))
      ensures && |req.seatSelections| == |req.passengers|
              && JourneyActive(old(gateway.db.journeys), req.journeyReferenceId)
              && !LockGranted(old(gateway.db.journeys), old(gateway.db.seats), req.journeyReferenceId,
                              SelectedSeatIds(req.seatSelections)) ==>
        r == Failure(RemoteCallFailed("Failed to lock seats"))
      ensures r.Success? <==>
        && |req.seatSelections| == |req.passengers|
        && LockGranted(old(gateway.db.journeys), old(gateway.db.seats), req.journeyReferenceId,
                       SelectedSeatIds(req.seatSelections))
      ensures r.Success? ==>
        LockedForRequest(old(gateway.db.journeys), old(gateway.db.seats), gateway.db.journeys, gateway.db.seats, req, r.value)
    {
      if |req.seatSelections| != |req.passengers| {
        return Failure(BusinessRule("Number of seats must match number of passengers"));
      }
      var journey := FindJourney(gateway.db.journeys, req.journeyReferenceId);
      if journey.None? {
        return Failure(RemoteCallFailed("Failed to fetch journey details"));
      }
      if !journey.value.isActive {
        return Failure(BusinessRule("Journey is not active for booking"));
      }
      var ids := SelectedSeatIds(req.seatSelections);
      ghost var journeys, rows := gateway.db.journeys, gateway.db.seats;
      var lock := gateway.LockSeatsForBooking(req.journeyReferenceId, ids);
      if lock.Failure? {
        return Failure(RemoteCallFailed("Failed to lock seats"));
      }
      LockedForRequestHolds(journeys, rows, gateway.db.journeys, gateway.db.seats, req, lock.value);
      r := lock;
    }

    /** `initiateBooking`, with the guard after the lock as written. It
        never records a booking: the guard rejects every lock that went
        through, and the seats that lock took stay locked. */
    method InitiateBookingAsWritten(req: BookingRequest) returns (r: Result<Booking>)
      requires Valid()
      modifies gateway.db
      ensures Valid()
      ensures r.Failure?
      ensures |req.seatSelections| == |req.passengers|
              && LockGranted(old(gateway.db.journeys), old(gateway.db.seats), req.journeyReferenceId,
                             SelectedSeatIds(req.seatSelections)) ==>
        && r == Failure(BusinessRule("Selected seats are not available"))
        && gateway.db.seats == BulkUpdate(old(gateway.db.seats), SelectedSeatIds(req.seatSelections), false, Some(LockedMarker))
        && gateway.db.journeys == TakeAvailable(old(gateway.db.journeys), req.journeyReferenceId, |req.seatSelections|)
    {
      var lock := LockSelectedSeats(req);
      if lock.Failure? {
        return Failure(lock.error);
      }
      var views := lock.value;
      LockedSnapshotsRejected(views);
      if SnapshotRejectedAsWritten(views) {
        return Failure(BusinessRule("Selected seats are not available"));
      }
      assert false;
    }

    /** `initiateBooking`, with the guard after the lock corrected to reject
        only an empty answer, the booking seats paired with the seat views
        by id, and the passengers persisted before their ids are read. */
    method InitiateBooking(req: BookingRequest, now: Time, bookingId: Uuid, bookingCode: string, passengerIds: seq<Uuid>)
      returns (r: Result<Booking>)
      requires Valid()
      requires |passengerIds| == |req.passengers|
      modifies this, gateway.db
      ensures Valid() && gateway.db.routes == old(gateway.db.routes)
      ensures r.Failure? ==> bookings == old(bookings)
      ensures !LockGranted(old(gateway.db.journeys), old(gateway.db.seats), req.journeyReferenceId,
                           SelectedSeatIds(req.seatSelections)) || |req.seatSelections| != |req.passengers| ==>
        && r.Failure?
        && gateway.db.seats == old(gateway.db.seats) && gateway.db.journeys == old(gateway.db.journeys)
      ensures && |req.seatSelections| == |req.passengers|
              && LockGranted(old(gateway.db.journeys), old(gateway.db.seats), req.journeyReferenceId,
                             SelectedSeatIds(req.seatSelections)) ==>
        && gateway.db.journeys == TakeAvailable(old(gateway.db.journeys), req.journeyReferenceId, |req.seatSelections|)
        && gateway.db.seats == BulkUpdate(old(gateway.db.seats), SelectedSeatIds(req.seatSelections), false,
                                          Some(if r.Success? then bookingId else LockedMarker))
        && (req.seatSelections == [] ==> r == Failure(BusinessRule("Selected seats are not available")))
        && (req.seatSelections != [] && bookingId in BookingIds(old(bookings)) ==>
              r == Failure(DuplicateKey("bookings.reference_id")))
        && (req.seatSelections != [] && bookingId !in BookingIds(old(bookings)) && bookingCode in BookingCodes(old(bookings)) ==>
              r == Failure(DuplicateKey("bookings.booking_code")))
      ensures r.Success? <==>
        && |req.seatSelections| == |req.passengers|
        && LockGranted(old(gateway.db.journeys), old(gateway.db.seats), req.journeyReferenceId,
                       SelectedSeatIds(req.seatSelections))
        && req.seatSelections != []
        && bookingId !in BookingIds(old(bookings)) && bookingCode !in BookingCodes(old(bookings))
      ensures r.Success? ==>
        var baseFare := FindJourney(old(gateway.db.journeys), req.journeyReferenceId).value.baseFare;
        var ids := SelectedSeatIds(req.seatSelections);
        && bookings == old(bookings) + [r.value]
        && IsNewBooking(r.value, req, now, bookingId, bookingCode, passengerIds,
                        LockedTotal(old(gateway.db.seats), ids, baseFare), RowFares(old(gateway.db.seats), ids, baseFare))
      ensures r.Success? ==> SumOf(r.value.bookingSeats, SeatFareOf) == r.value.totalAmount
    {
      var ids := SelectedSeatIds(req.seatSelections);
      ghost var rows := gateway.db.seats;
      var lock := LockSelectedSeats(req);
      if lock.Failure? {
        return Failure(lock.error);
      }
      var views := lock.value;
      if views == [] {
        return Failure(BusinessRule("Selected seats are not available"));
      }
      if bookingId in BookingIds(bookings) {
        return Failure(DuplicateKey("bookings.reference_id"));
      }
      if bookingCode in BookingCodes(bookings) {
        return Failure(DuplicateKey("bookings.booking_code"));
      }
      var booking := RecordBooking(req, views, now, bookingId, bookingCode, passengerIds);
      LockGrantedIff(old(gateway.db.journeys), rows, req.journeyReferenceId, ids);
      NewBookingFaresSumToTotal(booking, req, now, bookingId, bookingCode, passengerIds, rows,
                                FindJourney(old(gateway.db.journeys), req.journeyReferenceId).value.baseFare);
      var stamped := gateway.UpdateSeatBookingStatus(req.journeyReferenceId, ids, bookingId);
      BulkUpdateOverwrites(rows, ids, false, Some(LockedMarker), false, Some(bookingId));
      r := Success(booking);
    }

    /** Builds the booking from the locked seat views and saves it. */
    method RecordBooking(req: BookingRequest, views: seq<SeatInventoryDto>, now: Time, bookingId: Uuid,
                         bookingCode: string, passengerIds: seq<Uuid>)
      returns (b: Booking)
      requires UniqueBookings(bookings)
      requires bookingId !in BookingIds(bookings) && bookingCode !in BookingCodes(bookings)
      requires |req.seatSelections| == |req.passengers| == |passengerIds|
      requires forall i :: 0 <= i < |req.seatSelections| ==>
        ViewOf(views, req.seatSelections[i].seatInventoryReferenceId).Some?
      modifies this
      ensures UniqueBookings(bookings) && bookings == old(bookings) + [b]
      ensures IsNewBooking(b, req, now, bookingId, bookingCode, passengerIds, TotalFare(views),
                           ViewFares(views, SelectedSeatIds(req.seatSelections)))
    {
      var sel := req.seatSelections;
      var passengers := BuildPassengers(sel, req.passengers);
      passengers := Persisted(passengers, passengerIds);
      var seats := BuildBookingSeats(sel, views, passengers);
      var total := TotalFare(views);
      b := Booking(bookingId, bookingCode, req.userReferenceId, req.journeyReferenceId, |sel|, total, 0.0, total,
                   SeatsBlocked, "PENDING", None, now, now + BookingExpiryMinutes, None, None, None, passengers, seats);
      SaveNewBooking(bookings, b);
      bookings := SaveBooking(bookings, b);
    }

    /** `releaseBlockedSeats`: frees the booking's seats on the journey side,
        then marks its booking seats unlocked. */
    method ReleaseBlockedSeats(bookingId: Uuid) returns (st: Status)
      requires Valid()
      modifies this, gateway.db
      ensures Valid() && gateway.db.routes == old(gateway.db.routes)
      ensures FindBooking(old(bookings), bookingId).None? ==>
        st == Status.Failed(ResourceNotFound("Booking not found")) && bookings == old(bookings) && gateway.db.seats == old(gateway.db.seats) && gateway.db.journeys == old(gateway.db.journeys)
      ensures FindBooking(old(bookings), bookingId).Some? ==>
        var b := FindBooking(old(bookings), bookingId).value;
        && (FindJourney(old(gateway.db.journeys), b.journeyReferenceId).None? ==>
              st == Status.Failed(RemoteCallFailed("Failed to release seats"))
              && bookings == old(bookings)
              && gateway.db.seats == old(gateway.db.seats) && gateway.db.journeys == old(gateway.db.journeys))
        && (FindJourney(old(gateway.db.journeys), b.journeyReferenceId).Some? ==>
              && st == Done
              && bookings == SaveBooking(old(bookings), Unlocked(b))
              && gateway.db.seats == BulkUpdate(old(gateway.db.seats), HeldSeatIds(b), true, None)
              && gateway.db.journeys == ReturnAvailable(old(gateway.db.journeys), b.journeyReferenceId,
                                                        |FindByReferenceIdsWithLock(old(gateway.db.seats), HeldSeatIds(b))|))
    {
      var found := FindBooking(bookings, bookingId);
      if found.None? {
        return Status.Failed(ResourceNotFound("Booking not found"));
      }
      var b := found.value;
      var released := gateway.ReleaseSeats(b.journeyReferenceId, HeldSeatIds(b));
      if released.Failed? {
        return Status.Failed(RemoteCallFailed("Failed to release seats"));
      }
      SaveExistingBooking(bookings, Unlocked(b), bookingId);
      bookings := SaveBooking(bookings, Unlocked(b));
      st := Done;
    }

    /** `updateBookingStatus`: sets the status, whatever it was. */
    method UpdateBookingStatus(bookingId: Uuid, status: BookingStatus) returns (st: Status)
      requires Valid()
      modifies this
      ensures Valid()
      ensures FindBooking(old(bookings), bookingId).None? ==>
        st == Status.Failed(ResourceNotFound("Booking not found")) && bookings == old(bookings)
      ensures FindBooking(old(bookings), bookingId).Some? ==>
        && st == Done
        && bookings == SaveBooking(old(bookings), FindBooking(old(bookings), bookingId).value.(bookingStatus := status))
        && FindBooking(bookings, bookingId) == Some(FindBooking(old(bookings), bookingId).value.(bookingStatus := status))
    {
      var found := FindBooking(bookings, bookingId);
      if found.None? {
        return Status.Failed(ResourceNotFound("Booking not found"));
      }
      var b := found.value.(bookingStatus := status);
      SaveExistingBooking(bookings, b, bookingId);
      bookings := SaveBooking(bookings, b);
      st := Done;
    }

    /** `confirmBooking`: applies a payment callback to a booking that holds
        seats or awaits payment. A hold that ran out is released and the
        call fails; the failure rolls back the EXPIRED status, so the booking
        still holds its seats on record while the journey side has freed
        them. A successful payment confirms the booking; any other payment
        status fails it and frees its seats. */
    method ConfirmBooking(bookingId: Uuid, paymentReferenceId: string, paymentStatus: string, now: Time)
      returns (r: Result<Booking>)
      requires Valid()
      modifies this, gateway.db
      ensures Valid() && gateway.db.routes == old(gateway.db.routes)
      ensures r.Failure? ==> bookings == old(bookings)
      ensures FindBooking(old(bookings), bookingId).None? ==>
        && r == Failure(ResourceNotFound("Booking not found"))
        && gateway.db.seats == old(gateway.db.seats) && gateway.db.journeys == old(gateway.db.journeys)
      ensures FindBooking(old(bookings), bookingId).Some? ==>
        var b := FindBooking(old(bookings), bookingId).value;
        var known := FindJourney(old(gateway.db.journeys), b.journeyReferenceId).Some?;
        var untouched := gateway.db.seats == old(gateway.db.seats) && gateway.db.journeys == old(gateway.db.journeys);
        var released := SeatsReleased(old(gateway.db.seats), old(gateway.db.journeys), gateway.db.seats, gateway.db.journeys, b);
        && (!Confirmable(b.bookingStatus) ==>
              r == Failure(BusinessRule("Booking cannot be confirmed in current status: " + StatusName(b.bookingStatus)))
              && untouched)
        && (Confirmable(b.bookingStatus) && now > b.expiryTime ==>
              if known then r == Failure(BusinessRule("Booking has expired")) && released
              else r == Failure(RemoteCallFailed("Failed to release seats")) && untouched)
        && (Confirmable(b.bookingStatus) && now <= b.expiryTime && paymentStatus == "SUCCESS" ==>
              && untouched
              && if known then
                   r == Success(PaymentRecorded(b, paymentReferenceId, paymentStatus))
                   && bookings == SaveBooking(old(bookings), r.value)
                 else r == Failure(RemoteCallFailed("Failed to fetch journey details")))
        && (Confirmable(b.bookingStatus) && now <= b.expiryTime && paymentStatus != "SUCCESS" ==>
              if known then
                r == Success(Unlocked(PaymentRecorded(b, paymentReferenceId, paymentStatus)))
                && bookings == SaveBooking(old(bookings), r.value) && released
              else r == Failure(RemoteCallFailed("Failed to release seats")) && untouched)
    {
      var found := FindBooking(bookings, bookingId);
      if found.None? {
        return Failure(ResourceNotFound("Booking not found"));
      }
      var b := found.value;
      if !Confirmable(b.bookingStatus) {
        return Failure(BusinessRule("Booking cannot be confirmed in current status: " + StatusName(b.bookingStatus)));
      }
      var snapshot := bookings;
      if now > b.expiryTime {
        // The status is set on the managed row, which the release saves;
        // the exception thrown next rolls the booking table back.
        var e := b.(bookingStatus := Expired);
        SaveExistingBooking(bookings, e, bookingId);
        bookings := SaveBooking(bookings, e);
        var released := ReleaseBlockedSeats(bookingId);
        bookings := snapshot;
        if released.Failed? {
          return Failure(released.error);
        }
        return Failure(BusinessRule("Booking has expired"));
      }
      var paid := PaymentRecorded(b, paymentReferenceId, paymentStatus);
      SaveExistingBooking(bookings, paid, bookingId);
      bookings := SaveBooking(bookings, paid);
      if paymentStatus != "SUCCESS" {
        ghost var journeys, rows := gateway.db.journeys, gateway.db.seats;
        var released := ReleaseBlockedSeats(bookingId);
        if released.Failed? {
          bookings := snapshot;
          return Failure(released.error);
        }
        // The release saved the managed row with its seats unlocked; the
        // save after it writes that same row again.
        SaveBookingOverwrites(snapshot, paid, Unlocked(paid));
        ReturnAvailableFacts(journeys, b.journeyReferenceId, FindJourney(journeys, b.journeyReferenceId).value,
                             |FindByReferenceIdsWithLock(rows, HeldSeatIds(b))|, b.journeyReferenceId);
        paid := Unlocked(paid);
      }
      if FindJourney(gateway.db.journeys, b.journeyReferenceId).None? {
        bookings := snapshot;
        return Failure(RemoteCallFailed("Failed to fetch journey details"));
      }
      r := Success(paid);
    }

    /** `cancelBooking`: cancels a confirmed booking or one that holds
        seats, and frees its seats. A confirmed booking is refunded half of
        what was paid (the corrected refund test). */
    method CancelBooking(bookingId: Uuid, reason: string, now: Time) returns (r: Result<Booking>)
      requires Valid()
      modifies this, gateway.db
      ensures Valid() && gateway.db.routes == old(gateway.db.routes)
      ensures r.Failure? ==> bookings == old(bookings)
      ensures FindBooking(old(bookings), bookingId).None? ==>
        && r == Failure(ResourceNotFound("Booking not found"))
        && gateway.db.seats == old(gateway.db.seats) && gateway.db.journeys == old(gateway.db.journeys)
      ensures FindBooking(old(bookings), bookingId).Some? ==>
        var b := FindBooking(old(bookings), bookingId).value;
        var untouched := gateway.db.seats == old(gateway.db.seats) && gateway.db.journeys == old(gateway.db.journeys);
        && (b.bookingStatus == BookingStatus.Cancelled ==>
              r == Failure(BusinessRule("Booking is already cancelled")) && untouched)
        && (b.bookingStatus != BookingStatus.Cancelled && !Cancellable(b.bookingStatus) ==>
              r == Failure(BusinessRule("Booking cannot be cancelled in current status: " + StatusName(b.bookingStatus)))
              && untouched)
        && (Cancellable(b.bookingStatus) ==>
              if FindJourney(old(gateway.db.journeys), b.journeyReferenceId).Some? then
                && r == Success(Unlocked(CancelledWithRefund(b, now, reason)))
                && bookings == SaveBooking(old(bookings), r.value)
                && SeatsReleased(old(gateway.db.seats), old(gateway.db.journeys), gateway.db.seats, gateway.db.journeys, b)
              else r == Failure(RemoteCallFailed("Failed to release seats")) && untouched)
    {
      var found := FindBooking(bookings, bookingId);
      if found.None? {
        return Failure(ResourceNotFound("Booking not found"));
      }
      var b := found.value;
      if b.bookingStatus == BookingStatus.Cancelled {
        return Failure(BusinessRule("Booking is already cancelled"));
      }
      if !Cancellable(b.bookingStatus) {
        return Failure(BusinessRule("Booking cannot be cancelled in current status: " + StatusName(b.bookingStatus)));
      }
      var snapshot := bookings;
      var c := CancelledWithRefund(b, now, reason);
      SaveExistingBooking(bookings, c, bookingId);
      bookings := SaveBooking(bookings, c);
      ghost var journeys, rows := gateway.db.journeys, gateway.db.seats;
      var released := ReleaseBlockedSeats(bookingId);
      if released.Failed? {
        bookings := snapshot;
        return Failure(released.error);
      }
      SaveBookingOverwrites(snapshot, c, Unlocked(c));
      // The journey fetched for the answer is the one the release just
      // went through, so the fetch cannot fail here.
      ReturnAvailableFacts(journeys, b.journeyReferenceId, FindJourney(journeys, b.journeyReferenceId).value,
                           |FindByReferenceIdsWithLock(rows, HeldSeatIds(b))|, b.journeyReferenceId);
      assert FindJourney(gateway.db.journeys, b.journeyReferenceId).Some?;
      r := Success(Unlocked(c));
    }

    /** `processExpiredBookings`: every booking whose hold ran out before
        `now` is marked EXPIRED and its seats are freed, one after another.
        A release that fails rolls the whole booking table back, while the
        releases made before it stay made. */
    method ProcessExpiredBookings(now: Time) returns (st: Status)
      requires Valid()
      modifies this, gateway.db
      ensures Valid() && gateway.db.routes == old(gateway.db.routes)
      ensures JourneyIds(gateway.db.journeys) == JourneyIds(old(gateway.db.journeys))
      ensures st.Done? <==> forall b :: b in FindExpiredBookings(old(bookings), SeatsBlocked, now) ==>
                              b.journeyReferenceId in JourneyIds(old(gateway.db.journeys))
      ensures st.Failed? ==> st == Status.Failed(RemoteCallFailed("Failed to release seats")) && bookings == old(bookings)
      ensures st.Failed? ==>
        var expired := FindExpiredBookings(old(bookings), SeatsBlocked, now);
        exists k :: 0 <= k < |expired| && FirstUnknownJourney(expired, k, JourneyIds(old(gateway.db.journeys)))
                 && gateway.db.seats == BulkUpdate(old(gateway.db.seats), ReleasedSeatIds(expired[..k]), true, None)
      ensures st.Done? ==>
        && bookings == ExpireHolds(old(bookings), now)
        && gateway.db.seats == BulkUpdate(old(gateway.db.seats),
                                          ReleasedSeatIds(FindExpiredBookings(old(bookings), SeatsBlocked, now)), true, None)
    {
      var snapshot := bookings;
      var expired := FindExpiredBookings(bookings, SeatsBlocked, now);
      ExpiredBookingsDistinct(bookings, SeatsBlocked, now);
      st := ExpireEach(expired, snapshot);
      if st.Failed? {
        bookings := snapshot;
      } else {
        SweptAll(snapshot, now, bookings);
      }
    }

    /** The loop of `processExpiredBookings` over the bookings the query
        listed, each expired in turn; it stops at the first release that
        fails. */
    method ExpireEach(expired: seq<Booking>, ghost rows0: seq<Booking>) returns (st: Status)
      requires Valid() && bookings == rows0 && UniqueBookings(rows0)
      requires Distinct(expired) && forall b :: b in expired ==> b in rows0
      modifies this, gateway.db
      ensures Valid() && gateway.db.routes == old(gateway.db.routes)
      ensures JourneyIds(gateway.db.journeys) == JourneyIds(old(gateway.db.journeys))
      ensures st.Done? <==> forall j :: 0 <= j < |expired| ==> expired[j].journeyReferenceId in JourneyIds(old(gateway.db.journeys))
      ensures st.Failed? ==> st == Status.Failed(RemoteCallFailed("Failed to release seats"))
      ensures st.Failed? ==>
        exists k :: 0 <= k < |expired| && FirstUnknownJourney(expired, k, JourneyIds(old(gateway.db.journeys)))
                 && gateway.db.seats == BulkUpdate(old(gateway.db.seats), ReleasedSeatIds(expired[..k]), true, None)
      ensures st.Done? ==>
        && SweptUpTo(rows0, expired, bookings)
        && gateway.db.seats == BulkUpdate(old(gateway.db.seats), ReleasedSeatIds(expired), true, None)
    {
      ghost var seats0, journeys0 := gateway.db.seats, gateway.db.journeys;
      assert expired[..0] == [];
      var i := 0;
      while i < |expired|
        invariant 0 <= i <= |expired|
        invariant Valid() && gateway.db.routes == old(gateway.db.routes)
        invariant JourneyIds(gateway.db.journeys) == JourneyIds(journeys0)
        invariant forall j :: 0 <= j < i ==> expired[j].journeyReferenceId in JourneyIds(journeys0)
        invariant SweptUpTo(rows0, expired[..i], bookings)
        invariant gateway.db.seats == BulkUpdate(seats0, ReleasedSeatIds(expired[..i]), true, None)
      {
        st := SweepTurn(expired, i, rows0, seats0);
        if st.Failed? {
          assert FirstUnknownJourney(expired, i, JourneyIds(journeys0));
          return;
        }
        i := i + 1;
      }
      assert expired[..i] == expired;
      st := Done;
    }

    /** One turn of the sweep's loop, on the `i`-th booking listed: once it
        is expired, the sweep covers one more booking, and the seat rows
        freed so far one more booking's. */
    method SweepTurn(expired: seq<Booking>, i: int, ghost rows0: seq<Booking>, ghost seats0: seq<SeatInventory>)
      returns (st: Status)
      requires Valid() && UniqueBookings(rows0)
      requires Distinct(expired) && forall b :: b in expired ==> b in rows0
      requires 0 <= i < |expired| && SweptUpTo(rows0, expired[..i], bookings)
      requires gateway.db.seats == BulkUpdate(seats0, ReleasedSeatIds(expired[..i]), true, None)
      modifies this, gateway.db
      ensures Valid() && gateway.db.routes == old(gateway.db.routes)
      ensures JourneyIds(gateway.db.journeys) == JourneyIds(old(gateway.db.journeys))
      ensures st.Done? <==> expired[i].journeyReferenceId in JourneyIds(old(gateway.db.journeys))
      ensures st.Failed? ==> st == Status.Failed(RemoteCallFailed("Failed to release seats"))
      ensures st.Failed? ==> gateway.db.seats == old(gateway.db.seats) && gateway.db.journeys == old(gateway.db.journeys)
      ensures st.Done? ==>
        && SweptUpTo(rows0, expired[..i + 1], bookings)
        && gateway.db.seats == BulkUpdate(seats0, ReleasedSeatIds(expired[..i + 1]), true, None)
    {
      var b := expired[i];
      SweepStep(rows0, expired, i, bookings);
      st := ExpireBooking(b);
      if st.Done? {
        BulkUpdateAccumulates(seats0, ReleasedSeatIds(expired[..i]), HeldSeatIds(b), true, None);
        ReleasedSeatIdsStep(expired, i);
      }
    }

    /** What the sweep does to one booking: it is marked EXPIRED and saved,
        then its seats are released, which saves it again with its seats
        unlocked. */
    method ExpireBooking(b: Booking) returns (st: Status)
      requires Valid()
      requires FindBooking(bookings, b.referenceId) == Some(b)
      modifies this, gateway.db
      ensures Valid() && gateway.db.routes == old(gateway.db.routes)
      ensures JourneyIds(gateway.db.journeys) == JourneyIds(old(gateway.db.journeys))
      ensures st.Done? <==> b.journeyReferenceId in JourneyIds(old(gateway.db.journeys))
      ensures st.Failed? ==> st == Status.Failed(RemoteCallFailed("Failed to release seats"))
      ensures st.Failed? ==> gateway.db.seats == old(gateway.db.seats) && gateway.db.journeys == old(gateway.db.journeys)
      ensures st.Done? ==>
        && bookings == SaveBooking(old(bookings), ExpiredHold(b))
        && gateway.db.seats == BulkUpdate(old(gateway.db.seats), HeldSeatIds(b), true, None)
    {
      var e := b.(bookingStatus := Expired);
      SaveExistingBooking(bookings, e, b.referenceId);
      ghost var rows := bookings;
      bookings := SaveBooking(bookings, e);
      ghost var journeys, seats := gateway.db.journeys, gateway.db.seats;
      st := ReleaseBlockedSeats(b.referenceId);
      if st.Done? {
        SaveBookingOverwrites(rows, e, Unlocked(e));
        ReturnAvailableFacts(journeys, b.journeyReferenceId, FindJourney(journeys, b.journeyReferenceId).value,
                             |FindByReferenceIdsWithLock(seats, HeldSeatIds(b))|, b.journeyReferenceId);
      }
    }

    /** `getBookingById`: the booking with that id, once the journey service
        has answered for its journey. */
    function GetBookingById(bookingId: Uuid): (r: Result<Booking>)
      reads this, gateway.db
      ensures r.Success? <==> bookingId in BookingIds(bookings)
                              && FindJourney(gateway.db.journeys, FindBooking(bookings, bookingId).value.journeyReferenceId).Some?
      ensures r.Success? ==> r.value in bookings && r.value.referenceId == bookingId
      ensures bookingId !in BookingIds(bookings) ==> r == Failure(ResourceNotFound("Booking not found"))
    {
      match FindBooking(bookings, bookingId)
      case None => Failure(ResourceNotFound("Booking not found"))
      case Some(b) =>
        if FindJourney(gateway.db.journeys, b.journeyReferenceId).None? then
          Failure(RemoteCallFailed("Failed to fetch journey details"))
        else Success(b)
    }

    /** `getBookingByCode`: the booking with that code, once the journey
        service has answered for its journey. */
    function GetBookingByCode(bookingCode: string): (r: Result<Booking>)
      reads this, gateway.db
      ensures r.Success? <==> bookingCode in BookingCodes(bookings)
                              && FindJourney(gateway.db.journeys, FindByBookingCode(bookings, bookingCode).value.journeyReferenceId).Some?
      ensures r.Success? ==> r.value in bookings && r.value.bookingCode == bookingCode
      ensures bookingCode !in BookingCodes(bookings) ==> r == Failure(ResourceNotFound("Booking not found"))
    {
      match FindByBookingCode(bookings, bookingCode)
      case None => Failure(ResourceNotFound("Booking not found"))
      case Some(b) =>
        if FindJourney(gateway.db.journeys, b.journeyReferenceId).None? then
          Failure(RemoteCallFailed("Failed to fetch journey details"))
        else Success(b)
    }

    /** `getUserBookings`: all the user's bookings, in table order; the
        journey of each is fetched, and one the journey service does not know
        fails the whole listing. */
    function GetUserBookings(userId: string): (r: Result<seq<Booking>>)
      reads this, gateway.db
      ensures r.Success? <==> forall b :: b in bookings && b.userReferenceId == userId ==>
                                FindJourney(gateway.db.journeys, b.journeyReferenceId).Some?
      ensures r.Success? ==> forall b :: b in r.value <==> b in bookings && b.userReferenceId == userId
      ensures r.Failure? ==> r == Failure(RemoteCallFailed("Failed to fetch journey details"))
    {
      var mine := FindByUserReferenceId(bookings, userId);
      if forall b :: b in mine ==> FindJourney(gateway.db.journeys, b.journeyReferenceId).Some? then Success(mine)
      else Failure(RemoteCallFailed("Failed to fetch journey details"))
    }

    /** `getJourneyBookings`: the journey is fetched first; then every
        booking of it, in table order. */
    function GetJourneyBookings(journeyId: Uuid): (r: Result<seq<Booking>>)
      reads this, gateway.db
      ensures r.Success? <==> FindJourney(gateway.db.journeys, journeyId).Some?
      ensures r.Success? ==> forall b :: b in r.value <==> b in bookings && b.journeyReferenceId == journeyId
    {
      if FindJourney(gateway.db.journeys, journeyId).None? then Failure(RemoteCallFailed("Failed to fetch journey details"))
      else Success(FindByJourneyReferenceId(bookings, journeyId))
    }

    /** `checkSeatAvailability`: asks the journey service for the journey's
        seats, keeps those listed, and answers whether all of them are free.
        An id that names none of the journey's seats is not looked at. */
    function CheckSeatAvailability(journeyId: Uuid, seatIds: seq<Uuid>): (r: Result<bool>)
      reads gateway.db
      ensures FindJourney(gateway.db.journeys, journeyId).None? ==>
        r == Failure(RemoteCallFailed("Failed to get seat inventory"))
      ensures FindJourney(gateway.db.journeys, journeyId).Some? ==>
        r == Success(forall s :: s in gateway.db.seats && s.journeyReferenceId == journeyId && s.referenceId in seatIds
                                 ==> s.isAvailable)
    {
      match gateway.GetSeatInventory(journeyId, None)
      case Failure(_) => Failure(RemoteCallFailed("Failed to get seat inventory"))
      case Success(all) =>
        var listed := Filter(all, (d: SeatInventoryDto) => d.referenceId in seatIds);
        var baseFare := FindJourney(gateway.db.journeys, journeyId).value.baseFare;
        assert (forall d :: d in listed ==> d.isAvailable)
           <==> (forall s :: s in gateway.db.seats && s.journeyReferenceId == journeyId && s.referenceId in seatIds
                             ==> s.isAvailable) by {
          forall s | s in gateway.db.seats && s.journeyReferenceId == journeyId && s.referenceId in seatIds
            ensures ToSeatInventoryDto(s, baseFare) in listed
          {
          }
        }
        Success(forall d :: d in listed ==> d.isAvailable)
    }
  }
}
