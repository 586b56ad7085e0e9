/** The booking table and the queries the booking service runs against it. */
module BookingRepository {
  import opened Common
  import opened Seqs
  import opened BookingModel

  function BookingIds(rows: seq<Booking>): seq<Uuid> {
    seq(|rows|, i requires 0 <= i < |rows| => rows[i].referenceId)
  }

  function BookingCodes(rows: seq<Booking>): seq<string> {
    seq(|rows|, i requires 0 <= i < |rows| => rows[i].bookingCode)
  }

  /** The unique constraints on `reference_id` and `booking_code`. */
  predicate UniqueBookings(rows: seq<Booking>) {
    Distinct(BookingIds(rows)) && Distinct(BookingCodes(rows))
  }

  /** `findByReferenceId` (and `findByReferenceIdWithLock`, the same lookup
      under a row lock). */
  function FindBooking(rows: seq<Booking>, id: Uuid): (r: Option<Booking>)
    ensures r.Some? <==> id in BookingIds(rows)
    ensures r.Some? ==> r.value in rows && r.value.referenceId == id
  {
    if rows == [] then None
    else if rows[0].referenceId == id then
      assert BookingIds(rows)[0] == id;
      Some(rows[0])
    else
      assert BookingIds(rows) == [rows[0].referenceId] + BookingIds(rows[1..]);
      FindBooking(rows[1..], id)
  }

  /** `findByBookingCode`. */
  function FindByBookingCode(rows: seq<Booking>, code: string): (r: Option<Booking>)
    ensures r.Some? <==> code in BookingCodes(rows)
    ensures r.Some? ==> r.value in rows && r.value.bookingCode == code
  {
    if rows == [] then None
    else if rows[0].bookingCode == code then
      assert BookingCodes(rows)[0] == code;
      Some(rows[0])
    else
      assert BookingCodes(rows) == [rows[0].bookingCode] + BookingCodes(rows[1..]);
      FindByBookingCode(rows[1..], code)
  }

  /** Under the unique constraints a lookup by reference id finds the one
      row that has it, and so does a lookup by code. */
  lemma FindBookingUnique(rows: seq<Booking>, b: Booking)
    requires UniqueBookings(rows)
    requires b in rows
    ensures FindBooking(rows, b.referenceId) == Some(b)
    ensures FindByBookingCode(rows, b.bookingCode) == Some(b)
  {
    var i :| 0 <= i < |rows| && rows[i] == b;
    assert BookingIds(rows)[i] == b.referenceId;
    assert BookingCodes(rows)[i] == b.bookingCode;
    var r := FindBooking(rows, b.referenceId);
    var k :| 0 <= k < |rows| && rows[k] == r.value;
    assert BookingIds(rows)[i] == BookingIds(rows)[k];
    var c := FindByBookingCode(rows, b.bookingCode);
    var m :| 0 <= m < |rows| && rows[m] == c.value;
    assert BookingCodes(rows)[i] == BookingCodes(rows)[m];
  }

  /** `save`: a row whose reference id is on record is overwritten in place,
      any other row is appended. */
  function SaveBooking(rows: seq<Booking>, b: Booking): (r: seq<Booking>)
    ensures b.referenceId in BookingIds(rows) ==>
      |r| == |rows| && forall i :: 0 <= i < |rows| ==> r[i] == if rows[i].referenceId == b.referenceId then b else rows[i]
    ensures b.referenceId !in BookingIds(rows) ==> r == rows + [b]
  {
    if b.referenceId in BookingIds(rows) then
      seq(|rows|, i requires 0 <= i < |rows| => if rows[i].referenceId == b.referenceId then b else rows[i])
    else rows + [b]
  }

  /** Overwriting a booking with one of the same id and code keeps the
      constraints, and a lookup then sees the new row and nothing else new. */
  lemma SaveExistingBooking(rows: seq<Booking>, b: Booking, id: Uuid)
    requires UniqueBookings(rows)
    requires FindBooking(rows, b.referenceId).Some?
    requires FindBooking(rows, b.referenceId).value.bookingCode == b.bookingCode
    ensures UniqueBookings(SaveBooking(rows, b))
    ensures BookingIds(SaveBooking(rows, b)) == BookingIds(rows)
    ensures FindBooking(SaveBooking(rows, b), id) == if id == b.referenceId then Some(b) else FindBooking(rows, id)
  {
    var r := SaveBooking(rows, b);
    var old_b := FindBooking(rows, b.referenceId).value;
    var w :| 0 <= w < |rows| && rows[w] == old_b;
    assert BookingIds(r) == BookingIds(rows);
    assert BookingCodes(r) == BookingCodes(rows) by {
      forall i | 0 <= i < |rows| ensures BookingCodes(r)[i] == BookingCodes(rows)[i] {
        if rows[i].referenceId == b.referenceId {
          assert BookingIds(rows)[i] == BookingIds(rows)[w];
        }
      }
    }
    var x := FindBooking(r, id);
    if id == b.referenceId {
      assert r[w] == b;
      FindBookingUnique(r, b);
    } else if x.Some? {
      var i :| 0 <= i < |r| && r[i] == x.value;
      assert rows[i] == x.value;
      FindBookingUnique(rows, x.value);
    }
  }

  /** Saving twice under one id leaves the table as the second save alone. */
  lemma SaveBookingOverwrites(rows: seq<Booking>, a: Booking, b: Booking)
    requires a.referenceId == b.referenceId && a.referenceId in BookingIds(rows)
    ensures SaveBooking(SaveBooking(rows, a), b) == SaveBooking(rows, b)
  {
    var once := SaveBooking(rows, a);
    assert BookingIds(once) == BookingIds(rows);
  }

  /** Adding a booking whose id and code are new keeps the constraints. */
  lemma SaveNewBooking(rows: seq<Booking>, b: Booking)
    requires UniqueBookings(rows)
    requires b.referenceId !in BookingIds(rows) && b.bookingCode !in BookingCodes(rows)
    ensures UniqueBookings(SaveBooking(rows, b))
    ensures FindBooking(SaveBooking(rows, b), b.referenceId) == Some(b)
  {
    var r := SaveBooking(rows, b);
    assert BookingIds(r) == BookingIds(rows) + [b.referenceId];
    assert BookingCodes(r) == BookingCodes(rows) + [b.bookingCode];
    assert r[|rows|] == b;
    FindBookingUnique(r, b);
  }

  /** `findExpiredBookings`: the bookings in the given status whose expiry
      time is strictly before the given instant, in table order. */
  function FindExpiredBookings(rows: seq<Booking>, status: BookingStatus, now: Time): (r: seq<Booking>)
    ensures forall b :: b in r <==> b in rows && b.bookingStatus == status && b.expiryTime < now
    ensures IsSubsequence(r, rows)
  {
    FilterIsSubsequence(rows, ExpiredIn(status, now));
    Filter(rows, ExpiredIn(status, now))
  }

  /** The WHERE clause of `findExpiredBookings`. */
  function ExpiredIn(status: BookingStatus, now: Time): Booking -> bool {
    (b: Booking) => b.bookingStatus == status && b.expiryTime < now
  }

  /** Under the unique constraints two rows with the same id are one row. */
  lemma SameIdSameRow(rows: seq<Booking>, k: int, b: Booking)
    requires UniqueBookings(rows)
    requires 0 <= k < |rows| && b in rows && rows[k].referenceId == b.referenceId
    ensures rows[k] == b
  {
    FindBookingUnique(rows, rows[k]);
    FindBookingUnique(rows, b);
  }

  /** Under the unique constraints no booking is listed twice by the expiry
      query. */
  lemma ExpiredBookingsDistinct(rows: seq<Booking>, status: BookingStatus, now: Time)
    requires UniqueBookings(rows)
    ensures Distinct(FindExpiredBookings(rows, status, now))
  {
    assert Distinct(rows) by {
      forall i, j | 0 <= i < j < |rows| ensures rows[i] != rows[j] {
        assert BookingIds(rows)[i] != BookingIds(rows)[j];
      }
    }
    FilterDistinct(rows, ExpiredIn(status, now));
  }

  /** `findByUserReferenceId`: every booking of the user, in table order. */
  function FindByUserReferenceId(rows: seq<Booking>, userId: string): (r: seq<Booking>)
    ensures forall b :: b in r <==> b in rows && b.userReferenceId == userId
    ensures IsSubsequence(r, rows)
  {
    FilterIsSubsequence(rows, (b: Booking) => b.userReferenceId == userId);
    Filter(rows, (b: Booking) => b.userReferenceId == userId)
  }

  /** `findByJourneyReferenceId`: every booking of the journey, in table order. */
  function FindByJourneyReferenceId(rows: seq<Booking>, journeyId: Uuid): (r: seq<Booking>)
    ensures forall b :: b in r <==> b in rows && b.journeyReferenceId == journeyId
    ensures IsSubsequence(r, rows)
  {
    FilterIsSubsequence(rows, (b: Booking) => b.journeyReferenceId == journeyId);
    Filter(rows, (b: Booking) => b.journeyReferenceId == journeyId)
  }

  /** Whether `countConfirmedSeats` counts the booking for the journey. */
  predicate HoldsJourney(b: Booking, journeyId: Uuid) {
    b.journeyReferenceId == journeyId && (b.bookingStatus == Confirmed || b.bookingStatus == SeatsBlocked)
  }

  /** `countConfirmedSeats`: despite its name, the number of BOOKINGS of the
      journey that are confirmed or hold seats, whatever their seat count. */
  function CountConfirmedSeats(rows: seq<Booking>, journeyId: Uuid): nat {
    |Filter(rows, (b: Booking) => HoldsJourney(b, journeyId))|
  }

  /** Each counted booking adds exactly one to the count, however many seats
      it holds. */
  lemma CountConfirmedSeatsCountsBookings(rows: seq<Booking>, b: Booking, journeyId: Uuid)
    ensures CountConfirmedSeats(rows + [b], journeyId)
            == CountConfirmedSeats(rows, journeyId) + (if HoldsJourney(b, journeyId) then 1 else 0)
  {
    FilterAppend(rows, [b], (x: Booking) => HoldsJourney(x, journeyId));
    assert Filter([b], (x: Booking) => HoldsJourney(x, journeyId)) == if HoldsJourney(b, journeyId) then [b] else [] by {
      assert [b][1..] == [];
    }
  }

  /** The count never exceeds the number of bookings on record. */
  lemma CountConfirmedSeatsBound(rows: seq<Booking>, journeyId: Uuid)
    ensures CountConfirmedSeats(rows, journeyId) <= |rows|
    ensures CountConfirmedSeats(rows, journeyId) == |rows| <==>
      forall b :: b in rows ==> HoldsJourney(b, journeyId)
  {
    FilterStronger(rows, (x: Booking) => true, (x: Booking) => HoldsJourney(x, journeyId));
    AllPass(rows, (x: Booking) => true);
  }

  predicate BookedNoEarlier(a: Booking, b: Booking) {
    a.bookingTime >= b.bookingTime
  }

  /** The rows `findUserConfirmedBookings` selects. */
  function UserConfirmed(userId: string): Booking -> bool {
    (b: Booking) => b.userReferenceId == userId && b.bookingStatus == Confirmed
  }

  /** `findUserConfirmedBookings`: the user's confirmed bookings, ORDER BY
      booking time DESC. */
  function FindUserConfirmedBookings(rows: seq<Booking>, userId: string): seq<Booking> {
    SortBy(Filter(rows, UserConfirmed(userId)), BookedNoEarlier)
  }

  /** The listing holds exactly the user's confirmed bookings, each as often
      as on record, latest first. */
  lemma UserConfirmedBookingsSorted(rows: seq<Booking>, userId: string)
    ensures forall b :: b in FindUserConfirmedBookings(rows, userId) <==>
      b in rows && b.userReferenceId == userId && b.bookingStatus == Confirmed
    ensures SortedBy(FindUserConfirmedBookings(rows, userId), BookedNoEarlier)
    ensures multiset(FindUserConfirmedBookings(rows, userId)) == multiset(Filter(rows, UserConfirmed(userId)))
    ensures var r := FindUserConfirmedBookings(rows, userId);
      forall i, j :: 0 <= i < j < |r| ==> r[i].bookingTime >= r[j].bookingTime
  {
    var f := Filter(rows, UserConfirmed(userId));
    assert IsTotalPreorder(BookedNoEarlier);
    SortBySorted(f, BookedNoEarlier);
    var r := SortBy(f, BookedNoEarlier);
    forall b ensures b in r <==> b in f {
      assert b in r <==> multiset(r)[b] > 0;
      assert b in f <==> multiset(f)[b] > 0;
    }
  }
}
