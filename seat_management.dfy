/** The journey service's seat lock manager: it locks seats for a booking all
    or nothing, stamps them with the booking's id, releases them, and answers
    availability questions. Each method is one transaction: a method that
    fails leaves the tables as they were. */
module SeatManagement {
  import opened Common
  import opened Seqs
  import opened JourneyModel
  import opened SeatRepository
  import opened JourneyRepository
  import opened JourneyDatabase

  /** The journey is on record and open for booking. */
  predicate JourneyActive(journeys: seq<Journey>, journeyId: Uuid) {
    FindJourney(journeys, journeyId).Some? && FindJourney(journeys, journeyId).value.isActive
  }

  /** The rows among `rows` that are taken. */
  function NotAvailable(rows: seq<SeatInventory>): (r: seq<SeatInventory>)
    ensures forall s :: s in r <==> s in rows && !s.isAvailable
  {
    Filter(rows, (s: SeatInventory) => !s.isAvailable)
  }

  /** `Collectors.joining(sep)`. */
  function Join(parts: seq<string>, sep: string): string {
    if parts == [] then ""
    else if |parts| == 1 then parts[0]
    else parts[0] + sep + Join(parts[1..], sep)
  }

  /** Whether a lock of `seatIds` on `journeyId` goes through: the journey is
      active, the IN query finds as many rows as ids were sent, and every row
      found is free. */
  predicate LockGranted(journeys: seq<Journey>, seats: seq<SeatInventory>, journeyId: Uuid, seatIds: seq<Uuid>) {
    && JourneyActive(journeys, journeyId)
    && |FindByReferenceIdsWithLock(seats, seatIds)| == |seatIds|
    && forall s :: s in FindByReferenceIdsWithLock(seats, seatIds) ==> s.isAvailable
  }

  /** The checks `lockSeatsForBooking` makes before it writes, in order:
      the journey exists, it is active, the IN query finds a row per id, and
      none of those rows is taken. On success, the rows found. */
  function LockCheck(journeys: seq<Journey>, seats: seq<SeatInventory>, journeyId: Uuid, seatIds: seq<Uuid>)
    : (r: Result<seq<SeatInventory>>)
    ensures FindJourney(journeys, journeyId).None? ==> r == Failure(ResourceNotFound("Journey not found"))
    ensures FindJourney(journeys, journeyId).Some? && !FindJourney(journeys, journeyId).value.isActive ==>
      r == Failure(BusinessRule("Journey is not active for booking"))
    ensures JourneyActive(journeys, journeyId) && |FindByReferenceIdsWithLock(seats, seatIds)| != |seatIds| ==>
      r == Failure(BusinessRule("Some seats not found"))
    ensures (&& JourneyActive(journeys, journeyId)
             && |FindByReferenceIdsWithLock(seats, seatIds)| == |seatIds|
             && !LockGranted(journeys, seats, journeyId, seatIds)) ==>
      r == Failure(BusinessRule("Seats not available: "
                                + Join(SeatNumbers(NotAvailable(FindByReferenceIdsWithLock(seats, seatIds))), ", ")))
    ensures r.Success? <==> LockGranted(journeys, seats, journeyId, seatIds)
    ensures r.Success? ==> r.value == FindByReferenceIdsWithLock(seats, seatIds)
  {
    match FindJourney(journeys, journeyId)
    case None => Failure(ResourceNotFound("Journey not found"))
    case Some(journey) =>
      if !journey.isActive then Failure(BusinessRule("Journey is not active for booking"))
      else
        var found := FindByReferenceIdsWithLock(seats, seatIds);
        if |found| != |seatIds| then Failure(BusinessRule("Some seats not found"))
        else
          var unavailable := NotAvailable(found);
          if unavailable != [] then
            assert unavailable[0] in found && !unavailable[0].isAvailable;
            Failure(BusinessRule("Seats not available: " + Join(SeatNumbers(unavailable), ", ")))
          else
            FilterEmpty(found, (s: SeatInventory) => !s.isAvailable);
            Success(found)
  }

  /** The journey table after a lock: `booked` seats taken off one journey's
      `availableSeats`. */
  function TakeAvailable(journeys: seq<Journey>, journeyId: Uuid, booked: int): seq<Journey>
    requires FindJourney(journeys, journeyId).Some?
  {
    var j := FindJourney(journeys, journeyId).value;
    SaveJourney(journeys, j.(availableSeats := j.availableSeats - booked))
  }

  /** The journey table after a release: `released` seats put back on one
      journey's `availableSeats`. */
  function ReturnAvailable(journeys: seq<Journey>, journeyId: Uuid, released: int): seq<Journey>
    requires FindJourney(journeys, journeyId).Some?
  {
    var j := FindJourney(journeys, journeyId).value;
    SaveJourney(journeys, j.(availableSeats := j.availableSeats + released))
  }

  /** The journey's counter agrees with the number of its free seat rows. */
  predicate CounterMatches(journeys: seq<Journey>, seats: seq<SeatInventory>, journeyId: Uuid) {
    && FindJourney(journeys, journeyId).Some?
    && FindJourney(journeys, journeyId).value.availableSeats == CountAvailableSeats(seats, journeyId)
  }

  function ToDtos(rows: seq<SeatInventory>, baseFare: Money): seq<SeatInventoryDto> {
    seq(|rows|, i requires 0 <= i < |rows| => ToSeatInventoryDto(rows[i], baseFare))
  }

  /** The seat views of freshly locked rows. */
  function LockedViews(rows: seq<SeatInventory>, baseFare: Money): (r: seq<SeatInventoryDto>)
    ensures |r| == |rows|
    ensures forall k :: 0 <= k < |r| ==>
      && r[k].referenceId == rows[k].referenceId
      && r[k].seatNumber == rows[k].seatNumber
      && !r[k].isAvailable
      && r[k].bookingReferenceId == Some(LockedMarker)
      && r[k].calculatedFare == SeatFare(baseFare, rows[k].fareMultiplier)
  {
    ToDtos(seq(|rows|, k requires 0 <= k < |rows| =>
                 rows[k].(isAvailable := false, bookingReferenceId := Some(LockedMarker))), baseFare)
  }

  /** Each id looked up on its own, the ids that name no row dropped
      (`map(findByReferenceId).filter(nonNull)`). */
  function Resolve(rows: seq<SeatInventory>, ids: seq<Uuid>): (r: seq<SeatInventory>)
    ensures |r| <= |ids|
    ensures |r| == |ids| <==> forall id :: id in ids ==> FindByReferenceId(rows, id).Some?
    ensures forall s :: s in r <==> exists id :: id in ids && FindByReferenceId(rows, id) == Some(s)
  {
    if ids == [] then []
    else
      assert forall id :: id in ids <==> id == ids[0] || id in ids[1..];
      match FindByReferenceId(rows, ids[0])
      case Some(s) => [s] + Resolve(rows, ids[1..])
      case None => Resolve(rows, ids[1..])
  }

  class SeatManagementService {
    const db: Database

    constructor(db: Database)
      ensures this.db == db
    {
      this.db := db;
    }

    /** `lockSeatsForBooking`: all or nothing. On success every requested row
        is taken and marked "LOCKED", the journey's counter drops by the
        number of seats, and the answer has one seat view per locked row, in
        table order, priced at the journey's base fare times the multiplier. */
    method LockSeatsForBooking(journeyId: Uuid, seatIds: seq<Uuid>) returns (r: Result<seq<SeatInventoryDto>>)
      requires db.Valid()
      modifies db
      ensures db.Valid() && db.routes == old(db.routes)
      ensures HoldsMarked(old(db.seats)) ==> HoldsMarked(db.seats)
      ensures FindJourney(old(db.journeys), journeyId).None? ==> r == Failure(ResourceNotFound("Journey not found"))
      ensures FindJourney(old(db.journeys), journeyId).Some? && !FindJourney(old(db.journeys), journeyId).value.isActive ==>
        r == Failure(BusinessRule("Journey is not active for booking"))
      ensures JourneyActive(old(db.journeys), journeyId) && |FindByReferenceIdsWithLock(old(db.seats), seatIds)| != |seatIds| ==>
        r == Failure(BusinessRule("Some seats not found"))
      ensures (&& JourneyActive(old(db.journeys), journeyId)
               && |FindByReferenceIdsWithLock(old(db.seats), seatIds)| == |seatIds|
               && !LockGranted(old(db.journeys), old(db.seats), journeyId, seatIds)) ==>
        r == Failure(BusinessRule("Seats not available: "
                                  + Join(SeatNumbers(NotAvailable(FindByReferenceIdsWithLock(old(db.seats), seatIds))), ", ")))
      ensures r.Failure? ==> db.journeys == old(db.journeys) && db.seats == old(db.seats)
      ensures r.Success? <==> LockGranted(old(db.journeys), old(db.seats), journeyId, seatIds)
      ensures r.Success? ==>
        && db.seats == BulkUpdate(old(db.seats), seatIds, false, Some(LockedMarker))
        && db.journeys == TakeAvailable(old(db.journeys), journeyId, |seatIds|)
      ensures r.Success? ==>
        var found := FindByReferenceIdsWithLock(old(db.seats), seatIds);
        var baseFare := FindJourney(old(db.journeys), journeyId).value.baseFare;
        && |r.value| == |seatIds| == |found|
        && forall k :: 0 <= k < |r.value| ==>
             && r.value[k].referenceId == found[k].referenceId
             && r.value[k].seatNumber == found[k].seatNumber
             && !r.value[k].isAvailable
             && r.value[k].bookingReferenceId == Some(LockedMarker)
             && r.value[k].calculatedFare == SeatFare(baseFare, found[k].fareMultiplier)
    {
      var check := LockCheck(db.journeys, db.seats, journeyId, seatIds);
      if check.Failure? {
        return Failure(check.error);
      }
      var journey := FindJourney(db.journeys, journeyId).value;
      TakeSeats(journeyId, journey, seatIds);
      r := Success(LockedViews(check.value, journey.baseFare));
    }

    /** The writes of a granted lock: the forEach over the rows found and
        `saveAll`, then the journey's counter lowered by the seat count. */
    method TakeSeats(journeyId: Uuid, journey: Journey, seatIds: seq<Uuid>)
      requires db.Valid()
      requires FindJourney(db.journeys, journeyId) == Some(journey)
      modifies db
      ensures db.Valid() && db.routes == old(db.routes)
      ensures db.seats == BulkUpdate(old(db.seats), seatIds, false, Some(LockedMarker))
      ensures db.journeys == TakeAvailable(old(db.journeys), journeyId, |seatIds|)
      ensures HoldsMarked(old(db.seats)) ==> HoldsMarked(db.seats)
    {
      if HoldsMarked(db.seats) {
        BulkUpdateKeepsMarks(db.seats, seatIds, false, Some(LockedMarker));
      }
      ghost var before := db.journeys;
      var after := journey.(availableSeats := journey.availableSeats - |seatIds|);
      assert TakeAvailable(before, journeyId, |seatIds|) == SaveJourney(before, after);
      WriteSeats(journeyId, journey, seatIds, false, Some(LockedMarker), after.availableSeats);
    }

    /** The writes of a lock or a release: the bulk update of the listed
        rows, then the journey saved with its counter at `count`. */
    method WriteSeats(journeyId: Uuid, journey: Journey, seatIds: seq<Uuid>,
                      available: bool, bookingRef: Option<string>, count: int)
      requires db.Valid()
      requires FindJourney(db.journeys, journeyId) == Some(journey)
      modifies db
      ensures db.Valid() && db.routes == old(db.routes)
      ensures db.seats == BulkUpdate(old(db.seats), seatIds, available, bookingRef)
      ensures db.journeys == SaveJourney(old(db.journeys), journey.(availableSeats := count))
    {
      db.UpdateSeatAvailability(seatIds, available, bookingRef);
      db.SaveJourneyRow(journey.(availableSeats := count));
    }

    /** `updateSeatBookingStatus`: stamps the listed rows as taken by the
        booking. The journey must exist; its counter is not touched. */
    method UpdateSeatBookingStatus(journeyId: Uuid, seatIds: seq<Uuid>, bookingRef: string) returns (st: Status)
      requires db.Valid()
      modifies db
      ensures db.Valid() && db.routes == old(db.routes) && db.journeys == old(db.journeys)
      ensures HoldsMarked(old(db.seats)) ==> HoldsMarked(db.seats)
      ensures FindJourney(old(db.journeys), journeyId).None? ==>
        st == Failed(ResourceNotFound("Journey not found")) && db.seats == old(db.seats)
      ensures FindJourney(old(db.journeys), journeyId).Some? ==>
        st == Done && db.seats == BulkUpdate(old(db.seats), seatIds, false, Some(bookingRef))
    {
      if FindJourney(db.journeys, journeyId).None? {
        return Failed(ResourceNotFound("Journey not found"));
      }
      db.UpdateSeatAvailability(seatIds, false, Some(bookingRef));
      st := Done;
    }

    /** `releaseSeats`: frees every listed row that exists and adds the
        number of rows found to the journey's counter, whatever state those
        rows were in. */
    method ReleaseSeats(journeyId: Uuid, seatIds: seq<Uuid>) returns (st: Status)
      requires db.Valid()
      modifies db
      ensures db.Valid() && db.routes == old(db.routes)
      ensures HoldsMarked(old(db.seats)) ==> HoldsMarked(db.seats)
      ensures FindJourney(old(db.journeys), journeyId).None? ==>
        st == Failed(ResourceNotFound("Journey not found")) && db.seats == old(db.seats) && db.journeys == old(db.journeys)
      ensures FindJourney(old(db.journeys), journeyId).Some? ==>
        && st == Done
        && db.seats == BulkUpdate(old(db.seats), seatIds, true, None)
        && db.journeys == ReturnAvailable(old(db.journeys), journeyId, |FindByReferenceIdsWithLock(old(db.seats), seatIds)|)
    {
      var jo := FindJourney(db.journeys, journeyId);
      if jo.None? {
        return Failed(ResourceNotFound("Journey not found"));
      }
      var found := |FindByReferenceIdsWithLock(db.seats, seatIds)|;
      FreeSeats(journeyId, jo.value, seatIds, found);
      st := Done;
    }

    /** The writes of a release: the rows found are freed and saved, then
        their number is added to the journey's counter. */
    method FreeSeats(journeyId: Uuid, journey: Journey, seatIds: seq<Uuid>, found: nat)
      requires db.Valid()
      requires FindJourney(db.journeys, journeyId) == Some(journey)
      modifies db
      ensures db.Valid() && db.routes == old(db.routes)
      ensures db.seats == BulkUpdate(old(db.seats), seatIds, true, None)
      ensures db.journeys == ReturnAvailable(old(db.journeys), journeyId, found)
      ensures HoldsMarked(old(db.seats)) ==> HoldsMarked(db.seats)
    {
      if HoldsMarked(db.seats) {
        BulkUpdateKeepsMarks(db.seats, seatIds, true, None);
      }
      ghost var before := db.journeys;
      var after := journey.(availableSeats := journey.availableSeats + found);
      assert ReturnAvailable(before, journeyId, found) == SaveJourney(before, after);
      WriteSeats(journeyId, journey, seatIds, true, None, after.availableSeats);
    }

    /** `getSeatInventory`: the seat views of the listed rows, or of all the
        journey's rows when no ids are sent. Listed rows are not checked to
        belong to the journey. */
    function GetSeatInventory(journeyId: Uuid, seatIds: Option<seq<Uuid>>): (r: Result<seq<SeatInventoryDto>>)
      reads db
      ensures FindJourney(db.journeys, journeyId).None? <==> r == Failure(ResourceNotFound("Journey not found"))
      ensures r.Success? ==>
        var baseFare := FindJourney(db.journeys, journeyId).value.baseFare;
        var listed := seatIds.Some? && seatIds.value != [];
        forall d :: d in r.value <==>
          exists s :: s in db.seats && d == ToSeatInventoryDto(s, baseFare)
                   && (if listed then s.referenceId in seatIds.value else s.journeyReferenceId == journeyId)
    {
      match FindJourney(db.journeys, journeyId)
      case None => Failure(ResourceNotFound("Journey not found"))
      case Some(journey) =>
        var rows := if seatIds.Some? && seatIds.value != []
                    then FindByReferenceIdsWithLock(db.seats, seatIds.value)
                    else FindByJourneyId(db.seats, journeyId);
        var dtos := ToDtos(rows, journey.baseFare);
        assert forall d :: d in dtos <==> exists s :: s in rows && d == ToSeatInventoryDto(s, journey.baseFare) by {
          forall d | d in dtos ensures exists s :: s in rows && d == ToSeatInventoryDto(s, journey.baseFare) {
            var k :| 0 <= k < |dtos| && dtos[k] == d;
            assert rows[k] in rows;
          }
          forall s | s in rows ensures ToSeatInventoryDto(s, journey.baseFare) in dtos {
            var k :| 0 <= k < |rows| && rows[k] == s;
            assert dtos[k] == ToSeatInventoryDto(s, journey.baseFare);
          }
        }
        Success(dtos)
    }

    /** `checkSeatAvailability`: false for an inactive journey; otherwise true
        exactly when every id names a row and every row named is free. */
    function CheckSeatAvailability(journeyId: Uuid, seatIds: seq<Uuid>): (r: Result<bool>)
      reads db
      ensures FindJourney(db.journeys, journeyId).None? ==> r == Failure(ResourceNotFound("Journey not found"))
      ensures FindJourney(db.journeys, journeyId).Some? && !FindJourney(db.journeys, journeyId).value.isActive ==>
        r == Success(false)
      ensures JourneyActive(db.journeys, journeyId) ==>
        r == Success(forall id :: id in seatIds ==>
                       FindByReferenceId(db.seats, id).Some? && FindByReferenceId(db.seats, id).value.isAvailable)
    {
      match FindJourney(db.journeys, journeyId)
      case None => Failure(ResourceNotFound("Journey not found"))
      case Some(journey) =>
        if !journey.isActive then Success(false)
        else
          var seats := Resolve(db.seats, seatIds);
          Success(|seats| == |seatIds| && forall s :: s in seats ==> s.isAvailable)
    }
  }

  // -----------------------------------------------------------------------
  // Properties of the lock manager

  /** Taking seats off one journey's counter keeps the table's keys,
      changes that journey's row alone, and keeps its route. */
  lemma TakeAvailableFacts(journeys: seq<Journey>, journeyId: Uuid, j: Journey, booked: int, id: Uuid)
    requires UniqueJourneys(journeys)
    requires FindJourney(journeys, journeyId) == Some(j)
    ensures UniqueJourneys(TakeAvailable(journeys, journeyId, booked))
    ensures JourneyIds(TakeAvailable(journeys, journeyId, booked)) == JourneyIds(journeys)
    ensures FindJourney(TakeAvailable(journeys, journeyId, booked), id)
         == if id == journeyId then Some(j.(availableSeats := j.availableSeats - booked)) else FindJourney(journeys, id)
    ensures forall x :: x in TakeAvailable(journeys, journeyId, booked) ==>
              x in journeys || x.routeReferenceId == j.routeReferenceId
  {
    var j' := j.(availableSeats := j.availableSeats - booked);
    assert TakeAvailable(journeys, journeyId, booked) == SaveJourney(journeys, j');
    SaveExistingJourney(journeys, j', id);
  }

  /** Putting seats back on one journey's counter keeps the table's keys,
      changes that journey's row alone, and keeps its route. */
  lemma ReturnAvailableFacts(journeys: seq<Journey>, journeyId: Uuid, j: Journey, released: int, id: Uuid)
    requires UniqueJourneys(journeys)
    requires FindJourney(journeys, journeyId) == Some(j)
    ensures UniqueJourneys(ReturnAvailable(journeys, journeyId, released))
    ensures JourneyIds(ReturnAvailable(journeys, journeyId, released)) == JourneyIds(journeys)
    ensures FindJourney(ReturnAvailable(journeys, journeyId, released), id)
         == if id == journeyId then Some(j.(availableSeats := j.availableSeats + released)) else FindJourney(journeys, id)
    ensures forall x :: x in ReturnAvailable(journeys, journeyId, released) ==>
              x in journeys || x.routeReferenceId == j.routeReferenceId
  {
    var j' := j.(availableSeats := j.availableSeats + released);
    assert ReturnAvailable(journeys, journeyId, released) == SaveJourney(journeys, j');
    SaveExistingJourney(journeys, j', id);
  }

  /** The lock's verdict in terms of the seats themselves: it goes through
      exactly when the journey is active, no seat is asked for twice, and
      every seat asked for exists and is free. */
  lemma LockGrantedIff(journeys: seq<Journey>, seats: seq<SeatInventory>, journeyId: Uuid, seatIds: seq<Uuid>)
    requires UniqueSeatIds(seats)
    ensures LockGranted(journeys, seats, journeyId, seatIds)
        <==> && JourneyActive(journeys, journeyId)
             && Distinct(seatIds)
             && forall id :: id in seatIds ==>
                  FindByReferenceId(seats, id).Some? && FindByReferenceId(seats, id).value.isAvailable
  {
    FoundAllIff(seats, seatIds);
    var found := FindByReferenceIdsWithLock(seats, seatIds);
    forall id | id in seatIds && FindByReferenceId(seats, id).Some?
      ensures FindByReferenceId(seats, id).value in found
    {
    }
    forall s | s in found
      ensures FindByReferenceId(seats, s.referenceId) == Some(s)
    {
      FindByReferenceIdUnique(seats, s);
    }
  }

  /** The two availability checks and the lock agree: on an active journey
      the lock goes through exactly when the check says yes and no seat is
      asked for twice. */
  lemma CheckAgreesWithLock(service: SeatManagementService, journeyId: Uuid, seatIds: seq<Uuid>)
    requires UniqueSeatIds(service.db.seats)
    requires JourneyActive(service.db.journeys, journeyId)
    ensures LockGranted(service.db.journeys, service.db.seats, journeyId, seatIds)
        <==> service.CheckSeatAvailability(journeyId, seatIds) == Success(true) && Distinct(seatIds)
  {
    LockGrantedIff(service.db.journeys, service.db.seats, journeyId, seatIds);
  }

  /** A granted lock keeps the journey's counter in step with its free rows
      exactly when every locked row belongs to that journey: the lock never
      checks this, so locking another journey's seats through this journey
      leaves both counters wrong. */
  lemma LockCounterIff(journeys: seq<Journey>, seats: seq<SeatInventory>, journeyId: Uuid, seatIds: seq<Uuid>)
    requires UniqueJourneys(journeys) && UniqueSeatIds(seats)
    requires LockGranted(journeys, seats, journeyId, seatIds)
    requires CounterMatches(journeys, seats, journeyId)
    ensures CounterMatches(TakeAvailable(journeys, journeyId, |seatIds|),
                           BulkUpdate(seats, seatIds, false, Some(LockedMarker)), journeyId)
        <==> forall s :: s in FindByReferenceIdsWithLock(seats, seatIds) ==> s.journeyReferenceId == journeyId
  {
    var found := FindByReferenceIdsWithLock(seats, seatIds);
    TakeAvailableFacts(journeys, journeyId, FindJourney(journeys, journeyId).value, |seatIds|, journeyId);
    CountAfterBulkUpdate(seats, seatIds, false, Some(LockedMarker), journeyId);
    FilterCongruence(seats, InIdsAvailableIn(seatIds, journeyId), InIdsOfJourney(seatIds, journeyId));
    FilterStronger(seats, InIds(seatIds), InIdsOfJourney(seatIds, journeyId));
  }

  /** A release keeps the journey's counter in step with its free rows
      exactly when every row found belongs to the journey and was taken.
      Releasing free seats, or releasing twice, inflates the counter. */
  lemma ReleaseCounterIff(journeys: seq<Journey>, seats: seq<SeatInventory>, journeyId: Uuid, seatIds: seq<Uuid>)
    requires UniqueJourneys(journeys) && UniqueSeatIds(seats)
    requires CounterMatches(journeys, seats, journeyId)
    ensures CounterMatches(ReturnAvailable(journeys, journeyId, |FindByReferenceIdsWithLock(seats, seatIds)|),
                           BulkUpdate(seats, seatIds, true, None), journeyId)
        <==> forall s :: s in FindByReferenceIdsWithLock(seats, seatIds) ==>
               s.journeyReferenceId == journeyId && !s.isAvailable
  {
    var found := FindByReferenceIdsWithLock(seats, seatIds);
    ReturnAvailableFacts(journeys, journeyId, FindJourney(journeys, journeyId).value, |found|, journeyId);
    CountAfterBulkUpdate(seats, seatIds, true, None, journeyId);
    FilterStronger(seats, InIds(seatIds), InIdsOfJourney(seatIds, journeyId));
    FilterEmpty(seats, InIdsAvailableIn(seatIds, journeyId));
  }

  /** A release that was right (it freed taken seats of the journey) keeps
      the counter in step; releasing the same seats again finds them free,
      so the counter ends ahead of the table. */
  lemma SecondReleaseInflatesCounter(journeys: seq<Journey>, seats: seq<SeatInventory>, journeyId: Uuid, seatIds: seq<Uuid>)
    requires UniqueJourneys(journeys) && UniqueSeatIds(seats)
    requires CounterMatches(journeys, seats, journeyId)
    requires FindByReferenceIdsWithLock(seats, seatIds) != []
    requires forall s :: s in FindByReferenceIdsWithLock(seats, seatIds) ==> s.journeyReferenceId == journeyId && !s.isAvailable
    ensures var seats1 := BulkUpdate(seats, seatIds, true, None);
            var journeys1 := ReturnAvailable(journeys, journeyId, |FindByReferenceIdsWithLock(seats, seatIds)|);
            && CounterMatches(journeys1, seats1, journeyId)
            && FindJourney(journeys1, journeyId).Some?
            && !CounterMatches(ReturnAvailable(journeys1, journeyId, |FindByReferenceIdsWithLock(seats1, seatIds)|),
                               BulkUpdate(seats1, seatIds, true, None), journeyId)
  {
    var found := FindByReferenceIdsWithLock(seats, seatIds);
    var seats1 := BulkUpdate(seats, seatIds, true, None);
    var journeys1 := ReturnAvailable(journeys, journeyId, |found|);
    ReleaseCounterIff(journeys, seats, journeyId, seatIds);
    ReturnAvailableFacts(journeys, journeyId, FindJourney(journeys, journeyId).value, |found|, journeyId);
    BulkUpdateKeepsIds(seats, seatIds, true, None);
    assert found[0] in seats;
    var i :| 0 <= i < |seats| && seats[i] == found[0];
    assert seats1[i] in FindByReferenceIdsWithLock(seats1, seatIds) && seats1[i].isAvailable;
    ReleaseCounterIff(journeys1, seats1, journeyId, seatIds);
  }

  /** Stamping rows that are already taken leaves every journey's count of
      free rows as it was. */
  lemma StampKeepsCounts(seats: seq<SeatInventory>, seatIds: seq<Uuid>, bookingRef: string, journeyId: Uuid)
    requires forall s :: s in FindByReferenceIdsWithLock(seats, seatIds) ==> !s.isAvailable
    ensures CountAvailableSeats(BulkUpdate(seats, seatIds, false, Some(bookingRef)), journeyId)
         == CountAvailableSeats(seats, journeyId)
  {
    CountAfterBulkUpdate(seats, seatIds, false, Some(bookingRef), journeyId);
    FilterEmpty(seats, InIdsAvailableIn(seatIds, journeyId));
  }
}
