/** The journey service's database: the route, journey and seat tables. */
module JourneyDatabase {
  import opened Common
  import opened JourneyModel
  import opened SeatRepository
  import opened JourneyRepository

  class Database {
    var routes: map<Uuid, Route>
    var journeys: seq<Journey>
    var seats: seq<SeatInventory>

    /** The tables' unique constraints, and the seat-to-journey and
        journey-to-route foreign keys. */
    ghost predicate Valid()
      reads this
    {
      && UniqueJourneys(journeys)
      && UniqueSeatIds(seats)
      && UniqueSeatNumbers(seats)
      && (forall id :: id in routes ==> routes[id].referenceId == id)
      && (forall j :: j in journeys ==> j.routeReferenceId in routes)
      && (forall s :: s in seats ==> s.journeyReferenceId in JourneyIds(journeys))
    }

    constructor(routes: map<Uuid, Route>)
      requires forall id :: id in routes ==> routes[id].referenceId == id
      ensures Valid()
      ensures this.routes == routes && journeys == [] && seats == []
    {
      this.routes := routes;
      journeys := [];
      seats := [];
    }

    /** `updateSeatAvailability`, the bulk UPDATE: a pass over the table that
        rewrites every row whose reference id is listed. */
    method UpdateSeatAvailability(ids: seq<Uuid>, available: bool, bookingRef: Option<string>)
      requires Valid()
      modifies this
      ensures Valid()
      ensures seats == BulkUpdate(old(seats), ids, available, bookingRef)
      ensures journeys == old(journeys) && routes == old(routes)
      ensures HoldsMarked(old(seats)) && (available <==> bookingRef.None?) ==> HoldsMarked(seats)
    {
      var i := 0;
      while i < |seats|
        invariant 0 <= i <= |seats| == |old(seats)|
        invariant forall k :: 0 <= k < i ==> seats[k] == Stamped(old(seats)[k], ids, available, bookingRef)
        invariant forall k :: i <= k < |seats| ==> seats[k] == old(seats)[k]
        invariant journeys == old(journeys) && routes == old(routes)
      {
        if seats[i].referenceId in ids {
          seats := seats[i := seats[i].(isAvailable := available, bookingReferenceId := bookingRef)];
        }
        i := i + 1;
      }
      assert seats == BulkUpdate(old(seats), ids, available, bookingRef);
      BulkUpdateKeepsIds(old(seats), ids, available, bookingRef);
      BulkUpdateKeepsSeatNumbers(old(seats), ids, available, bookingRef);
      if HoldsMarked(old(seats)) && (available <==> bookingRef.None?) {
        BulkUpdateKeepsMarks(old(seats), ids, available, bookingRef);
      }
      forall s | s in seats ensures s.journeyReferenceId in JourneyIds(journeys) {
        var k :| 0 <= k < |seats| && seats[k] == s;
        assert old(seats)[k] in old(seats);
      }
    }

    /** The inserts of a new journey and then of its seat rows. */
    method AddJourney(j: Journey, rows: seq<SeatInventory>)
      requires Valid()
      requires j.routeReferenceId in routes
      requires UniqueJourneys(journeys + [j]) && UniqueSeatIds(seats + rows) && UniqueSeatNumbers(seats + rows)
      requires forall s :: s in rows ==> s.journeyReferenceId == j.referenceId
      modifies this
      ensures Valid()
      ensures journeys == old(journeys) + [j] && seats == old(seats) + rows && routes == old(routes)
    {
      assert JourneyIds(journeys + [j]) == JourneyIds(journeys) + [j.referenceId];
      journeys := journeys + [j];
      seats := seats + rows;
    }

    /** `journeyRepository.save` of a journey already on record, under its own
        code and route: the row is replaced in place. */
    method SaveJourneyRow(j: Journey)
      requires Valid()
      requires FindJourney(journeys, j.referenceId).Some?
      requires FindJourney(journeys, j.referenceId).value.journeyCode == j.journeyCode
      requires j.routeReferenceId in routes
      modifies this
      ensures Valid()
      ensures journeys == SaveJourney(old(journeys), j)
      ensures seats == old(seats) && routes == old(routes)
    {
      SaveExistingJourney(journeys, j, j.referenceId);
      journeys := SaveJourney(journeys, j);
    }
  }
}
