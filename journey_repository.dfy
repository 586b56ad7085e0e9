/** The journey table and the queries the journey service runs against it. */
module JourneyRepository {
  import opened Common
  import opened Seqs
  import opened JourneyModel

  function JourneyIds(rows: seq<Journey>): seq<Uuid> {
    seq(|rows|, i requires 0 <= i < |rows| => rows[i].referenceId)
  }

  function JourneyCodes(rows: seq<Journey>): seq<string> {
    seq(|rows|, i requires 0 <= i < |rows| => rows[i].journeyCode)
  }

  /** The unique constraints on `reference_id` and `journey_code`. */
  predicate UniqueJourneys(rows: seq<Journey>) {
    Distinct(JourneyIds(rows)) && Distinct(JourneyCodes(rows))
  }

  /** `findByReferenceId`. */
  function FindJourney(rows: seq<Journey>, id: Uuid): (r: Option<Journey>)
    ensures r.Some? <==> id in JourneyIds(rows)
    ensures r.Some? ==> r.value in rows && r.value.referenceId == id
  {
    if rows == [] then None
    else if rows[0].referenceId == id then
      assert JourneyIds(rows)[0] == id;
      Some(rows[0])
    else
      assert JourneyIds(rows) == [rows[0].referenceId] + JourneyIds(rows[1..]);
      FindJourney(rows[1..], id)
  }

  lemma FindJourneyUnique(rows: seq<Journey>, j: Journey)
    requires UniqueJourneys(rows)
    requires j in rows
    ensures FindJourney(rows, j.referenceId) == Some(j)
  {
    var i :| 0 <= i < |rows| && rows[i] == j;
    assert JourneyIds(rows)[i] == j.referenceId;
    var r := FindJourney(rows, j.referenceId);
    var k :| 0 <= k < |rows| && rows[k] == r.value;
    assert JourneyIds(rows)[i] == JourneyIds(rows)[k];
  }

  /** `save`: a row whose reference id is on record is overwritten in place,
      any other row is appended. */
  function SaveJourney(rows: seq<Journey>, j: Journey): (r: seq<Journey>)
    ensures j.referenceId in JourneyIds(rows) ==>
      |r| == |rows| && forall i :: 0 <= i < |rows| ==> r[i] == if rows[i].referenceId == j.referenceId then j else rows[i]
    ensures j.referenceId !in JourneyIds(rows) ==> r == rows + [j]
  {
    if j.referenceId in JourneyIds(rows) then
      seq(|rows|, i requires 0 <= i < |rows| => if rows[i].referenceId == j.referenceId then j else rows[i])
    else rows + [j]
  }

  /** Overwriting a journey with one of the same id and code keeps the
      constraints, and a lookup then sees the new row and nothing else new. */
  lemma SaveExistingJourney(rows: seq<Journey>, j: Journey, id: Uuid)
    requires UniqueJourneys(rows)
    requires FindJourney(rows, j.referenceId).Some?
    requires FindJourney(rows, j.referenceId).value.journeyCode == j.journeyCode
    ensures UniqueJourneys(SaveJourney(rows, j))
    ensures JourneyIds(SaveJourney(rows, j)) == JourneyIds(rows)
    ensures FindJourney(SaveJourney(rows, j), id) == if id == j.referenceId then Some(j) else FindJourney(rows, id)
    ensures forall x :: x in SaveJourney(rows, j) ==> x == j || x in rows
  {
    var r := SaveJourney(rows, j);
    var old_j := FindJourney(rows, j.referenceId).value;
    var w :| 0 <= w < |rows| && rows[w] == old_j;
    assert JourneyIds(r) == JourneyIds(rows);
    assert JourneyCodes(r) == JourneyCodes(rows) by {
      forall i | 0 <= i < |rows| ensures JourneyCodes(r)[i] == JourneyCodes(rows)[i] {
        if rows[i].referenceId == j.referenceId {
          assert JourneyIds(rows)[i] == JourneyIds(rows)[w];
        }
      }
    }
    var x := FindJourney(r, id);
    if id == j.referenceId {
      assert r[w] == j;
      FindJourneyUnique(r, j);
    } else if x.Some? {
      var i :| 0 <= i < |r| && r[i] == x.value;
      assert rows[i] == x.value;
      FindJourneyUnique(rows, x.value);
    }
  }

  /** Adding a journey whose id and code are new keeps the constraints. */
  lemma SaveNewJourney(rows: seq<Journey>, j: Journey)
    requires UniqueJourneys(rows)
    requires j.referenceId !in JourneyIds(rows) && j.journeyCode !in JourneyCodes(rows)
    ensures UniqueJourneys(SaveJourney(rows, j))
    ensures FindJourney(SaveJourney(rows, j), j.referenceId) == Some(j)
  {
    var r := SaveJourney(rows, j);
    assert JourneyIds(r) == JourneyIds(rows) + [j.referenceId];
    assert JourneyCodes(r) == JourneyCodes(rows) + [j.journeyCode];
    assert r[|rows|] == j;
    FindJourneyUnique(r, j);
  }

  /** `findVehicleSchedule`: the vehicle's journeys departing BETWEEN the two
      instants, both ends included. */
  function FindVehicleSchedule(rows: seq<Journey>, vehicleId: string, start: Time, end: Time): (r: seq<Journey>)
    ensures forall j :: j in r <==> j in rows && j.vehicleReferenceId == vehicleId && start <= j.departureTime <= end
  {
    Filter(rows, (j: Journey) => j.vehicleReferenceId == vehicleId && start <= j.departureTime && j.departureTime <= end)
  }

  predicate DepartsNoLater(a: Journey, b: Journey) {
    a.departureTime <= b.departureTime
  }

  /** `findUpcomingJourneys`: active journeys departing at or after the given
      instant, ORDER BY departure time. */
  function FindUpcomingJourneys(rows: seq<Journey>, from: Time): seq<Journey> {
    SortBy(Filter(rows, (j: Journey) => j.departureTime >= from && j.isActive), DepartsNoLater)
  }

  lemma UpcomingJourneysSorted(rows: seq<Journey>, from: Time)
    ensures SortedBy(FindUpcomingJourneys(rows, from), DepartsNoLater)
    ensures forall j :: j in FindUpcomingJourneys(rows, from) <==> j in rows && j.departureTime >= from && j.isActive
  {
    var f := Filter(rows, (j: Journey) => j.departureTime >= from && j.isActive);
    SortBySorted(f, DepartsNoLater);
    forall j ensures j in FindUpcomingJourneys(rows, from) <==> j in f {
      assert j in FindUpcomingJourneys(rows, from) <==> j in multiset(FindUpcomingJourneys(rows, from));
      assert j in f <==> j in multiset(f);
    }
  }
}
