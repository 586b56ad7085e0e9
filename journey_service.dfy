/** Journey scheduling: creating a journey with its seat inventory, updating
    and cancelling it, and the two read-only journey listings. */
module JourneyScheduling {
  import opened Common
  import opened Seqs
  import opened JourneyModel
  import opened SeatRepository
  import opened JourneyRepository
  import opened JourneyDatabase
  import opened SeatManagement

  /** Every new journey gets this many seats on its counters. */
  const DefaultTotalSeats: int := 40
  /** The slack around a trip inside which the vehicle may not depart again. */
  const ConflictMarginMinutes: int := 60
  /** `getUpcomingJourneys` returns at most this many journeys. */
  const UpcomingLimit: nat := 50
  const MinutesPerDay: int := 1440

  /** One entry of a custom seat layout, as the caller sent it: any of its
      fields may be null. */
  datatype SeatConfig = SeatConfig(
    seatNumber: Option<string>,
    seatType: Option<SeatType>,
    isLadiesSeat: Option<bool>,
    fareMultiplier: Option<Money>)

  /** An entry whose every field is set, so its row passes the table's
      NOT NULL columns. */
  predicate Complete(c: SeatConfig) {
    c.seatNumber.Some? && c.seatType.Some? && c.isLadiesSeat.Some? && c.fareMultiplier.Some?
  }

  /** The first NOT NULL column an incomplete entry leaves empty. */
  function NullColumnOf(c: SeatConfig): string
    requires !Complete(c)
  {
    if c.seatNumber.None? then "seat_inventory.seat_number"
    else if c.seatType.None? then "seat_inventory.seat_type"
    else if c.isLadiesSeat.None? then "seat_inventory.is_ladies_seat"
    else "seat_inventory.fare_multiplier"
  }

  /** What a caller sends to create or update a journey. */
  datatype JourneyRequest = JourneyRequest(
    routeReferenceId: Uuid,
    vehicleReferenceId: string,
    departureTime: Time,
    baseFare: Option<Money>,
    amenities: Option<string>,
    seatConfiguration: Option<seq<SeatConfig>>)

  // -----------------------------------------------------------------------
  // Seat numbers: String.format("S%02d", i)

  function DigitChar(d: int): char
    requires 0 <= d < 10
  {
    "0123456789"[d]
  }

  /** The decimal digits of `n`, with no leading zero. */
  function Decimal(n: nat): (r: string)
    ensures |r| >= 1
    ensures n >= 10 ==> |r| >= 2
  {
    if n < 10 then [DigitChar(n)] else Decimal(n / 10) + [DigitChar(n % 10)]
  }

  /** `String.format("S%02d", i)`: "S" and `i` in decimal, padded with a zero
      to two digits. */
  function SeatLabel(i: nat): string {
    "S" + (if i < 10 then "0" else "") + Decimal(i)
  }

  lemma {:induction false} DecimalLeadingDigit(n: nat)
    requires n >= 1
    ensures Decimal(n)[0] != '0'
  {
    if n >= 10 {
      DecimalLeadingDigit(n / 10);
      assert Decimal(n)[0] == Decimal(n / 10)[0];
    }
  }

  /** Different numbers have different decimal forms. */
  lemma {:induction false} DecimalInjective(a: nat, b: nat)
    requires Decimal(a) == Decimal(b)
    ensures a == b
  {
    if a >= 10 && b >= 10 {
      var da, db := Decimal(a), Decimal(b);
      assert da[|da| - 1] == DigitChar(a % 10);
      assert db[|db| - 1] == DigitChar(b % 10);
      assert da[..|da| - 1] == Decimal(a / 10);
      assert db[..|db| - 1] == Decimal(b / 10);
      DecimalInjective(a / 10, b / 10);
    } else if a < 10 && b < 10 {
      assert Decimal(a)[0] == DigitChar(a);
    }
  }

  /** The default layout never repeats a seat number. */
  lemma SeatLabelInjective(i: nat, j: nat)
    requires i >= 1 && j >= 1
    requires SeatLabel(i) == SeatLabel(j)
    ensures i == j
  {
    if i < 10 && j >= 10 {
      assert SeatLabel(i)[1] == '0' && SeatLabel(j)[1] == Decimal(j)[0];
      DecimalLeadingDigit(j);
    } else if i >= 10 && j < 10 {
      assert SeatLabel(j)[1] == '0' && SeatLabel(i)[1] == Decimal(i)[0];
      DecimalLeadingDigit(i);
    } else if i < 10 {
      assert SeatLabel(i)[2..] == Decimal(i) && SeatLabel(j)[2..] == Decimal(j);
      DecimalInjective(i, j);
    } else {
      assert SeatLabel(i)[1..] == Decimal(i) && SeatLabel(j)[1..] == Decimal(j);
      DecimalInjective(i, j);
    }
  }

  lemma FirstAndLastDefaultLabels()
    ensures SeatLabel(1) == "S01" && SeatLabel(9) == "S09" && SeatLabel(10) == "S10" && SeatLabel(40) == "S40"
  {
  }

  // -----------------------------------------------------------------------
  // The seat inventory of a new journey

  /** A non-empty configuration replaces the default layout. */
  predicate UsesCustomConfig(config: Option<seq<SeatConfig>>) {
    config.Some? && config.value != []
  }

  /** The configuration's rows can be saved: it is not used, or each of its
      entries is complete. */
  predicate ConfigComplete(config: Option<seq<SeatConfig>>) {
    UsesCustomConfig(config) ==> forall c :: c in config.value ==> Complete(c)
  }

  /** How many seat rows `createSeatInventory` writes. */
  function InventorySize(config: Option<seq<SeatConfig>>, totalSeats: int): nat {
    if UsesCustomConfig(config) then |config.value|
    else if totalSeats > 0 then totalSeats else 0
  }

  /** Seat `i` (counting from 1) of the default layout. */
  function DefaultSeat(journeyId: Uuid, i: nat, id: Uuid): SeatInventory {
    SeatInventory(id, journeyId, SeatLabel(i), Seater, true, i % 10 == 1, 1.0, None)
  }

  /** The seat one complete configuration entry describes. */
  function CustomSeat(journeyId: Uuid, c: SeatConfig, id: Uuid): SeatInventory
    requires Complete(c)
  {
    SeatInventory(id, journeyId, c.seatNumber.value, c.seatType.value, true, c.isLadiesSeat.value,
                  c.fareMultiplier.value, None)
  }

  /** The rows `createSeatInventory` writes for a journey, the k-th taking
      the k-th fresh id. */
  function Inventory(journeyId: Uuid, config: Option<seq<SeatConfig>>, totalSeats: int, ids: seq<Uuid>): seq<SeatInventory>
    requires |ids| == InventorySize(config, totalSeats)
    requires ConfigComplete(config)
  {
    if UsesCustomConfig(config)
    then seq(|ids|, k requires 0 <= k < |ids| => CustomSeat(journeyId, config.value[k], ids[k]))
    else seq(|ids|, k requires 0 <= k < |ids| => DefaultSeat(journeyId, k + 1, ids[k]))
  }

  /** The default layout: seats "S01", "S02", ... all seaters, free, at the
      base fare, with a ladies seat at 1, 11, 21, ... and no number twice. */
  lemma DefaultInventoryShape(journeyId: Uuid, totalSeats: int, ids: seq<Uuid>)
    requires |ids| == InventorySize(None, totalSeats)
    ensures var rows := Inventory(journeyId, None, totalSeats, ids);
      && |rows| == (if totalSeats > 0 then totalSeats else 0)
      && (forall k :: 0 <= k < |rows| ==>
            && rows[k].referenceId == ids[k]
            && rows[k].journeyReferenceId == journeyId
            && rows[k].seatNumber == SeatLabel(k + 1)
            && rows[k].seatType == Seater
            && rows[k].isAvailable
            && rows[k].bookingReferenceId.None?
            && rows[k].fareMultiplier == 1.0
            && (rows[k].isLadiesSeat <==> (k + 1) % 10 == 1))
      && Distinct(SeatNumbers(rows))
  {
    var rows := Inventory(journeyId, None, totalSeats, ids);
    forall a, b | 0 <= a < b < |rows| ensures SeatNumbers(rows)[a] != SeatNumbers(rows)[b] {
      if SeatLabel(a + 1) == SeatLabel(b + 1) {
        SeatLabelInjective(a + 1, b + 1);
      }
    }
  }

  /** A custom layout: exactly one free seat per entry, copying its number,
      type, ladies flag and multiplier. */
  lemma CustomInventoryShape(journeyId: Uuid, config: seq<SeatConfig>, totalSeats: int, ids: seq<Uuid>)
    requires config != []
    requires |ids| == InventorySize(Some(config), totalSeats)
    requires ConfigComplete(Some(config))
    ensures var rows := Inventory(journeyId, Some(config), totalSeats, ids);
      && |rows| == |config|
      && forall k :: 0 <= k < |rows| ==>
           && rows[k].referenceId == ids[k]
           && rows[k].journeyReferenceId == journeyId
           && Some(rows[k].seatNumber) == config[k].seatNumber
           && Some(rows[k].seatType) == config[k].seatType
           && Some(rows[k].isLadiesSeat) == config[k].isLadiesSeat
           && Some(rows[k].fareMultiplier) == config[k].fareMultiplier
           && rows[k].isAvailable
           && rows[k].bookingReferenceId.None?
  {
    forall k | 0 <= k < |config| ensures Complete(config[k]) {
      assert config[k] in config;
    }
  }

  /** The rows of a new inventory carry the fresh ids in order, and each is
      a free seat of the new journey; so the journey's free-seat count is the
      inventory's size. */
  lemma InventoryRows(journeyId: Uuid, config: Option<seq<SeatConfig>>, totalSeats: int, ids: seq<Uuid>)
    requires |ids| == InventorySize(config, totalSeats)
    requires ConfigComplete(config)
    ensures SeatIds(Inventory(journeyId, config, totalSeats, ids)) == ids
    ensures forall s :: s in Inventory(journeyId, config, totalSeats, ids) ==>
              s.journeyReferenceId == journeyId && s.isAvailable && s.bookingReferenceId.None?
    ensures CountAvailableSeats(Inventory(journeyId, config, totalSeats, ids), journeyId) == |ids|
  {
    var rows := Inventory(journeyId, config, totalSeats, ids);
    AllPass(rows, AvailableIn(journeyId));
  }

  // -----------------------------------------------------------------------
  // The two journey listings

  /** The calendar day of an instant (`DATE(...)`): minutes floored to days. */
  function Day(t: Time): int {
    t / MinutesPerDay
  }

  /** `findBySourceDestinationAndDate`: the journeys whose route runs between
      the two cities and that depart on the given day. */
  function FindBySourceDestinationAndDate(rows: seq<Journey>, routes: map<Uuid, Route>,
                                          sourceCity: string, destinationCity: string, day: int): (r: seq<Journey>)
    ensures forall j :: j in r <==>
      && j in rows
      && j.routeReferenceId in routes
      && routes[j.routeReferenceId].sourceCity == sourceCity
      && routes[j.routeReferenceId].destinationCity == destinationCity
      && Day(j.departureTime) == day
  {
    Filter(rows, (j: Journey) =>
      && j.routeReferenceId in routes
      && routes[j.routeReferenceId].sourceCity == sourceCity
      && routes[j.routeReferenceId].destinationCity == destinationCity
      && Day(j.departureTime) == day)
  }

  /** `searchJourneys`: of the route-and-day matches, those still active and
      with a seat left, in the query's order. */
  function SearchJourneys(rows: seq<Journey>, routes: map<Uuid, Route>,
                          sourceCity: string, destinationCity: string, day: int): (r: seq<Journey>)
    ensures forall j :: j in r <==>
      && j in FindBySourceDestinationAndDate(rows, routes, sourceCity, destinationCity, day)
      && j.isActive && j.availableSeats > 0
  {
    Filter(FindBySourceDestinationAndDate(rows, routes, sourceCity, destinationCity, day),
           (j: Journey) => j.isActive && j.availableSeats > 0)
  }

  lemma SearchJourneysIsSubsequence(rows: seq<Journey>, routes: map<Uuid, Route>,
                                    sourceCity: string, destinationCity: string, day: int)
    ensures IsSubsequence(SearchJourneys(rows, routes, sourceCity, destinationCity, day),
                          FindBySourceDestinationAndDate(rows, routes, sourceCity, destinationCity, day))
  {
    FilterIsSubsequence(FindBySourceDestinationAndDate(rows, routes, sourceCity, destinationCity, day),
                        (j: Journey) => j.isActive && j.availableSeats > 0);
  }

  /** `getUpcomingJourneys`: the first fifty of the upcoming journeys in
      departure order. */
  function UpcomingJourneys(rows: seq<Journey>, now: Time): (r: seq<Journey>)
    ensures |r| <= UpcomingLimit
  {
    Limit(FindUpcomingJourneys(rows, now), UpcomingLimit)
  }

  /** The upcoming list holds active journeys departing from now on, in
      departure order, and is the earliest of them: a journey that qualifies
      but is left out departs no earlier than any listed one, and is only
      left out when the list is full. */
  lemma UpcomingJourneysAreEarliest(rows: seq<Journey>, now: Time, j: Journey)
    ensures forall x :: x in UpcomingJourneys(rows, now) ==> x in rows && x.isActive && x.departureTime >= now
    ensures SortedBy(UpcomingJourneys(rows, now), DepartsNoLater)
    ensures j in rows && j.isActive && j.departureTime >= now && j !in UpcomingJourneys(rows, now) ==>
      && |UpcomingJourneys(rows, now)| == UpcomingLimit
      && forall x :: x in UpcomingJourneys(rows, now) ==> x.departureTime <= j.departureTime
  {
    var all := FindUpcomingJourneys(rows, now);
    var r := UpcomingJourneys(rows, now);
    UpcomingJourneysSorted(rows, now);
    forall x | x in r ensures x in all {
      var i :| 0 <= i < |r| && r[i] == x;
      assert all[i] == x;
    }
    if j in rows && j.isActive && j.departureTime >= now && j !in r {
      assert j in all;
      var k :| 0 <= k < |all| && all[k] == j;
      forall x | x in r ensures x.departureTime <= j.departureTime {
        var i :| 0 <= i < |r| && r[i] == x;
        assert all[i] == x;
        assert DepartsNoLater(all[i], all[k]);
      }
    }
  }

  // -----------------------------------------------------------------------
  // The service

  /** The journey `createJourney` builds before saving it. */
  function NewJourney(req: JourneyRequest, route: Route, journeyId: Uuid, journeyCode: string): Journey {
    Journey(journeyId, route.referenceId, journeyCode, req.vehicleReferenceId,
            req.departureTime, req.departureTime + route.estimatedDurationMinutes,
            Scheduled, DefaultTotalSeats, DefaultTotalSeats,
            if req.baseFare.Some? then req.baseFare.value else route.baseFare,
            true, req.amenities)
  }

  /** The vehicle's journeys that keep it from departing at `departure` on a
      trip of `duration` minutes: those departing within an hour before the
      departure or within an hour after the arrival, both ends included. */
  function Conflicts(rows: seq<Journey>, vehicleId: string, departure: Time, duration: int): seq<Journey> {
    FindVehicleSchedule(rows, vehicleId, departure - ConflictMarginMinutes, departure + duration + ConflictMarginMinutes)
  }

  /** The checks `createJourney` passes before it writes the seat rows:
      the route is on record, its source city has the two letters the
      journey code takes, the vehicle is free, and the journey's id and
      code are new. */
  ghost predicate JourneyAccepted(routes: map<Uuid, Route>, journeys: seq<Journey>, req: JourneyRequest,
                                  journeyId: Uuid, journeyCode: string)
  {
    && req.routeReferenceId in routes
    && |routes[req.routeReferenceId].sourceCity| >= 2
    && Conflicts(journeys, req.vehicleReferenceId, req.departureTime,
                 routes[req.routeReferenceId].estimatedDurationMinutes) == []
    && journeyId !in JourneyIds(journeys)
    && journeyCode !in JourneyCodes(journeys)
  }

  /** The ids the new seat rows receive are pairwise different and new to
      the table. */
  predicate SeatIdsFresh(seats: seq<SeatInventory>, ids: seq<Uuid>) {
    Distinct(ids) && forall id :: id in ids ==> id !in SeatIds(seats)
  }

  class JourneyService {
    const db: Database

    constructor(db: Database)
      ensures this.db == db
    {
      this.db := db;
    }

    /** `createSeatInventory`: builds the new journey's rows, from the
        configuration when one is given, else the default layout of
        `totalSeats` seats, and saves them. `ids` stands for the ids each row
        receives when it is persisted. The save refuses a row with an empty
        NOT NULL column: the first incomplete entry fails the call. */
    method CreateSeatInventory(journey: Journey, config: Option<seq<SeatConfig>>, ids: seq<Uuid>)
      returns (r: Result<seq<SeatInventory>>)
      requires |ids| == InventorySize(config, journey.totalSeats)
      ensures r.Success? <==> ConfigComplete(config)
      ensures r.Success? ==> r.value == Inventory(journey.referenceId, config, journey.totalSeats, ids)
      ensures r.Failure? ==>
        exists k :: 0 <= k < |config.value| && !Complete(config.value[k])
                 && (forall m :: 0 <= m < k ==> Complete(config.value[m]))
                 && r.error == NullColumn(NullColumnOf(config.value[k]))
    {
      var seats := [];
      if config.Some? && config.value != [] {
        var cs := config.value;
        var k := 0;
        while k < |cs|
          invariant 0 <= k <= |cs|
          invariant |seats| == k
          invariant forall m :: 0 <= m < k ==> Complete(cs[m])
          invariant forall m :: 0 <= m < k ==> seats[m] == CustomSeat(journey.referenceId, cs[m], ids[m])
        {
          var c := cs[k];
          if !Complete(c) {
            return Failure(NullColumn(NullColumnOf(c)));
          }
          seats := seats + [SeatInventory(ids[k], journey.referenceId, c.seatNumber.value, c.seatType.value, true,
                                          c.isLadiesSeat.value, c.fareMultiplier.value, None)];
          k := k + 1;
        }
      } else {
        var i := 1;
        while i <= journey.totalSeats
          invariant 1 <= i <= (if journey.totalSeats > 0 then journey.totalSeats else 0) + 1
          invariant |seats| == i - 1
          invariant forall m :: 0 <= m < i - 1 ==> seats[m] == DefaultSeat(journey.referenceId, m + 1, ids[m])
        {
          var seatNumber := "S" + (if i < 10 then "0" else "") + Decimal(i);
          seats := seats + [SeatInventory(ids[i - 1], journey.referenceId, seatNumber, Seater, true, i % 10 == 1, 1.0, None)];
          i := i + 1;
        }
      }
      r := Success(seats);
    }

    /** `createJourney`: looks up the route, derives the journey code from
        the first two letters of the source city, refuses a vehicle that is
        already scheduled near the new trip, saves the journey with both
        counters at 40, then its seat inventory. A failing save of the
        journey or of a seat row (a unique key clash, an empty NOT NULL
        column) rolls everything back. The counter agrees with the new seats
        exactly when there are 40 of them. `journeyCode` stands for the code
        `generateJourneyCode` builds from the date and a random part. */
    method CreateJourney(req: JourneyRequest, journeyId: Uuid, journeyCode: string, seatIds: seq<Uuid>)
      returns (r: Result<Journey>)
      requires db.Valid()
      requires |seatIds| == InventorySize(req.seatConfiguration, DefaultTotalSeats)
      modifies db
      ensures db.Valid() && db.routes == old(db.routes)
      ensures HoldsMarked(old(db.seats)) ==> HoldsMarked(db.seats)
      ensures req.routeReferenceId !in old(db.routes) ==> r == Failure(ResourceNotFound("Route not found"))
      ensures req.routeReferenceId in old(db.routes) && |old(db.routes)[req.routeReferenceId].sourceCity| < 2 ==>
        r == Failure(IndexOutOfBounds)
      ensures req.routeReferenceId in old(db.routes) && |old(db.routes)[req.routeReferenceId].sourceCity| >= 2
              && Conflicts(old(db.journeys), req.vehicleReferenceId, req.departureTime,
                           old(db.routes)[req.routeReferenceId].estimatedDurationMinutes) != [] ==>
        r == Failure(BusinessRule("Vehicle has conflicting schedule"))
      ensures JourneyAccepted(old(db.routes), old(db.journeys), req, journeyId, journeyCode)
              && !ConfigComplete(req.seatConfiguration) ==>
        r.Failure? && r.error.NullColumn?
      ensures JourneyAccepted(old(db.routes), old(db.journeys), req, journeyId, journeyCode)
              && ConfigComplete(req.seatConfiguration) && SeatIdsFresh(old(db.seats), seatIds)
              && !Distinct(SeatNumbers(Inventory(journeyId, req.seatConfiguration, DefaultTotalSeats, seatIds))) ==>
        r == Failure(DuplicateKey("seat_inventory.journey_id_seat_number"))
      ensures r.Failure? ==> db.journeys == old(db.journeys) && db.seats == old(db.seats)
      ensures r.Success? <==>
        && JourneyAccepted(old(db.routes), old(db.journeys), req, journeyId, journeyCode)
        && ConfigComplete(req.seatConfiguration)
        && SeatIdsFresh(old(db.seats), seatIds)
        && Distinct(SeatNumbers(Inventory(journeyId, req.seatConfiguration, DefaultTotalSeats, seatIds)))
      ensures r.Success? ==>
        && r.value == NewJourney(req, old(db.routes)[req.routeReferenceId], journeyId, journeyCode)
        && db.journeys == old(db.journeys) + [r.value]
        && db.seats == old(db.seats) + Inventory(journeyId, req.seatConfiguration, DefaultTotalSeats, seatIds)
      ensures r.Success? ==>
        (CounterMatches(db.journeys, db.seats, journeyId) <==> |seatIds| == DefaultTotalSeats)
    {
      if req.routeReferenceId !in db.routes {
        return Failure(ResourceNotFound("Route not found"));
      }
      var route := db.routes[req.routeReferenceId];
      if |route.sourceCity| < 2 {
        return Failure(IndexOutOfBounds);
      }
      var arrival := req.departureTime + route.estimatedDurationMinutes;
      var conflicts := FindVehicleSchedule(db.journeys, req.vehicleReferenceId,
                                           req.departureTime - ConflictMarginMinutes, arrival + ConflictMarginMinutes);
      if conflicts != [] {
        return Failure(BusinessRule("Vehicle has conflicting schedule"));
      }
      var journey := NewJourney(req, route, journeyId, journeyCode);
      if journeyId in JourneyIds(db.journeys) {
        return Failure(DuplicateKey("journeys.reference_id"));
      }
      if journeyCode in JourneyCodes(db.journeys) {
        return Failure(DuplicateKey("journeys.journey_code"));
      }
      var built := CreateSeatInventory(journey, req.seatConfiguration, seatIds);
      if built.Failure? {
        return Failure(built.error);
      }
      var seats := built.value;
      if !Distinct(seatIds) || exists id :: id in seatIds && id in SeatIds(db.seats) {
        return Failure(DuplicateKey("seat_inventory.reference_id"));
      }
      if !Distinct(SeatNumbers(seats)) {
        return Failure(DuplicateKey("seat_inventory.journey_id_seat_number"));
      }
      InventoryRows(journeyId, req.seatConfiguration, DefaultTotalSeats, seatIds);
      InsertJourneyFacts(db.journeys, db.seats, journey, seats);
      db.AddJourney(journey, seats);
      r := Success(journey);
    }

    /** `updateJourney`: only a SCHEDULED journey may change; it takes the
        request's vehicle, departure, amenities and, when one is sent, fare,
        and its arrival is recomputed from the route. Nothing else changes. */
    method UpdateJourney(journeyId: Uuid, req: JourneyRequest) returns (r: Result<Journey>)
      requires db.Valid()
      modifies db
      ensures db.Valid() && db.routes == old(db.routes) && db.seats == old(db.seats)
      ensures FindJourney(old(db.journeys), journeyId).None? ==>
        r == Failure(ResourceNotFound("Journey not found"))
      ensures FindJourney(old(db.journeys), journeyId).Some?
              && FindJourney(old(db.journeys), journeyId).value.journeyStatus != Scheduled ==>
        r == Failure(BusinessRule("Cannot update journey that is not in SCHEDULED status"))
      ensures r.Failure? ==> db.journeys == old(db.journeys)
      ensures r.Success? ==>
        var j := FindJourney(old(db.journeys), journeyId).value;
        var route := old(db.routes)[j.routeReferenceId];
        && j.journeyStatus == Scheduled
        && r.value == j.(vehicleReferenceId := req.vehicleReferenceId,
                         departureTime := req.departureTime,
                         arrivalTime := req.departureTime + route.estimatedDurationMinutes,
                         baseFare := if req.baseFare.Some? then req.baseFare.value else j.baseFare,
                         amenities := req.amenities)
        && db.journeys == SaveJourney(old(db.journeys), r.value)
        && FindJourney(db.journeys, journeyId) == Some(r.value)
    {
      var jo := FindJourney(db.journeys, journeyId);
      if jo.None? {
        return Failure(ResourceNotFound("Journey not found"));
      }
      var journey := jo.value;
      if journey.journeyStatus != Scheduled {
        return Failure(BusinessRule("Cannot update journey that is not in SCHEDULED status"));
      }
      var route := db.routes[journey.routeReferenceId];
      var arrival := req.departureTime + route.estimatedDurationMinutes;
      journey := journey.(vehicleReferenceId := req.vehicleReferenceId, departureTime := req.departureTime,
                          arrivalTime := arrival);
      if req.baseFare.Some? {
        journey := journey.(baseFare := req.baseFare.value);
      }
      journey := journey.(amenities := req.amenities);
      SaveExistingJourney(db.journeys, journey, journeyId);
      db.SaveJourneyRow(journey);
      r := Success(journey);
    }

    /** `cancelJourney`: any journey but a COMPLETED one becomes CANCELLED
        and inactive. Its seats and counters are left as they are. */
    method CancelJourney(journeyId: Uuid) returns (st: Status)
      requires db.Valid()
      modifies db
      ensures db.Valid() && db.routes == old(db.routes) && db.seats == old(db.seats)
      ensures FindJourney(old(db.journeys), journeyId).None? ==>
        st == Failed(ResourceNotFound("Journey not found")) && db.journeys == old(db.journeys)
      ensures FindJourney(old(db.journeys), journeyId).Some?
              && FindJourney(old(db.journeys), journeyId).value.journeyStatus == Completed ==>
        st == Failed(BusinessRule("Cannot cancel completed journey")) && db.journeys == old(db.journeys)
      ensures FindJourney(old(db.journeys), journeyId).Some?
              && FindJourney(old(db.journeys), journeyId).value.journeyStatus != Completed ==>
        var j := FindJourney(old(db.journeys), journeyId).value;
        && st == Done
        && db.journeys == SaveJourney(old(db.journeys), j.(journeyStatus := Cancelled, isActive := false))
        && FindJourney(db.journeys, journeyId) == Some(j.(journeyStatus := Cancelled, isActive := false))
        && forall id :: id != journeyId ==> FindJourney(db.journeys, id) == FindJourney(old(db.journeys), id)
    {
      var jo := FindJourney(db.journeys, journeyId);
      if jo.None? {
        return Failed(ResourceNotFound("Journey not found"));
      }
      var journey := jo.value;
      if journey.journeyStatus == Completed {
        return Failed(BusinessRule("Cannot cancel completed journey"));
      }
      journey := journey.(journeyStatus := Cancelled, isActive := false);
      forall id | true
        ensures FindJourney(SaveJourney(db.journeys, journey), id)
             == if id == journeyId then Some(journey) else FindJourney(db.journeys, id)
      {
        SaveExistingJourney(db.journeys, journey, id);
      }
      db.SaveJourneyRow(journey);
      st := Done;
    }
  }

  /** What adding a fresh journey and its fresh seats does to the tables: the
      keys stay unique, and the new journey's free-seat count is the number of
      new rows. */
  lemma InsertJourneyFacts(journeys: seq<Journey>, seats: seq<SeatInventory>, j: Journey, rows: seq<SeatInventory>)
    requires UniqueJourneys(journeys) && UniqueSeatIds(seats) && UniqueSeatNumbers(seats)
    requires forall s :: s in seats ==> s.journeyReferenceId in JourneyIds(journeys)
    requires j.referenceId !in JourneyIds(journeys) && j.journeyCode !in JourneyCodes(journeys)
    requires Distinct(SeatIds(rows)) && forall s :: s in rows ==> s.referenceId !in SeatIds(seats)
    requires Distinct(SeatNumbers(rows))
    requires forall s :: s in rows ==> s.journeyReferenceId == j.referenceId && s.isAvailable && s.bookingReferenceId.None?
    ensures UniqueJourneys(journeys + [j]) && UniqueSeatIds(seats + rows) && UniqueSeatNumbers(seats + rows)
    ensures HoldsMarked(seats) ==> HoldsMarked(seats + rows)
    ensures FindJourney(journeys + [j], j.referenceId) == Some(j)
    ensures CountAvailableSeats(seats + rows, j.referenceId) == |rows|
  {
    SaveNewJourney(journeys, j);
    assert SaveJourney(journeys, j) == journeys + [j];
    var all := seats + rows;
    forall a, b | 0 <= a < b < |all|
      ensures all[a].journeyReferenceId == all[b].journeyReferenceId ==> all[a].seatNumber != all[b].seatNumber
    {
      if b < |seats| {
        assert all[a] == seats[a] && all[b] == seats[b];
      } else if a >= |seats| {
        assert all[a] == rows[a - |seats|] && all[b] == rows[b - |seats|];
        assert SeatNumbers(rows)[a - |seats|] != SeatNumbers(rows)[b - |seats|];
      } else {
        assert all[a] in seats && all[b] in rows;
      }
    }
    forall a, b | 0 <= a < b < |all| ensures SeatIds(all)[a] != SeatIds(all)[b] {
      if b < |seats| {
        assert SeatIds(all)[a] == SeatIds(seats)[a] && SeatIds(all)[b] == SeatIds(seats)[b];
      } else if a >= |seats| {
        assert SeatIds(all)[a] == SeatIds(rows)[a - |seats|];
        assert SeatIds(all)[b] == SeatIds(rows)[b - |seats|];
      } else {
        assert all[b] == rows[b - |seats|] && all[b] in rows;
        assert SeatIds(all)[a] == SeatIds(seats)[a];
      }
    }
    FilterAppend(seats, rows, AvailableIn(j.referenceId));
    FilterEmpty(seats, AvailableIn(j.referenceId));
    AllPass(rows, AvailableIn(j.referenceId));
  }
}
