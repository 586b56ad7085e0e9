/** The seat table and the queries the journey service runs against it. The
    table is the sequence of its rows in storage order; a query without
    ORDER BY returns rows in that order. */
module SeatRepository {
  import opened Common
  import opened Seqs
  import opened JourneyModel

  /** The reference ids of the rows, in table order. */
  function SeatIds(rows: seq<SeatInventory>): seq<Uuid> {
    seq(|rows|, i requires 0 <= i < |rows| => rows[i].referenceId)
  }

  /** The unique constraint on the `reference_id` column. */
  predicate UniqueSeatIds(rows: seq<SeatInventory>) {
    Distinct(SeatIds(rows))
  }

  /** The seat numbers of the rows, in table order. */
  function SeatNumbers(rows: seq<SeatInventory>): seq<string> {
    seq(|rows|, i requires 0 <= i < |rows| => rows[i].seatNumber)
  }

  /** The unique constraint on the (`journey_id`, `seat_number`) pair: two
      rows of one journey never share a seat number. */
  predicate UniqueSeatNumbers(rows: seq<SeatInventory>) {
    forall a, b :: 0 <= a < b < |rows| && rows[a].journeyReferenceId == rows[b].journeyReferenceId ==>
      rows[a].seatNumber != rows[b].seatNumber
  }

  /** A free seat has no booking reference, and a taken one has one (the
      "LOCKED" marker or the booking's id). */
  predicate HoldsMarked(rows: seq<SeatInventory>) {
    forall s :: s in rows ==> (!s.isAvailable <==> s.bookingReferenceId.Some?)
  }

  /** `findByReferenceId`: the row with that reference id, if any. */
  function FindByReferenceId(rows: seq<SeatInventory>, id: Uuid): (r: Option<SeatInventory>)
    ensures r.Some? <==> id in SeatIds(rows)
    ensures r.Some? ==> r.value in rows && r.value.referenceId == id
  {
    if rows == [] then None
    else if rows[0].referenceId == id then
      assert SeatIds(rows)[0] == id;
      Some(rows[0])
    else
      assert SeatIds(rows) == [rows[0].referenceId] + SeatIds(rows[1..]);
      FindByReferenceId(rows[1..], id)
  }

  /** Under the unique constraint a reference id names at most one row. */
  lemma FindByReferenceIdUnique(rows: seq<SeatInventory>, s: SeatInventory)
    requires UniqueSeatIds(rows)
    requires s in rows
    ensures FindByReferenceId(rows, s.referenceId) == Some(s)
  {
    var r := FindByReferenceId(rows, s.referenceId);
    var i :| 0 <= i < |rows| && rows[i] == s;
    assert SeatIds(rows)[i] == s.referenceId;
    var k :| 0 <= k < |rows| && rows[k] == r.value;
    assert SeatIds(rows)[k] == s.referenceId;
  }

  function InIds(ids: seq<Uuid>): SeatInventory -> bool {
    (s: SeatInventory) => s.referenceId in ids
  }

  function AvailableIn(journeyId: Uuid): SeatInventory -> bool {
    (s: SeatInventory) => s.journeyReferenceId == journeyId && s.isAvailable
  }

  function InJourney(journeyId: Uuid): SeatInventory -> bool {
    (s: SeatInventory) => s.journeyReferenceId == journeyId
  }

  /** `findByReferenceIdsWithLock`: the rows whose reference id is in the
      list (JPQL `IN`), in table order. */
  function FindByReferenceIdsWithLock(rows: seq<SeatInventory>, ids: seq<Uuid>): (r: seq<SeatInventory>)
    ensures forall s :: s in r <==> s in rows && s.referenceId in ids
  {
    Filter(rows, InIds(ids))
  }

  /** `findByJourneyId`. */
  function FindByJourneyId(rows: seq<SeatInventory>, journeyId: Uuid): (r: seq<SeatInventory>)
    ensures forall s :: s in r <==> s in rows && s.journeyReferenceId == journeyId
  {
    Filter(rows, InJourney(journeyId))
  }

  /** `findByJourneyIdAndIsAvailableTrue`. */
  function FindByJourneyIdAndIsAvailableTrue(rows: seq<SeatInventory>, journeyId: Uuid): (r: seq<SeatInventory>)
    ensures forall s :: s in r <==> s in rows && s.journeyReferenceId == journeyId && s.isAvailable
  {
    Filter(rows, AvailableIn(journeyId))
  }

  /** `findByBookingReferenceId`. */
  function FindByBookingReferenceId(rows: seq<SeatInventory>, bookingRef: string): (r: seq<SeatInventory>)
    ensures forall s :: s in r <==> s in rows && s.bookingReferenceId == Some(bookingRef)
  {
    Filter(rows, (s: SeatInventory) => s.bookingReferenceId == Some(bookingRef))
  }

  /** `countAvailableSeats`: COUNT over the journey's available rows. */
  function CountAvailableSeats(rows: seq<SeatInventory>, journeyId: Uuid): nat {
    |Filter(rows, AvailableIn(journeyId))|
  }

  /** The ordering of `ORDER BY s.seatNumber`. */
  predicate SeatNumberLe(a: SeatInventory, b: SeatInventory) {
    StringLe(a.seatNumber, b.seatNumber)
  }

  /** `findByJourneyIdOrderBySeatNumber`. */
  function FindByJourneyIdOrderBySeatNumber(rows: seq<SeatInventory>, journeyId: Uuid): seq<SeatInventory> {
    SortBy(FindByJourneyId(rows, journeyId), SeatNumberLe)
  }

  /** The one row update of the bulk UPDATE. */
  function Stamped(s: SeatInventory, ids: seq<Uuid>, available: bool, bookingRef: Option<string>): SeatInventory {
    if s.referenceId in ids then s.(isAvailable := available, bookingReferenceId := bookingRef) else s
  }

  /** `updateSeatAvailability`: UPDATE ... SET isAvailable, bookingReferenceId
      WHERE referenceId IN ids. Every matched row gets both columns, every
      other row is left as it was. */
  function BulkUpdate(rows: seq<SeatInventory>, ids: seq<Uuid>, available: bool, bookingRef: Option<string>): (r: seq<SeatInventory>)
    ensures |r| == |rows|
    ensures forall i :: 0 <= i < |rows| ==> r[i] == Stamped(rows[i], ids, available, bookingRef)
  {
    if rows == [] then []
    else [Stamped(rows[0], ids, available, bookingRef)] + BulkUpdate(rows[1..], ids, available, bookingRef)
  }

  // ---------------------------------------------------------------------
  // Properties of the queries

  lemma {:induction false} FilterKeepsUniqueIds(rows: seq<SeatInventory>, p: SeatInventory -> bool)
    requires UniqueSeatIds(rows)
    ensures UniqueSeatIds(Filter(rows, p))
  {
    if rows != [] {
      assert UniqueSeatIds(rows[1..]) by {
        assert forall i :: 0 <= i < |rows| - 1 ==> SeatIds(rows[1..])[i] == SeatIds(rows)[i + 1];
      }
      FilterKeepsUniqueIds(rows[1..], p);
      if p(rows[0]) {
        var f := Filter(rows, p);
        var t := Filter(rows[1..], p);
        assert f == [rows[0]] + t;
        forall i, j | 0 <= i < j < |f| ensures SeatIds(f)[i] != SeatIds(f)[j] {
          if i == 0 {
            assert f[j] == t[j - 1] && f[j] in rows[1..];
            var k :| 0 <= k < |rows[1..]| && rows[1..][k] == f[j];
            assert SeatIds(rows)[k + 1] == f[j].referenceId;
            assert SeatIds(rows)[0] != SeatIds(rows)[k + 1];
            assert SeatIds(f)[0] == rows[0].referenceId && SeatIds(f)[j] == f[j].referenceId;
          } else {
            assert SeatIds(f)[i] == SeatIds(t)[i - 1] && SeatIds(f)[j] == SeatIds(t)[j - 1];
          }
        }
      }
    }
  }

  /** The rows a lock finds carry each requested id at most once, however
      often the id was requested. */
  lemma LockedRowsUnique(rows: seq<SeatInventory>, ids: seq<Uuid>)
    requires UniqueSeatIds(rows)
    ensures UniqueSeatIds(FindByReferenceIdsWithLock(rows, ids))
  {
    FilterKeepsUniqueIds(rows, InIds(ids));
  }

  lemma SubsetSameSize<T>(a: set<T>, b: set<T>)
    requires a <= b && |a| == |b|
    ensures a == b
  {
    if b - a != {} {
      var x :| x in b - a;
      SubsetCard(a, b - {x});
    }
  }

  /** The lock's size test: the rows found are as many as the ids requested
      exactly when the ids are pairwise different and every one names a row.
      So a request naming a seat twice is refused as "Some seats not found". */
  lemma FoundAllIff(rows: seq<SeatInventory>, ids: seq<Uuid>)
    requires UniqueSeatIds(rows)
    ensures |FindByReferenceIdsWithLock(rows, ids)| == |ids|
        <==> Distinct(ids) && forall id :: id in ids ==> id in SeatIds(rows)
  {
    var found := FindByReferenceIdsWithLock(rows, ids);
    LockedRowsUnique(rows, ids);
    DistinctCardinality(SeatIds(found));
    CardinalityBound(ids);
    assert Elements(SeatIds(found)) <= Elements(ids) by {
      forall x | x in Elements(SeatIds(found)) ensures x in Elements(ids) {
        var k :| 0 <= k < |found| && SeatIds(found)[k] == x;
        assert found[k] in found;
      }
    }
    assert |found| <= |Elements(ids)| by {
      assert |SeatIds(found)| == |found|;
      SubsetCard(Elements(SeatIds(found)), Elements(ids));
    }
    if |found| == |ids| {
      assert |Elements(ids)| == |ids|;
      SubsetSameSize(Elements(SeatIds(found)), Elements(ids));
      forall id | id in ids ensures id in SeatIds(rows) {
        assert id in Elements(SeatIds(found));
        var k :| 0 <= k < |found| && SeatIds(found)[k] == id;
        assert found[k] in rows;
        var i :| 0 <= i < |rows| && rows[i] == found[k];
        assert SeatIds(rows)[i] == id;
      }
    }
    if Distinct(ids) && forall id :: id in ids ==> id in SeatIds(rows) {
      DistinctCardinality(ids);
      assert Elements(ids) <= Elements(SeatIds(found)) by {
        forall id | id in Elements(ids) ensures id in Elements(SeatIds(found)) {
          var row := FindByReferenceId(rows, id).value;
          assert row in found;
          var k :| 0 <= k < |found| && found[k] == row;
          assert SeatIds(found)[k] == id;
        }
      }
      assert Elements(ids) == Elements(SeatIds(found));
      assert |found| == |ids|;
    }
  }

  lemma SubsetCard<T>(a: set<T>, b: set<T>)
    requires a <= b
    ensures |a| <= |b|
  {
    assert b == a + (b - a);
  }

  /** COUNT of the available rows of a journey is the number of its
      available seats, each counted once. */
  lemma CountAvailableSeatsIsCardinality(rows: seq<SeatInventory>, journeyId: Uuid)
    requires UniqueSeatIds(rows)
    ensures CountAvailableSeats(rows, journeyId)
         == |set s | s in rows && s.journeyReferenceId == journeyId && s.isAvailable :: s.referenceId|
  {
    var f := FindByJourneyIdAndIsAvailableTrue(rows, journeyId);
    FilterKeepsUniqueIds(rows, AvailableIn(journeyId));
    DistinctCardinality(SeatIds(f));
    var want := set s | s in rows && s.journeyReferenceId == journeyId && s.isAvailable :: s.referenceId;
    assert Elements(SeatIds(f)) == want by {
      forall x ensures x in Elements(SeatIds(f)) <==> x in want {
        if x in Elements(SeatIds(f)) {
          var k :| 0 <= k < |f| && SeatIds(f)[k] == x;
          assert f[k] in f;
        }
        if x in want {
          var s :| s in rows && s.journeyReferenceId == journeyId && s.isAvailable && s.referenceId == x;
          assert s in f;
          var k :| 0 <= k < |f| && f[k] == s;
          assert SeatIds(f)[k] == x;
        }
      }
    }
  }

  /** `findByJourneyIdAndIsAvailableTrue` and `countAvailableSeats` agree. */
  lemma CountMatchesAvailableFinder(rows: seq<SeatInventory>, journeyId: Uuid)
    ensures CountAvailableSeats(rows, journeyId) == |FindByJourneyIdAndIsAvailableTrue(rows, journeyId)|
    ensures IsSubsequence(FindByJourneyIdAndIsAvailableTrue(rows, journeyId), rows)
  {
    FilterIsSubsequence(rows, AvailableIn(journeyId));
  }

  lemma SeatNumberOrder()
    ensures IsTotalPreorder(SeatNumberLe)
  {
    forall a: SeatInventory, b: SeatInventory ensures SeatNumberLe(a, b) || SeatNumberLe(b, a) {
      StringLeTotal(a.seatNumber, b.seatNumber);
    }
    forall a: SeatInventory, b: SeatInventory, c: SeatInventory | SeatNumberLe(a, b) && SeatNumberLe(b, c)
      ensures SeatNumberLe(a, c)
    {
      StringLeTransitive(a.seatNumber, b.seatNumber, c.seatNumber);
    }
  }

  /** `findByJourneyIdOrderBySeatNumber` lists exactly the journey's rows,
      sorted by seat number. */
  lemma OrderBySeatNumberSorted(rows: seq<SeatInventory>, journeyId: Uuid)
    ensures SortedBy(FindByJourneyIdOrderBySeatNumber(rows, journeyId), SeatNumberLe)
    ensures multiset(FindByJourneyIdOrderBySeatNumber(rows, journeyId)) == multiset(FindByJourneyId(rows, journeyId))
  {
    SeatNumberOrder();
    SortBySorted(FindByJourneyId(rows, journeyId), SeatNumberLe);
  }

  // ---------------------------------------------------------------------
  // Properties of the bulk update

  /** The update changes no row's identity or journey. */
  lemma BulkUpdateKeepsIds(rows: seq<SeatInventory>, ids: seq<Uuid>, available: bool, bookingRef: Option<string>)
    ensures SeatIds(BulkUpdate(rows, ids, available, bookingRef)) == SeatIds(rows)
    ensures forall i :: 0 <= i < |rows| ==> BulkUpdate(rows, ids, available, bookingRef)[i].journeyReferenceId == rows[i].journeyReferenceId
  {
  }

  /** The update keeps the pair key: it changes no seat number and no
      journey. */
  lemma BulkUpdateKeepsSeatNumbers(rows: seq<SeatInventory>, ids: seq<Uuid>, available: bool, bookingRef: Option<string>)
    requires UniqueSeatNumbers(rows)
    ensures UniqueSeatNumbers(BulkUpdate(rows, ids, available, bookingRef))
  {
    var after := BulkUpdate(rows, ids, available, bookingRef);
    forall a, b | 0 <= a < b < |after| && after[a].journeyReferenceId == after[b].journeyReferenceId
      ensures after[a].seatNumber != after[b].seatNumber
    {
      assert after[a].seatNumber == rows[a].seatNumber && after[b].seatNumber == rows[b].seatNumber;
      assert after[a].journeyReferenceId == rows[a].journeyReferenceId;
      assert after[b].journeyReferenceId == rows[b].journeyReferenceId;
    }
  }

  /** An update that writes a booking reference exactly when it takes the
      seats (a lock, a stamp, a release) keeps every free seat unreferenced
      and every taken seat referenced. */
  lemma BulkUpdateKeepsMarks(rows: seq<SeatInventory>, ids: seq<Uuid>, available: bool, bookingRef: Option<string>)
    requires HoldsMarked(rows)
    requires available <==> bookingRef.None?
    ensures HoldsMarked(BulkUpdate(rows, ids, available, bookingRef))
  {
    var after := BulkUpdate(rows, ids, available, bookingRef);
    forall s | s in after ensures !s.isAvailable <==> s.bookingReferenceId.Some? {
      var k :| 0 <= k < |after| && after[k] == s;
      assert rows[k] in rows;
    }
  }

  /** Under the pair key, the rows `findByJourneyId` returns carry each seat
      number once; `findByJourneyIdAndSeatNumber` has at most one answer. */
  lemma {:induction false} UniqueSeatNumbersPerJourney(rows: seq<SeatInventory>, journeyId: Uuid)
    requires UniqueSeatNumbers(rows)
    ensures Distinct(SeatNumbers(FindByJourneyId(rows, journeyId)))
  {
    if rows != [] {
      var tail := rows[1..];
      assert UniqueSeatNumbers(tail) by {
        forall a, b | 0 <= a < b < |tail| && tail[a].journeyReferenceId == tail[b].journeyReferenceId
          ensures tail[a].seatNumber != tail[b].seatNumber
        {
          assert tail[a] == rows[a + 1] && tail[b] == rows[b + 1];
        }
      }
      UniqueSeatNumbersPerJourney(tail, journeyId);
      var rest := FindByJourneyId(tail, journeyId);
      if rows[0].journeyReferenceId == journeyId {
        var f := FindByJourneyId(rows, journeyId);
        assert f == [rows[0]] + rest;
        forall k | 0 <= k < |rest| ensures rest[k].seatNumber != rows[0].seatNumber {
          assert rest[k] in tail;
          var m :| 0 <= m < |tail| && tail[m] == rest[k];
          assert rows[m + 1] == rest[k];
        }
        forall a, b | 0 <= a < b < |f| ensures SeatNumbers(f)[a] != SeatNumbers(f)[b] {
          assert SeatNumbers(f)[b] == SeatNumbers(rest)[b - 1];
          if a > 0 {
            assert SeatNumbers(f)[a] == SeatNumbers(rest)[a - 1];
          }
        }
      }
    }
  }

  /** Running the same update twice leaves the table as running it once. */
  lemma BulkUpdateIdempotent(rows: seq<SeatInventory>, ids: seq<Uuid>, available: bool, bookingRef: Option<string>)
    ensures BulkUpdate(BulkUpdate(rows, ids, available, bookingRef), ids, available, bookingRef)
         == BulkUpdate(rows, ids, available, bookingRef)
  {
  }

  /** A second update of the same rows overwrites what the first wrote. */
  lemma BulkUpdateOverwrites(rows: seq<SeatInventory>, ids: seq<Uuid>, available1: bool, bookingRef1: Option<string>,
                             available2: bool, bookingRef2: Option<string>)
    ensures BulkUpdate(BulkUpdate(rows, ids, available1, bookingRef1), ids, available2, bookingRef2)
         == BulkUpdate(rows, ids, available2, bookingRef2)
  {
  }

  /** Two updates writing the same values amount to one update of both id
      lists. */
  lemma BulkUpdateAccumulates(rows: seq<SeatInventory>, ids1: seq<Uuid>, ids2: seq<Uuid>, available: bool,
                              bookingRef: Option<string>)
    ensures BulkUpdate(BulkUpdate(rows, ids1, available, bookingRef), ids2, available, bookingRef)
         == BulkUpdate(rows, ids1 + ids2, available, bookingRef)
  {
    var twice := BulkUpdate(BulkUpdate(rows, ids1, available, bookingRef), ids2, available, bookingRef);
    forall i | 0 <= i < |rows| ensures twice[i] == BulkUpdate(rows, ids1 + ids2, available, bookingRef)[i] {
      assert rows[i].referenceId in ids1 + ids2 <==> rows[i].referenceId in ids1 || rows[i].referenceId in ids2;
    }
  }

  /** Looking a row up after the update: a matched row carries the new
      values, any other row is as before. */
  lemma FindAfterBulkUpdate(rows: seq<SeatInventory>, ids: seq<Uuid>, available: bool, bookingRef: Option<string>, id: Uuid)
    requires UniqueSeatIds(rows)
    ensures FindByReferenceId(BulkUpdate(rows, ids, available, bookingRef), id)
         == if FindByReferenceId(rows, id).Some?
            then Some(Stamped(FindByReferenceId(rows, id).value, ids, available, bookingRef))
            else None
  {
    var after := BulkUpdate(rows, ids, available, bookingRef);
    BulkUpdateKeepsIds(rows, ids, available, bookingRef);
    var r := FindByReferenceId(rows, id);
    if r.Some? {
      var i :| 0 <= i < |rows| && rows[i] == r.value;
      assert after[i] in after;
      assert UniqueSeatIds(after);
      FindByReferenceIdUnique(after, after[i]);
    }
  }

  function InIdsAvailableIn(ids: seq<Uuid>, journeyId: Uuid): SeatInventory -> bool {
    (s: SeatInventory) => s.referenceId in ids && s.journeyReferenceId == journeyId && s.isAvailable
  }

  function InIdsOfJourney(ids: seq<Uuid>, journeyId: Uuid): SeatInventory -> bool {
    (s: SeatInventory) => s.referenceId in ids && s.journeyReferenceId == journeyId
  }

  /** How the update moves a journey's count of available rows: the matched
      rows of the journey that were available stop counting, and when the
      update frees seats every matched row of the journey counts. */
  lemma {:induction false} CountAfterBulkUpdate(rows: seq<SeatInventory>, ids: seq<Uuid>, available: bool,
                                                bookingRef: Option<string>, journeyId: Uuid)
    ensures CountAvailableSeats(BulkUpdate(rows, ids, available, bookingRef), journeyId)
         == CountAvailableSeats(rows, journeyId)
          - |Filter(rows, InIdsAvailableIn(ids, journeyId))|
          + (if available then |Filter(rows, InIdsOfJourney(ids, journeyId))| else 0)
  {
    if rows != [] {
      var after := BulkUpdate(rows, ids, available, bookingRef);
      assert after == [Stamped(rows[0], ids, available, bookingRef)] + BulkUpdate(rows[1..], ids, available, bookingRef);
      assert after[1..] == BulkUpdate(rows[1..], ids, available, bookingRef);
      CountAfterBulkUpdate(rows[1..], ids, available, bookingRef, journeyId);
    }
  }
}
