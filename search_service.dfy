/** The search service's filtering step: journeys that the index returned
    for a route and day are kept or dropped by the request's optional
    filters. Every boxed Java value that may be null is an `Option`;
    unboxing a null throws, and the whole search ends in that exception. */
module Search {
  import opened Common
  import opened Strings
  import Seqs

  /** The fields of an indexed journey that the filter reads. */
  datatype JourneyDocument = JourneyDocument(
    id: string,
    journeyCode: string,
    availableSeats: Option<int>,
    baseFare: Option<Money>,
    agencyName: Option<string>,
    vehicleType: Option<string>,
    amenities: Option<seq<string>>,
    isActive: Option<bool>)

  /** The filter fields of a search request. */
  datatype SearchRequest = SearchRequest(
    seatsRequired: Option<int>,
    maxFare: Option<Money>,
    vehicleType: Option<string>,
    agencyName: Option<string>,
    acOnly: Option<bool>,
    sleeperOnly: Option<bool>)

  /** The request's defaults: one seat and no filter. */
  const DefaultRequest := SearchRequest(Some(1), None, None, None, None, None)

  /** The filter meets a null on its way: each guard is reached only when
      the ones before it passed. */
  predicate ThrowsNull(j: JourneyDocument, req: SearchRequest) {
    || j.availableSeats.None? || req.seatsRequired.None?
    || (&& j.availableSeats.value >= req.seatsRequired.value
        && (|| (req.maxFare.Some? && j.baseFare.None?)
            || (&& (req.maxFare.None? || j.baseFare.value <= req.maxFare.value)
                && (|| (req.vehicleType.Some? && j.vehicleType.None?)
                    || (&& (req.vehicleType.None? || EqualsIgnoreCase(j.vehicleType.value, req.vehicleType.value))
                        && (|| (req.agencyName.Some? && j.agencyName.None?)
                            || (&& (req.agencyName.None? || Contains(ToLower(j.agencyName.value), ToLower(req.agencyName.value)))
                                && AcAdmits(j, req) && SleeperAdmits(j, req)
                                && j.isActive.None?)))))))
  }

  predicate AcAdmits(j: JourneyDocument, req: SearchRequest) {
    req.acOnly != Some(true) || (j.amenities.Some? && "AC" in j.amenities.value)
  }

  predicate SleeperAdmits(j: JourneyDocument, req: SearchRequest) {
    req.sleeperOnly != Some(true) || (j.vehicleType.Some? && Contains(ToLower(j.vehicleType.value), "sleeper"))
  }

  /** The journey passes every filter the request sets and is active. */
  predicate Admits(j: JourneyDocument, req: SearchRequest) {
    && j.availableSeats.Some? && req.seatsRequired.Some?
    && j.availableSeats.value >= req.seatsRequired.value
    && (req.maxFare.None? || (j.baseFare.Some? && j.baseFare.value <= req.maxFare.value))
    && (req.vehicleType.None? || (j.vehicleType.Some? && EqualsIgnoreCase(j.vehicleType.value, req.vehicleType.value)))
    && (req.agencyName.None? || (j.agencyName.Some? && Contains(ToLower(j.agencyName.value), ToLower(req.agencyName.value))))
    && AcAdmits(j, req) && SleeperAdmits(j, req)
    && j.isActive == Some(true)
  }

  /** `filterJourney`: the guards in source order, each returning false as
      soon as it fails; the last line returns `isActive`. */
  function FilterJourney(j: JourneyDocument, req: SearchRequest): (r: Result<bool>)
    ensures r == Success(true) <==> Admits(j, req)
    ensures r.Failure? <==> ThrowsNull(j, req)
    ensures r.Failure? ==> r.error == NullPointer
  {
    if j.availableSeats.None? || req.seatsRequired.None? then Failure(NullPointer)
    else if j.availableSeats.value < req.seatsRequired.value then Success(false)
    else if req.maxFare.Some? && j.baseFare.None? then Failure(NullPointer)
    else if req.maxFare.Some? && j.baseFare.value > req.maxFare.value then Success(false)
    else if req.vehicleType.Some? && j.vehicleType.None? then Failure(NullPointer)
    else if req.vehicleType.Some? && !EqualsIgnoreCase(j.vehicleType.value, req.vehicleType.value) then Success(false)
    else if req.agencyName.Some? && j.agencyName.None? then Failure(NullPointer)
    else if req.agencyName.Some? && !Contains(ToLower(j.agencyName.value), ToLower(req.agencyName.value)) then Success(false)
    else if !AcAdmits(j, req) then Success(false)
    else if !SleeperAdmits(j, req) then Success(false)
    else if j.isActive.None? then Failure(NullPointer)
    else Success(j.isActive.value)
  }

  /** The seat filter and the fare cap are inclusive bounds: a journey with
      exactly the seats asked for, or a fare equal to the cap, is not
      dropped by them. */
  lemma BoundsAreInclusive(j: JourneyDocument, req: SearchRequest)
    requires j.availableSeats.Some? && req.seatsRequired.Some? && j.availableSeats.value == req.seatsRequired.value
    requires req.maxFare.Some? && j.baseFare == req.maxFare
    requires req.vehicleType.None? && req.agencyName.None? && req.acOnly.None? && req.sleeperOnly.None?
    requires j.isActive.Some?
    ensures FilterJourney(j, req) == Success(j.isActive.value)
  {
  }

  /** The vehicle-type filter does not care about letter case, and matches
      the journey's own type in any case. */
  lemma VehicleTypeIgnoresCase(j: JourneyDocument, req: SearchRequest)
    requires j.vehicleType.Some? && req.vehicleType.Some?
    requires ToLower(req.vehicleType.value) == ToLower(j.vehicleType.value)
    ensures FilterJourney(j, req) == FilterJourney(j, req.(vehicleType := Some(j.vehicleType.value)))
  {
  }

  /** With the default request an active journey with a free seat is
      kept, and one without a free seat is dropped. */
  lemma DefaultRequestKeepsFreeActive(j: JourneyDocument)
    requires j.availableSeats.Some? && j.isActive.Some?
    ensures FilterJourney(j, DefaultRequest) == Success(j.availableSeats.value >= 1 && j.isActive.value)
  {
  }

  function AdmittedBy(req: SearchRequest): JourneyDocument -> bool {
    j => Admits(j, req)
  }

  /** The filtering step of `searchJourneys`: the page's journeys that pass
      the filter, in page order; the first null met ends the search. */
  function FilterPage(page: seq<JourneyDocument>, req: SearchRequest): (r: Result<seq<JourneyDocument>>)
    ensures r.Failure? <==> exists k :: 0 <= k < |page| && ThrowsNull(page[k], req)
    ensures r.Failure? ==> r.error == NullPointer
    ensures r.Success? ==> r.value == Seqs.Filter(page, AdmittedBy(req))
  {
    if page == [] then Success([])
    else
      var head := FilterJourney(page[0], req);
      var tail := FilterPage(page[1..], req);
      assert forall k :: 0 < k < |page| ==> page[1..][k - 1] == page[k];
      if head.Failure? then Failure(head.error)
      else if tail.Failure? then tail
      else Success(if head.value then [page[0]] + tail.value else tail.value)
  }

  /** What a search returns is an order-preserving sub-list of the page,
      holding exactly the page's journeys that the filter admits. */
  lemma FilterPageSubList(page: seq<JourneyDocument>, req: SearchRequest)
    requires FilterPage(page, req).Success?
    ensures Seqs.IsSubsequence(FilterPage(page, req).value, page)
    ensures forall j :: j in FilterPage(page, req).value <==> j in page && Admits(j, req)
  {
    Seqs.FilterIsSubsequence(page, AdmittedBy(req));
  }
}
