/** The journey service's entities: routes, journeys, their seat inventory,
    and the seat view the service hands to the booking service. */
module JourneyModel {
  import opened Common

  datatype SeatType = Lower | Upper | Seater | Sleeper | SemiSleeper

  datatype JourneyStatus =
    | Scheduled | Boarding | Departed | InTransit | Arrived | Completed | Cancelled | Delayed

  /** A route, as far as journey scheduling and search read it. */
  datatype Route = Route(
    referenceId: Uuid,
    sourceCity: string,
    destinationCity: string,
    estimatedDurationMinutes: int,
    baseFare: Money)

  /** One trip of a vehicle along a route. `availableSeats` is a counter the
      seat operations adjust; nothing ties it to the seat rows by itself. */
  datatype Journey = Journey(
    referenceId: Uuid,
    routeReferenceId: Uuid,
    journeyCode: string,
    vehicleReferenceId: string,
    departureTime: Time,
    arrivalTime: Time,
    journeyStatus: JourneyStatus,
    totalSeats: int,
    availableSeats: int,
    baseFare: Money,
    isActive: bool,
    amenities: Option<string>)

  /** One seat of one journey. `bookingReferenceId` is null for a free seat,
      the marker "LOCKED" while a booking is being set up, and the booking's
      reference id once the booking owns it. */
  datatype SeatInventory = SeatInventory(
    referenceId: Uuid,
    journeyReferenceId: Uuid,
    seatNumber: string,
    seatType: SeatType,
    isAvailable: bool,
    isLadiesSeat: bool,
    fareMultiplier: Money,
    bookingReferenceId: Option<string>)

  /** The marker a lock writes into `bookingReferenceId`. */
  const LockedMarker: string := "LOCKED"

  /** What the journey service sends for one seat: the row plus its fare. */
  datatype SeatInventoryDto = SeatInventoryDto(
    referenceId: Uuid,
    seatNumber: string,
    seatType: SeatType,
    isAvailable: bool,
    isLadiesSeat: bool,
    fareMultiplier: Money,
    calculatedFare: Money,
    bookingReferenceId: Option<string>)

  /** A seat's price: the journey's base fare scaled by the seat's multiplier. */
  function SeatFare(baseFare: Money, fareMultiplier: Money): Money {
    baseFare * fareMultiplier
  }

  /** The seat view: the row's columns and the seat's price. */
  function ToSeatInventoryDto(seat: SeatInventory, baseFare: Money): SeatInventoryDto {
    SeatInventoryDto(seat.referenceId, seat.seatNumber, seat.seatType, seat.isAvailable,
                     seat.isLadiesSeat, seat.fareMultiplier, SeatFare(baseFare, seat.fareMultiplier),
                     seat.bookingReferenceId)
  }
}
