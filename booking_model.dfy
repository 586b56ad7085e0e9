/** The booking service's entities: a booking, its passengers and its seats,
    the booking life cycle, and the request a booking starts from. */
module BookingModel {
  import opened Common

  /** The life cycle of a booking. */
  datatype BookingStatus =
    | Initiated | SeatsBlocked | PaymentPending | PaymentProcessing | Confirmed
    | Cancelled | Failed | Expired | RefundInitiated | Refunded

  /** The enum constant's name, as `toString` prints it into messages. */
  function StatusName(s: BookingStatus): string
  {
    match s
    case Initiated => "INITIATED"
    case SeatsBlocked => "SEATS_BLOCKED"
    case PaymentPending => "PAYMENT_PENDING"
    case PaymentProcessing => "PAYMENT_PROCESSING"
    case Confirmed => "CONFIRMED"
    case Cancelled => "CANCELLED"
    case Failed => "FAILED"
    case Expired => "EXPIRED"
    case RefundInitiated => "REFUND_INITIATED"
    case Refunded => "REFUNDED"
  }

  /** Different statuses print different names, so a message names the
      status it reports. */
  lemma StatusNameInjective(a: BookingStatus, b: BookingStatus)
    requires StatusName(a) == StatusName(b)
    ensures a == b
  {
    assert StatusName(a)[..2] == StatusName(b)[..2];
    assert |StatusName(a)| == |StatusName(b)|;
  }

  /** A passenger row. Its reference id is null until the row is persisted:
      the id is generated when the row is first saved. */
  datatype Passenger = Passenger(
    referenceId: Option<Uuid>,
    seatNumber: string,
    passengerName: string,
    age: int,
    gender: string,
    idType: Option<string>,
    idNumber: Option<string>,
    isPrimary: bool)

  /** One seat held by a booking: the journey-side seat row it stands for,
      the passenger in it and the fare charged for it. */
  datatype BookingSeat = BookingSeat(
    seatInventoryReferenceId: Uuid,
    seatNumber: string,
    passengerReferenceId: Uuid,
    seatFare: Money,
    isLocked: bool)

  datatype Booking = Booking(
    referenceId: Uuid,
    bookingCode: string,
    userReferenceId: string,
    journeyReferenceId: Uuid,
    totalSeats: int,
    totalAmount: Money,
    discountAmount: Money,
    finalAmount: Money,
    bookingStatus: BookingStatus,
    paymentStatus: string,
    paymentReferenceId: Option<string>,
    bookingTime: Time,
    expiryTime: Time,
    cancellationTime: Option<Time>,
    cancellationReason: Option<string>,
    refundAmount: Option<Money>,
    passengers: seq<Passenger>,
    bookingSeats: seq<BookingSeat>)

  /** How long seats stay held for an unpaid booking, in minutes. */
  const BookingExpiryMinutes: int := 15

  /** The seat a customer picked: the journey-side seat row and its number. */
  datatype SeatSelection = SeatSelection(seatInventoryReferenceId: Uuid, seatNumber: string)

  datatype PassengerDetails = PassengerDetails(
    passengerName: string,
    age: int,
    gender: string,
    idType: Option<string>,
    idNumber: Option<string>,
    isPrimary: bool)

  datatype BookingRequest = BookingRequest(
    journeyReferenceId: Uuid,
    userReferenceId: string,
    seatSelections: seq<SeatSelection>,
    passengers: seq<PassengerDetails>)

  /** The seat rows a request asks for, in request order. */
  function SelectedSeatIds(selections: seq<SeatSelection>): (r: seq<Uuid>)
    ensures |r| == |selections|
    ensures forall i :: 0 <= i < |r| ==> r[i] == selections[i].seatInventoryReferenceId
  {
    seq(|selections|, i requires 0 <= i < |selections| => selections[i].seatInventoryReferenceId)
  }

  /** The seat rows a booking holds, in the order of its booking seats. */
  function HeldSeatIds(b: Booking): (r: seq<Uuid>)
    ensures |r| == |b.bookingSeats|
    ensures forall i :: 0 <= i < |r| ==> r[i] == b.bookingSeats[i].seatInventoryReferenceId
  {
    seq(|b.bookingSeats|, i requires 0 <= i < |b.bookingSeats| => b.bookingSeats[i].seatInventoryReferenceId)
  }

  /** A booking whose seats are all marked unlocked, and nothing else changed. */
  function Unlocked(b: Booking): (r: Booking)
    ensures r == b.(bookingSeats := r.bookingSeats)
    ensures |r.bookingSeats| == |b.bookingSeats|
    ensures forall i :: 0 <= i < |b.bookingSeats| ==>
      r.bookingSeats[i] == b.bookingSeats[i].(isLocked := false)
    ensures HeldSeatIds(r) == HeldSeatIds(b)
  {
    var seats := seq(|b.bookingSeats|, i requires 0 <= i < |b.bookingSeats| => b.bookingSeats[i].(isLocked := false));
    var r := b.(bookingSeats := seats);
    assert HeldSeatIds(r) == HeldSeatIds(b);
    r
  }
}
