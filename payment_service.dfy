/** The payment service: a mock payment is checked against the amount due
    and settled as SUCCESS or FAILED, and a successful payment can be
    refunded once. The payment table is a sequence of rows in insertion
    order; each service method is one transaction, rolled back when it ends
    in an exception. */
module Payments {
  import opened Common

  datatype PaymentStatus = Pending | Processing | Success | Failed | Cancelled | RefundInitiated | Refunded

  /** The text a failed or refunded payment carries in `failureReason`, kept
      as the amounts it is formatted from. */
  datatype Note = AmountMismatch(required: Money, entered: Money) | RefundedAmount(amount: Money)

  datatype Payment = Payment(
    referenceId: Uuid,
    paymentCode: string,
    bookingReferenceId: string,
    userReferenceId: string,
    amountRequired: Money,
    amountEntered: Money,
    paymentStatus: PaymentStatus,
    paymentMethod: Option<string>,
    transactionId: Option<string>,
    paymentTime: Option<Time>,
    failureReason: Option<Note>,
    retryCount: int,
    maxRetries: int)

  datatype PaymentRequest = PaymentRequest(
    bookingReferenceId: string,
    userReferenceId: string,
    amountRequired: Money,
    amountEntered: Money,
    paymentMethod: Option<string>)

  /** How far the entered amount may be from the amount due (one paisa). */
  const Tolerance: Money := 0.01

  function Abs(x: real): (r: real)
    ensures r >= 0.0 && (r == x || r == -x)
  {
    if x < 0.0 then -x else x
  }

  /** The amount check of `processPayment`. */
  predicate AmountMatches(entered: Money, required: Money) {
    Abs(entered - required) < Tolerance
  }

  /** The check accepts an amount within the tolerance on either side of the
      amount due, and nothing else. */
  lemma AmountMatchesWindow(entered: Money, required: Money)
    ensures AmountMatches(entered, required) <==> required - Tolerance < entered < required + Tolerance
    ensures AmountMatches(entered, required) == AmountMatches(required, entered)
  {
  }

  // -----------------------------------------------------------------------
  // The payment table

  function PaymentIds(rows: seq<Payment>): seq<Uuid> {
    seq(|rows|, i requires 0 <= i < |rows| => rows[i].referenceId)
  }

  function PaymentCodes(rows: seq<Payment>): seq<string> {
    seq(|rows|, i requires 0 <= i < |rows| => rows[i].paymentCode)
  }

  /** The unique constraints on `reference_id` and `payment_code`. */
  predicate UniquePayments(rows: seq<Payment>) {
    && (forall i, j :: 0 <= i < j < |rows| ==> rows[i].referenceId != rows[j].referenceId)
    && (forall i, j :: 0 <= i < j < |rows| ==> rows[i].paymentCode != rows[j].paymentCode)
  }

  /** No booking has two successful payments on record. */
  predicate OneSuccessPerBooking(rows: seq<Payment>) {
    forall i, j :: 0 <= i < j < |rows| && rows[i].paymentStatus == PaymentStatus.Success && rows[j].paymentStatus == PaymentStatus.Success
      ==> rows[i].bookingReferenceId != rows[j].bookingReferenceId
  }

  /** `findByReferenceId`. */
  function FindPayment(rows: seq<Payment>, id: Uuid): (r: Option<Payment>)
    ensures r.Some? <==> id in PaymentIds(rows)
    ensures r.Some? ==> r.value in rows && r.value.referenceId == id
  {
    if rows == [] then None
    else if rows[0].referenceId == id then
      assert PaymentIds(rows)[0] == id;
      Some(rows[0])
    else
      assert PaymentIds(rows) == [rows[0].referenceId] + PaymentIds(rows[1..]);
      FindPayment(rows[1..], id)
  }

  /** `findSuccessfulPaymentForBooking`: the booking's SUCCESS payment, the
      first on record should there be several. */
  function FindSuccessfulPaymentForBooking(rows: seq<Payment>, bookingId: string): (r: Option<Payment>)
    ensures r.Some? ==> r.value in rows && r.value.bookingReferenceId == bookingId && r.value.paymentStatus == PaymentStatus.Success
    ensures r.None? ==> forall p :: p in rows ==> !(p.bookingReferenceId == bookingId && p.paymentStatus == PaymentStatus.Success)
  {
    if rows == [] then None
    else if rows[0].bookingReferenceId == bookingId && rows[0].paymentStatus == PaymentStatus.Success then Some(rows[0])
    else FindSuccessfulPaymentForBooking(rows[1..], bookingId)
  }

  /** Where no booking has two successful payments, the query's single
      result is THE successful payment of the booking. */
  lemma {:induction false} SuccessfulPaymentUnique(rows: seq<Payment>, p: Payment)
    requires OneSuccessPerBooking(rows)
    requires p in rows && p.paymentStatus == PaymentStatus.Success
    ensures FindSuccessfulPaymentForBooking(rows, p.bookingReferenceId) == Some(p)
  {
    if rows[0] != p {
      assert !(rows[0].bookingReferenceId == p.bookingReferenceId && rows[0].paymentStatus == PaymentStatus.Success) by {
        var k :| 0 <= k < |rows| && rows[k] == p;
        assert k > 0;
      }
      assert OneSuccessPerBooking(rows[1..]) by {
        forall i, j | 0 <= i < j < |rows[1..]| ensures rows[1..][i] == rows[i + 1] && rows[1..][j] == rows[j + 1] {
        }
      }
      assert p in rows[1..] by {
        var k :| 0 <= k < |rows| && rows[k] == p;
        assert rows[1..][k - 1] == p;
      }
      SuccessfulPaymentUnique(rows[1..], p);
    }
  }

  /** `save`: a row whose reference id is on record is overwritten in place,
      any other row is appended. */
  function SavePayment(rows: seq<Payment>, p: Payment): (r: seq<Payment>)
    ensures p.referenceId in PaymentIds(rows) ==>
      |r| == |rows| && forall i :: 0 <= i < |rows| ==> r[i] == if rows[i].referenceId == p.referenceId then p else rows[i]
    ensures p.referenceId !in PaymentIds(rows) ==> r == rows + [p]
  {
    if p.referenceId in PaymentIds(rows) then
      seq(|rows|, i requires 0 <= i < |rows| => if rows[i].referenceId == p.referenceId then p else rows[i])
    else rows + [p]
  }

  /** A refund keeps the table's constraints: the row keeps its id and code,
      and it stops being a successful payment. */
  lemma RefundKeepsConstraints(rows: seq<Payment>, p: Payment, note: Option<Note>)
    requires UniquePayments(rows) && OneSuccessPerBooking(rows)
    requires p in rows
    ensures var q := p.(paymentStatus := Refunded, failureReason := note);
      && UniquePayments(SavePayment(rows, q))
      && OneSuccessPerBooking(SavePayment(rows, q))
      && FindPayment(SavePayment(rows, q), p.referenceId) == Some(q)
  {
    var q := p.(paymentStatus := Refunded, failureReason := note);
    var k :| 0 <= k < |rows| && rows[k] == p;
    assert PaymentIds(rows)[k] == p.referenceId;
    var r := SavePayment(rows, q);
    forall i | 0 <= i < |rows| && i != k ensures rows[i].referenceId != p.referenceId {
      assert PaymentIds(rows)[i] == rows[i].referenceId;
      if i < k { assert rows[i].referenceId != rows[k].referenceId; }
    }
    assert r == rows[k := q];
    FindFirstId(r, k);
  }

  /** Under unique ids the lookup finds the row at the given index. */
  lemma {:induction false} FindFirstId(rows: seq<Payment>, k: int)
    requires 0 <= k < |rows|
    requires forall i :: 0 <= i < |rows| && i != k ==> rows[i].referenceId != rows[k].referenceId
    ensures FindPayment(rows, rows[k].referenceId) == Some(rows[k])
  {
    if k > 0 {
      FindFirstId(rows[1..], k - 1);
    }
  }

  // -----------------------------------------------------------------------
  // The service

  class PaymentService {
    var payments: seq<Payment>

    ghost predicate Valid()
      reads this
    {
      UniquePayments(payments) && OneSuccessPerBooking(payments)
    }

    constructor()
      ensures Valid() && payments == []
    {
      payments := [];
    }

    /** `processPayment`: refuses a booking that already has a successful
        payment; otherwise records a PROCESSING payment and settles it at
        once, SUCCESS when the entered amount matches the amount due and
        FAILED otherwise. The clock, the payment code and the transaction
        id are parameters. */
    method ProcessPayment(req: PaymentRequest, now: Time, paymentId: Uuid, paymentCode: string, transactionId: string)
      returns (r: Result<Payment>)
      requires Valid()
      modifies this
      ensures Valid()
      ensures r.Failure? ==> payments == old(payments)
      ensures FindSuccessfulPaymentForBooking(old(payments), req.bookingReferenceId).Some? ==>
        r == Failure(BusinessRule("Payment already completed for this booking"))
      ensures FindSuccessfulPaymentForBooking(old(payments), req.bookingReferenceId).None? && paymentId in PaymentIds(old(payments)) ==>
        r == Failure(DuplicateKey("payments.reference_id"))
      ensures && FindSuccessfulPaymentForBooking(old(payments), req.bookingReferenceId).None?
              && paymentId !in PaymentIds(old(payments)) && paymentCode in PaymentCodes(old(payments)) ==>
        r == Failure(DuplicateKey("payments.payment_code"))
      ensures r.Success? <==>
        && FindSuccessfulPaymentForBooking(old(payments), req.bookingReferenceId).None?
        && paymentId !in PaymentIds(old(payments)) && paymentCode !in PaymentCodes(old(payments))
      ensures r.Success? ==>
        var p := r.value;
        && payments == old(payments) + [p]
        && p.referenceId == paymentId && p.paymentCode == paymentCode
        && p.bookingReferenceId == req.bookingReferenceId && p.userReferenceId == req.userReferenceId
        && p.amountRequired == req.amountRequired && p.amountEntered == req.amountEntered
        && p.paymentMethod == req.paymentMethod && p.maxRetries == 3
        && (p.paymentStatus == PaymentStatus.Success <==> AmountMatches(req.amountEntered, req.amountRequired))
        && (p.paymentStatus == PaymentStatus.Failed <==> !AmountMatches(req.amountEntered, req.amountRequired))
        && (p.paymentStatus == PaymentStatus.Success ==>
              p.transactionId == Some(transactionId) && p.paymentTime == Some(now)
              && p.failureReason == None && p.retryCount == 0)
        && (p.paymentStatus == PaymentStatus.Failed ==>
              p.transactionId == None && p.paymentTime == None
              && p.failureReason == Some(AmountMismatch(req.amountRequired, req.amountEntered)) && p.retryCount == 1)
    {
      if FindSuccessfulPaymentForBooking(payments, req.bookingReferenceId).Some? {
        return Failure(BusinessRule("Payment already completed for this booking"));
      }
      if paymentId in PaymentIds(payments) {
        return Failure(DuplicateKey("payments.reference_id"));
      }
      if paymentCode in PaymentCodes(payments) {
        return Failure(DuplicateKey("payments.payment_code"));
      }
      var before := payments;
      var p := Payment(paymentId, paymentCode, req.bookingReferenceId, req.userReferenceId, req.amountRequired,
                       req.amountEntered, Processing, req.paymentMethod, None, None, None, 0, 3);
      payments := SavePayment(payments, p);
      if AmountMatches(req.amountEntered, req.amountRequired) {
        p := p.(paymentStatus := PaymentStatus.Success, transactionId := Some(transactionId), paymentTime := Some(now));
      } else {
        p := p.(paymentStatus := PaymentStatus.Failed, failureReason := Some(AmountMismatch(req.amountRequired, req.amountEntered)),
                retryCount := p.retryCount + 1);
      }
      forall i | 0 <= i < |before| ensures before[i].referenceId != paymentId && before[i].paymentCode != paymentCode {
        assert PaymentIds(before)[i] == before[i].referenceId;
        assert PaymentCodes(before)[i] == before[i].paymentCode;
      }
      assert PaymentIds(payments)[|before|] == paymentId;
      payments := SavePayment(payments, p);
      assert payments == before + [p];
      forall i | 0 <= i < |before| && before[i].paymentStatus == PaymentStatus.Success
        ensures before[i].bookingReferenceId != req.bookingReferenceId
      {
        assert before[i] in before;
      }
      r := Result.Success(p);
    }

    /** `initiateRefund`: a successful payment is refunded, in full or in
        part, and marked REFUNDED; the refund is always granted. Since only a
        SUCCESS payment is refunded, a payment is refunded at most once. */
    method InitiateRefund(paymentId: Uuid, refundAmount: Money) returns (r: Result<Payment>)
      requires Valid()
      modifies this
      ensures Valid()
      ensures r.Failure? ==> payments == old(payments)
      ensures FindPayment(old(payments), paymentId).None? ==> r == Failure(ResourceNotFound("Payment not found"))
      ensures FindPayment(old(payments), paymentId).Some? ==>
        var p := FindPayment(old(payments), paymentId).value;
        && (p.paymentStatus != PaymentStatus.Success ==> r == Failure(BusinessRule("Can only refund successful payments")))
        && (p.paymentStatus == PaymentStatus.Success && refundAmount > p.amountRequired ==>
              r == Failure(BusinessRule("Refund amount cannot exceed payment amount")))
        && (p.paymentStatus == PaymentStatus.Success && refundAmount <= p.amountRequired ==>
              && r == Result.Success(p.(paymentStatus := Refunded, failureReason := Some(RefundedAmount(refundAmount))))
              && payments == SavePayment(old(payments), r.value))
      ensures r.Success? ==> FindPayment(payments, paymentId) == Some(r.value) && r.value.paymentStatus == Refunded
    {
      var found := FindPayment(payments, paymentId);
      if found.None? {
        return Failure(ResourceNotFound("Payment not found"));
      }
      var p := found.value;
      if p.paymentStatus != PaymentStatus.Success {
        return Failure(BusinessRule("Can only refund successful payments"));
      }
      if refundAmount > p.amountRequired {
        return Failure(BusinessRule("Refund amount cannot exceed payment amount"));
      }
      RefundKeepsConstraints(payments, p, Some(RefundedAmount(refundAmount)));
      p := p.(paymentStatus := Refunded, failureReason := Some(RefundedAmount(refundAmount)));
      payments := SavePayment(payments, p);
      r := Result.Success(p);
    }
  }
}
