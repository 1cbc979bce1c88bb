/** What the payment gateway knows, and what a delivery of one of its events is answered with. */
module Payments {
  import opened Wrappers
  import opened Errors

  datatype EventKind = PaymentSucceeded | PaymentFailed

  /** A gateway notification; its id is what recognises a repeat. */
  datatype PaymentEvent = PaymentEvent(id: nat, kind: EventKind, intentId: nat)

  /** A payment intent at the gateway, its booking id travelling as metadata. */
  datatype Intent = Intent(bookingId: nat, amount: int, paid: bool)

  /** How a remote call ended: done and reported, done but reported as failed, or not done. */
  datatype Fate = Applied | AckLost | NotApplied

  /** The status a delivery is answered with: these two refusals are settled, anything else is retried. */
  function StatusOf(result: Option<Error>): nat {
    match result
    case None => 204
    case Some(HoldLapsed) => 204
    case Some(BookingNotFound) => 204
    case Some(_) => 500
  }
}
