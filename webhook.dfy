/** The gateway's callbacks (PaymentWebhookController): a decision from the
    checked signature and the event to one reconciler action, and the reply. */
module Webhook {
  import opened Common
  import opened Inventory
  import opened Orders
  import opened Payments

  /** The fields the controller reads from a webhook payload. */
  datatype WebhookEvent = WebhookEvent(
    event: string,
    paymentId: string,
    orderId: string,
    errorDescription: Option<string>)

  /** The body of a mock callback; `None` is a JSON null. */
  datatype MockWebhookRequest = MockWebhookRequest(
    razorpayOrderId: string,
    status: Option<string>,
    failureReason: Option<string>)

  /** What a callback does. */
  datatype Action =
    | Reject                                     // bad signature: respond 400
    | Abort(message: string)                     // the signature check raised
    | Acknowledge                                // nothing to do
    | Capture(paymentRef: string, orderRef: string)
    | MarkFailed(orderRef: string, reason: string)

  /** Why a callback ended in a 500 response. */
  datatype Fault = Raised(error: Error) | SignatureError(message: string)

  /** The HTTP reply: 200 with a success body, 400, or 500 with the context
      of the failure. */
  datatype Reply = Accepted(message: string) | Rejected(message: string) | Crashed(context: string, fault: Fault)

  // ---------------------------------------------------------------------
  // The decisions

  /** handlePaymentWebhook's decision: a checked signature first, then the
      event name; "payment.authorized" and unknown events do nothing. */
  function Route(check: SignatureCheck, ev: WebhookEvent): Action {
    match check
    case CheckError(m) => Abort(m)
    case Forged => Reject
    case Genuine =>
      if ev.event == "payment.captured" then Capture(ev.paymentId, ev.orderId)
      else if ev.event == "payment.failed" then MarkFailed(ev.orderId, ev.errorDescription.GetOr("Payment failed"))
      else Acknowledge
  }

  /** A character Java's equalsIgnoreCase takes for the lower-case letter
      `lower` of "success": itself, its upper case, and for 's' also the
      long s (U+017F), whose upper case is 'S'. */
  predicate FoldsTo(c: char, lower: char)
    requires lower in "suce"
  {
    match lower
    case 's' => c == 's' || c == 'S' || c == 'ſ'
    case 'u' => c == 'u' || c == 'U'
    case 'c' => c == 'c' || c == 'C'
    case _ => c == 'e' || c == 'E'
  }

  /** `"success".equalsIgnoreCase(status)`; a null status never matches. */
  predicate IsSuccess(status: Option<string>) {
    status.Some? && |status.value| == 7 &&
    forall i :: 0 <= i < 7 ==> FoldsTo(status.value[i], "success"[i])
  }

  /** handleMockPaymentWebhook's decision; `millis` is the clock reading that
      names the mock payment. */
  function MockRoute(request: MockWebhookRequest, millis: string): Action {
    if IsSuccess(request.status) then Capture("pay_mock_" + millis, request.razorpayOrderId)
    else MarkFailed(request.razorpayOrderId, request.failureReason.GetOr("Mock payment failed"))
  }

  /** The reply once a reconciler call has returned. */
  function Answer(outcome: Outcome, success: string, context: string): Reply {
    match outcome
    case Pass => Accepted(success)
    case Fail(e) => Crashed(context, Raised(e))
  }

  /** Running a capture or failure action against the books. */
  function Perform(b: Books, action: Action, success: string, context: string): Effect<Reply>
    requires action.Capture? || action.MarkFailed?
  {
    var e := if action.Capture? then CaptureOn(b, action.paymentRef, action.orderRef)
             else FailureOn(b, action.orderRef, action.reason);
    Effect(e.books, Answer(e.result, success, context))
  }

  /** handlePaymentWebhook on values. */
  function WebhookOn(b: Books, check: SignatureCheck, ev: WebhookEvent): Effect<Reply> {
    match Route(check, ev)
    case Reject => Effect(b, Rejected("Invalid signature"))
    case Abort(m) => Effect(b, Crashed("Webhook processing failed: ", SignatureError(m)))
    case Acknowledge => Effect(b, Accepted("Webhook processed successfully"))
    case Capture(_, _) => Perform(b, Route(check, ev), "Webhook processed successfully", "Webhook processing failed: ")
    case MarkFailed(_, _) => Perform(b, Route(check, ev), "Webhook processed successfully", "Webhook processing failed: ")
  }

  /** handleMockPaymentWebhook on values. */
  function MockOn(b: Books, request: MockWebhookRequest, millis: string): Effect<Reply> {
    var action := MockRoute(request, millis);
    Perform(b, action,
            if action.Capture? then "Mock payment captured successfully" else "Mock payment failure processed",
            "Mock webhook processing failed: ")
  }

  // ---------------------------------------------------------------------
  // Lemmas

  /** The routing table, both ways: a capture exactly for a genuine
      "payment.captured" with the payload's ids, a failure exactly for a
      genuine "payment.failed" with its description or "Payment failed", a
      400 exactly for a forged signature, and nothing for the rest. */
  lemma RouteTable(check: SignatureCheck, ev: WebhookEvent)
    ensures Route(check, ev) == Capture(ev.paymentId, ev.orderId) <==>
      check == Genuine && ev.event == "payment.captured"
    ensures Route(check, ev).MarkFailed? <==> check == Genuine && ev.event == "payment.failed"
    ensures Route(check, ev).MarkFailed? ==>
      Route(check, ev) == MarkFailed(ev.orderId, if ev.errorDescription.Some? then ev.errorDescription.value else "Payment failed")
    ensures Route(check, ev) == Reject <==> check == Forged
    ensures Route(check, ev) == Acknowledge <==>
      check == Genuine && ev.event != "payment.captured" && ev.event != "payment.failed"
  {
  }

  /** Only a reconciler call changes the books: a forged signature, a failed
      check and an ignored event leave them as they were. */
  lemma WebhookFrame(b: Books, check: SignatureCheck, ev: WebhookEvent)
    ensures !Route(check, ev).Capture? && !Route(check, ev).MarkFailed? ==> WebhookOn(b, check, ev).books == b
    ensures check == Forged ==> WebhookOn(b, check, ev) == Effect(b, Rejected("Invalid signature"))
    ensures check == Genuine && ev.event != "payment.captured" && ev.event != "payment.failed" ==>
      WebhookOn(b, check, ev) == Effect(b, Accepted("Webhook processed successfully"))
  {
  }

  /** Every exception is turned into a 500 reply: the reply is a crash
      exactly when the check raised or the reconciler failed, and the
      failure it carries is the reconciler's. */
  lemma WebhookCrashes(b: Books, check: SignatureCheck, ev: WebhookEvent)
    requires check == Genuine && (ev.event == "payment.captured" || ev.event == "payment.failed")
    ensures var outcome := if ev.event == "payment.captured" then CaptureOn(b, ev.paymentId, ev.orderId).result
                           else FailureOn(b, ev.orderId, ev.errorDescription.GetOr("Payment failed")).result;
      WebhookOn(b, check, ev).result ==
        (if outcome.Pass? then Accepted("Webhook processed successfully")
         else Crashed("Webhook processing failed: ", Raised(outcome.error)))
  {
  }

  /** A genuine "payment.failed" delivered twice succeeds twice and puts
      the order's stock back twice. */
  lemma FailedWebhookReplay(b: Books, ev: WebhookEvent)
    requires Filed(b) && ev.event == "payment.failed" && PaymentByRef(b.payments, ev.orderId).Ok?
    requires var key := PaymentByRef(b.payments, ev.orderId).value;
      key in b.ledger.orders && ItemsListed(b.ledger.orders[key].items, b.ledger.catalog)
    ensures var key := PaymentByRef(b.payments, ev.orderId).value;
      var once := WebhookOn(b, Genuine, ev);
      var twice := WebhookOn(once.books, Genuine, ev);
      once.result == Accepted("Webhook processed successfully") && twice.result == once.result &&
      twice.books.ledger.orders[key].status == Orders.Failed &&
      twice.books.ledger.catalog.Keys == b.ledger.catalog.Keys &&
      forall pid :: pid in b.ledger.catalog ==>
        twice.books.ledger.catalog[pid].stock == b.ledger.catalog[pid].stock + 2 * QtyOf(b.ledger.orders[key].items, pid)
  {
    var reason := ev.errorDescription.GetOr("Payment failed");
    FailureReplayRestoresTwice(b, ev.orderId, reason);
    var key := PaymentByRef(b.payments, ev.orderId).value;
    FailEffect(b.ledger, key);
  }

  /** A genuine "payment.captured" delivered twice leaves the books as the
      first delivery left them. */
  lemma CapturedWebhookReplay(b: Books, ev: WebhookEvent)
    requires ev.event == "payment.captured"
    requires WebhookOn(b, Genuine, ev).result == Accepted("Webhook processed successfully")
    ensures var once := WebhookOn(b, Genuine, ev);
      WebhookOn(once.books, Genuine, ev) == once
  {
    CaptureIdempotent(b, ev.paymentId, ev.orderId);
  }

  /** The mock endpoint captures exactly for a case-insensitive "success",
      under a "pay_mock_" id, and fails the payment for anything else,
      null included. */
  lemma MockTable(request: MockWebhookRequest, millis: string)
    ensures MockRoute(request, millis).Capture? <==> IsSuccess(request.status)
    ensures MockRoute(request, millis).Capture? ==>
      MockRoute(request, millis).paymentRef == "pay_mock_" + millis &&
      MockRoute(request, millis).orderRef == request.razorpayOrderId
    ensures MockRoute(request, millis).MarkFailed? ==>
      MockRoute(request, millis) == MarkFailed(request.razorpayOrderId, request.failureReason.GetOr("Mock payment failed"))
  {
  }

  /** Which statuses count as "success". */
  lemma SuccessSpellings()
    ensures IsSuccess(Some("success")) && IsSuccess(Some("SUCCESS")) && IsSuccess(Some("SuCcEsS"))
    ensures IsSuccess(Some("ſuccess"))
    ensures !IsSuccess(None) && !IsSuccess(Some("")) && !IsSuccess(Some("succes")) && !IsSuccess(Some("successful"))
    ensures !IsSuccess(Some("failed"))
  {
    assert "success"[0] == 's';
    assert "successful"[..7] == "success";
    assert "failed"[0] != 's' && "failed"[0] != 'S' && "failed"[0] != 'ſ';
  }

  // ---------------------------------------------------------------------
  // The controller

  class PaymentWebhookController {
    const payments: PaymentService

    constructor (payments: PaymentService)
      ensures this.payments == payments
    {
      this.payments := payments;
    }

    /** Runs a capture or a failure action through the reconciler. */
    method Dispatch(action: Action, success: string, context: string) returns (reply: Reply)
      requires payments.Valid() && (action.Capture? || action.MarkFailed?)
      modifies payments, payments.orders, payments.orders.products
      ensures payments.Valid()
      ensures Effect(payments.State(), reply) == Perform(old(payments.State()), action, success, context)
    {
      var outcome;
      if action.Capture? {
        outcome := payments.HandlePaymentCapture(action.paymentRef, action.orderRef);
      } else {
        outcome := payments.HandlePaymentFailure(action.orderRef, action.reason);
      }
      reply := Answer(outcome, success, context);
    }

    /** handlePaymentWebhook; `check` is the webhook signature check over
        the raw payload, and `ev` the fields parsed from it. */
    method HandlePaymentWebhook(check: SignatureCheck, ev: WebhookEvent) returns (reply: Reply)
      requires payments.Valid()
      modifies payments, payments.orders, payments.orders.products
      ensures payments.Valid()
      ensures Effect(payments.State(), reply) == WebhookOn(old(payments.State()), check, ev)
    {
      var action := Route(check, ev);
      match action
      case Reject => reply := Rejected("Invalid signature");
      case Abort(m) => reply := Crashed("Webhook processing failed: ", SignatureError(m));
      case Acknowledge => reply := Accepted("Webhook processed successfully");
      case Capture(_, _) =>
        reply := Dispatch(action, "Webhook processed successfully", "Webhook processing failed: ");
      case MarkFailed(_, _) =>
        reply := Dispatch(action, "Webhook processed successfully", "Webhook processing failed: ");
    }

    /** handleMockPaymentWebhook; `millis` stands for the clock reading. */
    method HandleMockPaymentWebhook(request: MockWebhookRequest, millis: string) returns (reply: Reply)
      requires payments.Valid()
      modifies payments, payments.orders, payments.orders.products
      ensures payments.Valid()
      ensures Effect(payments.State(), reply) == MockOn(old(payments.State()), request, millis)
    {
      var action := MockRoute(request, millis);
      var success := if action.Capture? then "Mock payment captured successfully" else "Mock payment failure processed";
      reply := Dispatch(action, success, "Mock webhook processing failed: ");
    }
  }
}
