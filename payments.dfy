/** Payment records and the gateway flow around an order (PaymentService). */
module Payments {
  import opened Common
  import opened Inventory
  import opened Cart
  import opened Orders

  datatype PaymentStatus = Pending | Authorized | Captured | Success | Failed | Refunded

  /** A payment document; `amount` is in minor currency units and
      `razorpayOrderId` is the gateway's order reference. */
  datatype Payment = Payment(
    id: string,
    orderId: OId,
    amount: nat,
    currency: string,
    status: PaymentStatus,
    razorpayOrderId: string,
    razorpayPaymentId: Option<string>,
    razorpaySignature: Option<string>,
    failureReason: Option<string>)

  /** What the gateway answers to "create an order for (amount, currency,
      receipt)": a fresh gateway order reference, or the message of the
      exception it raised. */
  datatype GatewayReply = Minted(orderRef: string) | Refused(message: string)

  /** What the signature check answers for (message, signature): the keyed
      hash matches, it does not, or the check itself raised. */
  datatype SignatureCheck = Genuine | Forged | CheckError(message: string)

  /** The order service's tables and the payments collection, keyed by
      orderId (a unique index). */
  datatype Books = Books(ledger: Ledger, payments: map<OId, Payment>)

  /** The tables after a payment operation, and what it returned. */
  datatype Effect<T> = Effect(books: Books, result: T)

  /** Every payment is filed under its order, names an existing order that
      carries the same gateway reference, and has an id of its own. */
  ghost predicate Filed(b: Books) {
    (forall o :: o in b.payments ==>
       b.payments[o].orderId == o && o in b.ledger.orders &&
       b.ledger.orders[o].razorpayOrderId == Some(b.payments[o].razorpayOrderId)) &&
    (forall o, o' :: o in b.payments && o' in b.payments && b.payments[o].id == b.payments[o'].id ==> o == o')
  }

  // ---------------------------------------------------------------------
  // The finders

  /** The payments whose gateway order reference is `ref`. */
  function Matches(payments: map<OId, Payment>, ref: string): set<OId> {
    set o | o in payments && payments[o].razorpayOrderId == ref
  }

  lemma TwoMembers(s: set<OId>, a: OId, b: OId)
    requires a in s && b in s && a != b
    ensures |s| >= 2
  {
    assert b in s - {a};
    assert |s - {a}| == |s| - 1;
  }

  lemma SingleMember(s: set<OId>)
    requires |s| == 1
    ensures forall a, b :: a in s && b in s ==> a == b
  {
    forall a, b | a in s && b in s
      ensures a == b
    {
      if a != b {
        TwoMembers(s, a, b);
      }
    }
  }

  /** findByRazorpayOrderId, an Optional finder: the one matching payment,
      NotFound when there is none, and the store's non-unique-result
      failure when there are several. */
  function PaymentByRef(payments: map<OId, Payment>, ref: string): (r: Result<OId>)
    ensures r.Ok? <==> |Matches(payments, ref)| == 1
    ensures r.Ok? ==> Matches(payments, ref) == {r.value}
    ensures r == Err(NotFound("Payment")) <==> Matches(payments, ref) == {}
    ensures r == Err(NonUniqueResult("razorpayOrderId")) <==> |Matches(payments, ref)| > 1
  {
    var hits := Matches(payments, ref);
    if hits == {} then Err(NotFound("Payment"))
    else if |hits| > 1 then Err(NonUniqueResult("razorpayOrderId"))
    else
      SingleMember(hits);
      var o :| o in hits;
      Ok(o)
  }

  // ---------------------------------------------------------------------
  // The operations on values

  /** createPayment: the order must exist and be CREATED, and no payment but
      a FAILED one may exist for it; the currency defaults to INR; the
      gateway is asked for an order with receipt "order_<orderId>". A fresh
      PENDING payment is saved and the order takes the gateway reference and
      PENDING_PAYMENT. When a FAILED payment is already filed the insert
      breaks the unique index on orderId. */
  function CreatePaymentOn(b: Books, orderId: OId, amount: nat, currency: Option<string>, newId: string,
                           gateway: (nat, string, string) -> GatewayReply): Effect<Result<Payment>>
  {
    if orderId !in b.ledger.orders then Effect(b, Err(NotFound("Order")))
    else
      var order := b.ledger.orders[orderId];
      if order.status != Created then
        Effect(b, Err(BadRequest("Order is not in CREATED status. Current status: " + StatusName(order.status))))
      else if orderId in b.payments && b.payments[orderId].status != PaymentStatus.Failed then
        Effect(b, Err(BadRequest("Payment already exists for this order")))
      else
        var code := currency.GetOr("INR");
        match gateway(amount, code, "order_" + orderId)
        case Refused(m) => Effect(b, Err(PaymentFailed("Failed to create payment: " + m)))
        case Minted(ref) =>
          if orderId in b.payments then Effect(b, Err(DuplicateKey("orderId")))
          else
            var payment := Payment(newId, orderId, amount, code, Pending, ref, None, None, None);
            var placed := order.(razorpayOrderId := Some(ref), status := PendingPayment);
            Effect(Books(b.ledger.(orders := b.ledger.orders[orderId := placed]), b.payments[orderId := payment]),
                   Ok(payment))
  }

  /** verifyPayment: the payment is found by its gateway order reference and
      the signature checked over "<orderRef>|<paymentRef>". A forged
      signature saves the payment as FAILED and fails the order (restoring
      its stock) before reporting the failure; a genuine one records both
      references and SUCCESS and marks the order PAID. */
  function VerifyOn(b: Books, orderRef: string, paymentRef: string, signature: string,
                    check: (string, string) -> SignatureCheck): Effect<Result<Payment>>
  {
    match PaymentByRef(b.payments, orderRef)
    case Err(e) => Effect(b, Err(e))
    case Ok(key) =>
      var payment := b.payments[key];
      match check(orderRef + "|" + paymentRef, signature)
      case CheckError(m) => Effect(b, Err(PaymentFailed("Failed to verify payment: " + m)))
      case Forged =>
        var failed := payment.(status := PaymentStatus.Failed, failureReason := Some("Signature verification failed"));
        var step := FailOn(b.ledger, payment.orderId);
        Effect(Books(step.ledger, b.payments[key := failed]),
               Err(if step.result.Fail? then step.result.error else PaymentFailed("Payment signature verification failed")))
      case Genuine =>
        var paid := payment.(razorpayPaymentId := Some(paymentRef), razorpaySignature := Some(signature), status := Success);
        var step := PaidOn(b.ledger, payment.orderId);
        Effect(Books(step.ledger, b.payments[key := paid]),
               if step.result.Fail? then Err(step.result.error) else Ok(paid))
  }

  /** handlePaymentCapture: records the gateway payment reference and
      CAPTURED, then marks the order PAID, whatever either status was. */
  function CaptureOn(b: Books, paymentRef: string, orderRef: string): Effect<Outcome> {
    match PaymentByRef(b.payments, orderRef)
    case Err(e) => Effect(b, Fail(e))
    case Ok(key) =>
      var payment := b.payments[key];
      var captured := payment.(razorpayPaymentId := Some(paymentRef), status := Captured);
      var step := PaidOn(b.ledger, payment.orderId);
      Effect(Books(step.ledger, b.payments[key := captured]), step.result)
  }

  /** handlePaymentFailure: records FAILED and the reason, then fails the
      order, whatever either status was. */
  function FailureOn(b: Books, orderRef: string, reason: string): Effect<Outcome> {
    match PaymentByRef(b.payments, orderRef)
    case Err(e) => Effect(b, Fail(e))
    case Ok(key) =>
      var payment := b.payments[key];
      var failed := payment.(status := PaymentStatus.Failed, failureReason := Some(reason));
      var step := FailOn(b.ledger, payment.orderId);
      Effect(Books(step.ledger, b.payments[key := failed]), step.result)
  }

  // ---------------------------------------------------------------------
  // Lemmas

  /** Rewriting a found payment without touching its gateway reference
      leaves the finder's answer as it was. */
  lemma ByRefStable(payments: map<OId, Payment>, ref: string, key: OId, p: Payment)
    requires PaymentByRef(payments, ref) == Ok(key)
    requires p.razorpayOrderId == payments[key].razorpayOrderId
    ensures PaymentByRef(payments[key := p], ref) == Ok(key)
  {
    assert Matches(payments[key := p], ref) == Matches(payments, ref);
  }

  /** Under the filing invariant a found payment is filed under its own
      order, and that order carries the same gateway reference. */
  lemma ByRefFiled(b: Books, ref: string)
    requires Filed(b) && PaymentByRef(b.payments, ref).Ok?
    ensures var key := PaymentByRef(b.payments, ref).value;
      key in b.payments && b.payments[key].orderId == key && key in b.ledger.orders &&
      b.ledger.orders[key].razorpayOrderId == Some(ref)
  {
    var key := PaymentByRef(b.payments, ref).value;
    assert key in Matches(b.payments, ref);
  }

  /** Orders that keep their gateway references, and a payment rewritten in
      place with the same id, order and reference, keep the books filed. */
  lemma FiledKept(b: Books, ledger: Ledger, key: OId, p: Payment)
    requires Filed(b) && RefsKept(b.ledger.orders, ledger.orders)
    requires key in b.payments
    requires p.id == b.payments[key].id && p.orderId == b.payments[key].orderId
    requires p.razorpayOrderId == b.payments[key].razorpayOrderId
    ensures Filed(Books(ledger, b.payments[key := p]))
  {
  }

  /** createPayment succeeds exactly when the order exists, is CREATED, has
      no payment filed and the gateway mints a reference; then one PENDING
      payment is added under the order, the order takes the reference and
      PENDING_PAYMENT, and stock and carts are untouched. Every failure
      leaves the books as they were. */
  lemma CreatePaymentIff(b: Books, orderId: OId, amount: nat, currency: Option<string>, newId: string,
                         gateway: (nat, string, string) -> GatewayReply)
    ensures var e := CreatePaymentOn(b, orderId, amount, currency, newId, gateway);
      e.result.Ok? <==>
        orderId in b.ledger.orders && b.ledger.orders[orderId].status == Created && orderId !in b.payments &&
        gateway(amount, currency.GetOr("INR"), "order_" + orderId).Minted?
    ensures var e := CreatePaymentOn(b, orderId, amount, currency, newId, gateway);
      e.result.Err? ==> e.books == b
    ensures var e := CreatePaymentOn(b, orderId, amount, currency, newId, gateway);
      orderId !in b.ledger.orders ==> e.result == Err(NotFound("Order"))
    ensures var e := CreatePaymentOn(b, orderId, amount, currency, newId, gateway);
      orderId in b.ledger.orders && b.ledger.orders[orderId].status != Created ==>
        e.result == Err(BadRequest("Order is not in CREATED status. Current status: " +
                                   StatusName(b.ledger.orders[orderId].status)))
    ensures var e := CreatePaymentOn(b, orderId, amount, currency, newId, gateway);
      orderId in b.ledger.orders && b.ledger.orders[orderId].status == Created &&
      orderId in b.payments && b.payments[orderId].status != PaymentStatus.Failed ==>
        e.result == Err(BadRequest("Payment already exists for this order"))
    ensures var e := CreatePaymentOn(b, orderId, amount, currency, newId, gateway);
      var reply := gateway(amount, currency.GetOr("INR"), "order_" + orderId);
      orderId in b.ledger.orders && b.ledger.orders[orderId].status == Created &&
      (orderId in b.payments ==> b.payments[orderId].status == PaymentStatus.Failed) ==>
        (reply.Refused? ==> e.result == Err(PaymentFailed("Failed to create payment: " + reply.message))) &&
        (reply.Minted? && orderId in b.payments ==> e.result == Err(DuplicateKey("orderId")))
    ensures var e := CreatePaymentOn(b, orderId, amount, currency, newId, gateway);
      e.result.Ok? ==>
        var ref := gateway(amount, currency.GetOr("INR"), "order_" + orderId).orderRef;
        var code := currency.GetOr("INR");
        e.result.value == Payment(newId, orderId, amount, code, Pending, ref, None, None, None) &&
        e.books.payments == b.payments[orderId := e.result.value] &&
        e.books.ledger.orders ==
          b.ledger.orders[orderId := b.ledger.orders[orderId].(razorpayOrderId := Some(ref), status := PendingPayment)] &&
        e.books.ledger.catalog == b.ledger.catalog && e.books.ledger.cart == b.ledger.cart
  {
  }

  /** A successful createPayment keeps the books filed as long as the new
      payment id is fresh. */
  lemma CreatePaymentFiled(b: Books, orderId: OId, amount: nat, currency: Option<string>, newId: string,
                           gateway: (nat, string, string) -> GatewayReply)
    requires Filed(b) && forall o :: o in b.payments ==> b.payments[o].id != newId
    ensures Filed(CreatePaymentOn(b, orderId, amount, currency, newId, gateway).books)
  {
  }

  /** A forged signature never yields a successful payment: the payment is
      saved FAILED with its reason, the order is FAILED and its stock is
      back, and the caller sees the verification failure. */
  lemma ForgedSignatureFails(b: Books, orderRef: string, paymentRef: string, signature: string,
                             check: (string, string) -> SignatureCheck)
    requires Filed(b) && PaymentByRef(b.payments, orderRef).Ok?
    requires check(orderRef + "|" + paymentRef, signature) == Forged
    requires var key := PaymentByRef(b.payments, orderRef).value;
      key in b.ledger.orders && ItemsListed(b.ledger.orders[key].items, b.ledger.catalog)
    ensures var key := PaymentByRef(b.payments, orderRef).value;
      var e := VerifyOn(b, orderRef, paymentRef, signature, check);
      e.result == Err(PaymentFailed("Payment signature verification failed")) &&
      e.books.payments[key].status == PaymentStatus.Failed &&
      e.books.payments[key].failureReason == Some("Signature verification failed") &&
      e.books.ledger.orders[key].status == Orders.Failed &&
      e.books.ledger.catalog.Keys == b.ledger.catalog.Keys &&
      forall pid :: pid in b.ledger.catalog ==>
        e.books.ledger.catalog[pid].stock == b.ledger.catalog[pid].stock + QtyOf(b.ledger.orders[key].items, pid)
  {
    ByRefFiled(b, orderRef);
    var key := PaymentByRef(b.payments, orderRef).value;
    FailEffect(b.ledger, key);
  }

  /** A genuine signature records both gateway references and SUCCESS,
      marks the order PAID, and moves no stock. */
  lemma GenuineSignaturePays(b: Books, orderRef: string, paymentRef: string, signature: string,
                             check: (string, string) -> SignatureCheck)
    requires Filed(b) && PaymentByRef(b.payments, orderRef).Ok?
    requires check(orderRef + "|" + paymentRef, signature) == Genuine
    ensures var key := PaymentByRef(b.payments, orderRef).value;
      var e := VerifyOn(b, orderRef, paymentRef, signature, check);
      e.result.Ok? && e.result.value == e.books.payments[key] &&
      e.result.value.status == Success &&
      e.result.value.razorpayPaymentId == Some(paymentRef) &&
      e.result.value.razorpaySignature == Some(signature) &&
      e.books.ledger.orders[key].status == Paid &&
      e.books.ledger.catalog == b.ledger.catalog && e.books.ledger.cart == b.ledger.cart
  {
    ByRefFiled(b, orderRef);
  }

  /** A replayed capture webhook changes nothing the first one did not. */
  lemma CaptureIdempotent(b: Books, paymentRef: string, orderRef: string)
    requires CaptureOn(b, paymentRef, orderRef).result == Pass
    ensures var once := CaptureOn(b, paymentRef, orderRef);
      CaptureOn(once.books, paymentRef, orderRef) == once
  {
    var key := PaymentByRef(b.payments, orderRef).value;
    var payment := b.payments[key];
    ByRefStable(b.payments, orderRef, key, payment.(razorpayPaymentId := Some(paymentRef), status := Captured));
  }

  /** A replayed failure webhook fails the order again and restores its
      stock a second time. */
  lemma FailureReplayRestoresTwice(b: Books, orderRef: string, reason: string)
    requires Filed(b) && PaymentByRef(b.payments, orderRef).Ok?
    requires var key := PaymentByRef(b.payments, orderRef).value;
      key in b.ledger.orders && ItemsListed(b.ledger.orders[key].items, b.ledger.catalog)
    ensures var key := PaymentByRef(b.payments, orderRef).value;
      var once := FailureOn(b, orderRef, reason);
      var twice := FailureOn(once.books, orderRef, reason);
      twice.result == Pass && twice.books.ledger.orders[key].status == Orders.Failed &&
      twice.books.ledger.catalog.Keys == b.ledger.catalog.Keys &&
      forall pid :: pid in b.ledger.catalog ==>
        twice.books.ledger.catalog[pid].stock == b.ledger.catalog[pid].stock + 2 * QtyOf(b.ledger.orders[key].items, pid)
  {
    ByRefFiled(b, orderRef);
    var key := PaymentByRef(b.payments, orderRef).value;
    var payment := b.payments[key];
    ByRefStable(b.payments, orderRef, key, payment.(status := PaymentStatus.Failed, failureReason := Some(reason)));
    FailTwice(b.ledger, key);
  }

  /** A failure webhook that arrives after a verified payment still fails
      the PAID order and restores its stock. */
  lemma FailureAfterVerified(b: Books, orderRef: string, paymentRef: string, signature: string,
                             check: (string, string) -> SignatureCheck, reason: string)
    requires Filed(b) && PaymentByRef(b.payments, orderRef).Ok?
    requires check(orderRef + "|" + paymentRef, signature) == Genuine
    requires var key := PaymentByRef(b.payments, orderRef).value;
      key in b.ledger.orders && ItemsListed(b.ledger.orders[key].items, b.ledger.catalog)
    ensures var key := PaymentByRef(b.payments, orderRef).value;
      var paid := VerifyOn(b, orderRef, paymentRef, signature, check);
      var late := FailureOn(paid.books, orderRef, reason);
      paid.books.ledger.orders[key].status == Paid &&
      late.result == Pass && late.books.ledger.orders[key].status == Orders.Failed &&
      late.books.payments[key].status == PaymentStatus.Failed &&
      late.books.ledger.catalog.Keys == b.ledger.catalog.Keys &&
      forall pid :: pid in b.ledger.catalog ==>
        late.books.ledger.catalog[pid].stock == b.ledger.catalog[pid].stock + QtyOf(b.ledger.orders[key].items, pid)
  {
    ByRefFiled(b, orderRef);
    var key := PaymentByRef(b.payments, orderRef).value;
    var payment := b.payments[key];
    ByRefStable(b.payments, orderRef, key,
      payment.(razorpayPaymentId := Some(paymentRef), razorpaySignature := Some(signature), status := Success));
    var paid := VerifyOn(b, orderRef, paymentRef, signature, check);
    assert paid.books.ledger.orders[key].items == b.ledger.orders[key].items;
    FailEffect(paid.books.ledger, key);
  }

  /** A capture that arrives after a failure marks the order PAID again,
      while the stock the failure restored stays restored. */
  lemma CaptureAfterFailure(b: Books, orderRef: string, reason: string, paymentRef: string)
    requires Filed(b) && PaymentByRef(b.payments, orderRef).Ok?
    requires var key := PaymentByRef(b.payments, orderRef).value;
      key in b.ledger.orders && ItemsListed(b.ledger.orders[key].items, b.ledger.catalog)
    ensures var key := PaymentByRef(b.payments, orderRef).value;
      var failed := FailureOn(b, orderRef, reason);
      var late := CaptureOn(failed.books, paymentRef, orderRef);
      late.result == Pass && late.books.ledger.orders[key].status == Paid &&
      late.books.payments[key].status == Captured &&
      late.books.ledger.catalog == failed.books.ledger.catalog &&
      late.books.ledger.catalog.Keys == b.ledger.catalog.Keys &&
      forall pid :: pid in b.ledger.catalog ==>
        late.books.ledger.catalog[pid].stock == b.ledger.catalog[pid].stock + QtyOf(b.ledger.orders[key].items, pid)
  {
    ByRefFiled(b, orderRef);
    var key := PaymentByRef(b.payments, orderRef).value;
    var payment := b.payments[key];
    ByRefStable(b.payments, orderRef, key, payment.(status := PaymentStatus.Failed, failureReason := Some(reason)));
    FailEffect(b.ledger, key);
  }

  // ---------------------------------------------------------------------
  // The service

  class PaymentService {
    var payments: map<OId, Payment>
    const orders: OrderService

    ghost predicate Valid()
      reads this, orders, orders.carts, orders.products
    {
      orders.Valid() && Filed(State())
    }

    constructor (orders: OrderService)
      requires orders.Valid()
      ensures Valid() && this.orders == orders && payments == map[]
    {
      this.orders := orders;
      payments := map[];
    }

    /** The order service's tables and the payments as values. */
    function State(): Books
      reads this, orders, orders.carts, orders.products
    {
      Books(orders.State(), payments)
    }

    /** findByOrderId. */
    function FindByOrderId(orderId: OId): (r: Option<Payment>)
      reads this
      ensures r.Some? <==> orderId in payments
      ensures r.Some? ==> r.value == payments[orderId]
    {
      if orderId in payments then Some(payments[orderId]) else None
    }

    /** getPaymentByOrderId. */
    function GetPaymentByOrderId(orderId: OId): (r: Result<Payment>)
      reads this
      ensures r.Ok? <==> orderId in payments
      ensures r.Ok? ==> r.value == payments[orderId]
      ensures r.Err? ==> r.error == NotFound("Payment")
    {
      match FindByOrderId(orderId)
      case Some(p) => Ok(p)
      case None => Err(NotFound("Payment"))
    }

    /** getPaymentById: payment ids are unique, so the match is the one
        payment carrying `id`. */
    function GetPaymentById(id: string): (r: Result<Payment>)
      requires Valid()
      reads this, orders, orders.carts, orders.products
      ensures r.Ok? <==> exists o :: o in payments && payments[o].id == id
      ensures r.Ok? ==> r.value.id == id && r.value in payments.Values
      ensures r.Err? ==> r.error == NotFound("Payment")
    {
      if exists o :: o in payments && payments[o].id == id then
        var o :| o in payments && payments[o].id == id;
        Ok(payments[o])
      else Err(NotFound("Payment"))
    }

    /** findPaymentByRazorpayOrderId. */
    function FindPaymentByRazorpayOrderId(ref: string): (r: Result<Payment>)
      reads this
      ensures r.Ok? <==> |Matches(payments, ref)| == 1
      ensures r.Ok? ==> r.value in payments.Values && r.value.razorpayOrderId == ref
      ensures r.Err? ==> r.error == NotFound("Payment") || r.error == NonUniqueResult("razorpayOrderId")
    {
      match PaymentByRef(payments, ref)
      case Ok(key) => assert key in Matches(payments, ref); Ok(payments[key])
      case Err(e) => Err(e)
    }

    /** createPayment; `newId` is the id the store assigns on insert. */
    method CreatePayment(orderId: OId, amount: nat, currency: Option<string>, newId: string,
                         gateway: (nat, string, string) -> GatewayReply) returns (r: Result<Payment>)
      requires Valid() && forall o :: o in payments ==> payments[o].id != newId
      modifies this, orders
      ensures Valid()
      ensures Effect(State(), r) == CreatePaymentOn(old(State()), orderId, amount, currency, newId, gateway)
    {
      CreatePaymentFiled(State(), orderId, amount, currency, newId, gateway);
      var found := orders.FindOrderById(orderId);
      if found.Err? {
        return Err(found.error);
      }
      var order := found.value;
      if order.status != Created {
        return Err(BadRequest("Order is not in CREATED status. Current status: " + StatusName(order.status)));
      }
      var existing := FindByOrderId(orderId);
      if existing.Some? && existing.value.status != PaymentStatus.Failed {
        return Err(BadRequest("Payment already exists for this order"));
      }
      var code := currency.GetOr("INR");
      var reply := gateway(amount, code, "order_" + orderId);
      if reply.Refused? {
        return Err(PaymentFailed("Failed to create payment: " + reply.message));
      }
      if existing.Some? {
        // the insert collides with the FAILED payment on the orderId index
        return Err(DuplicateKey("orderId"));
      }
      var payment := Payment(newId, orderId, amount, code, Pending, reply.orderRef, None, None, None);
      payments := payments[orderId := payment];
      var updated := orders.UpdateRazorpayOrderId(orderId, reply.orderRef);
      r := Ok(payment);
    }

    /** verifyPayment. */
    method VerifyPayment(orderRef: string, paymentRef: string, signature: string,
                         check: (string, string) -> SignatureCheck) returns (r: Result<Payment>)
      requires Valid()
      modifies this, orders, orders.products
      ensures Valid()
      ensures Effect(State(), r) == VerifyOn(old(State()), orderRef, paymentRef, signature, check)
    {
      var hit := PaymentByRef(payments, orderRef);
      if hit.Err? {
        return Err(hit.error);
      }
      var verdict := check(orderRef + "|" + paymentRef, signature);
      if verdict.CheckError? {
        return Err(PaymentFailed("Failed to verify payment: " + verdict.message));
      }
      if verdict.Forged? {
        r := RejectSignature(orderRef, paymentRef, signature, check, hit.value);
      } else {
        r := AcceptSignature(orderRef, paymentRef, signature, check, hit.value);
      }
    }

    /** verifyPayment past a forged signature: the payment is saved FAILED
        and the order failed before the verification failure is raised. */
    method RejectSignature(orderRef: string, paymentRef: string, signature: string,
                           check: (string, string) -> SignatureCheck, key: OId) returns (r: Result<Payment>)
      requires Valid() && PaymentByRef(payments, orderRef) == Ok(key)
      requires check(orderRef + "|" + paymentRef, signature) == Forged
      modifies this, orders, orders.products
      ensures Valid()
      ensures Effect(State(), r) == VerifyOn(old(State()), orderRef, paymentRef, signature, check)
    {
      ByRefFiled(State(), orderRef);
      ghost var before := State();
      var payment := payments[key];
      var failed := payment.(status := PaymentStatus.Failed, failureReason := Some("Signature verification failed"));
      payments := payments[key := failed];
      var marked := orders.MarkOrderAsFailed(payment.orderId);
      FiledKept(before, orders.State(), key, failed);
      if marked.Fail? {
        return Err(marked.error);
      }
      r := Err(PaymentFailed("Payment signature verification failed"));
    }

    /** verifyPayment past a genuine signature: both references and SUCCESS
        are saved and the order is marked PAID. */
    method AcceptSignature(orderRef: string, paymentRef: string, signature: string,
                           check: (string, string) -> SignatureCheck, key: OId) returns (r: Result<Payment>)
      requires Valid() && PaymentByRef(payments, orderRef) == Ok(key)
      requires check(orderRef + "|" + paymentRef, signature) == Genuine
      modifies this, orders
      ensures Valid()
      ensures Effect(State(), r) == VerifyOn(old(State()), orderRef, paymentRef, signature, check)
    {
      ByRefFiled(State(), orderRef);
      ghost var before := State();
      var payment := payments[key];
      var paid := payment.(razorpayPaymentId := Some(paymentRef), razorpaySignature := Some(signature), status := Success);
      payments := payments[key := paid];
      // the order exists (filing invariant), so marking it cannot fail
      var marked := orders.MarkOrderAsPaid(payment.orderId);
      FiledKept(before, orders.State(), key, paid);
      r := Ok(paid);
    }

    /** handlePaymentCapture. */
    method HandlePaymentCapture(paymentRef: string, orderRef: string) returns (r: Outcome)
      requires Valid()
      modifies this, orders
      ensures Valid()
      ensures Effect(State(), r) == CaptureOn(old(State()), paymentRef, orderRef)
    {
      var hit := PaymentByRef(payments, orderRef);
      if hit.Err? {
        return Fail(hit.error);
      }
      ByRefFiled(State(), orderRef);
      var key := hit.value;
      var payment := payments[key];
      ghost var before := State();
      var captured := payment.(razorpayPaymentId := Some(paymentRef), status := Captured);
      payments := payments[key := captured];
      r := orders.MarkOrderAsPaid(payment.orderId);
      FiledKept(before, orders.State(), key, captured);
    }

    /** handlePaymentFailure. */
    method HandlePaymentFailure(orderRef: string, reason: string) returns (r: Outcome)
      requires Valid()
      modifies this, orders, orders.products
      ensures Valid()
      ensures Effect(State(), r) == FailureOn(old(State()), orderRef, reason)
    {
      var hit := PaymentByRef(payments, orderRef);
      if hit.Err? {
        return Fail(hit.error);
      }
      ByRefFiled(State(), orderRef);
      var key := hit.value;
      var payment := payments[key];
      ghost var before := State();
      var failed := payment.(status := PaymentStatus.Failed, failureReason := Some(reason));
      payments := payments[key := failed];
      r := orders.MarkOrderAsFailed(payment.orderId);
      FiledKept(before, orders.State(), key, failed);
    }
  }
}
