# Order and payment lifecycle of an e-commerce backend, in Dafny

This project models the service layer of a Spring Boot shop backed by MongoDB.
It covers six services:

- **ProductService**: the catalog and its stock counters.
- **CartService**: per-user carts keyed by (user, product).
- **OrderService**: checkout, cancellation and the payment-driven order transitions.
- **PaymentService**: the reconciler that talks to the Razorpay gateway.
- **PaymentWebhookController**: routes the gateway's callbacks to the reconciler.
- **UserService**: a small user registry.

Each service is a Dafny `class`. Its tables are fields (`map`s, and the cart a
`seq` in collection order), and a `Valid()` predicate states the table's
invariants. Services reach one another through `const` fields, which mirrors
constructor injection.

The multi-table operations are specified by functions on values:

- the order ledger: `Orders.Checkout`, `Orders.CancelOn`, `Orders.FailOn` and `Orders.PaidOn` on a `Ledger`;
- the reconciler: `Payments.CreatePaymentOn`, `VerifyOn`, `CaptureOn` and `FailureOn` on `Books`;
- the controller: `Webhook.WebhookOn` and `MockOn`.

Each method is proved to take the tables from `old(State())` to exactly what
its function says. The properties of the lifecycle are then lemmas about
those functions. Examples:

- checkout takes the stock a cancel gives back;
- cancelling twice, or replaying a failure webhook, restores stock twice;
- a replayed capture is a no-op;
- a forged signature never yields a successful payment.

Modelling conventions:

- **Money:** prices and amounts are natural numbers in minor currency units.
- **Ids:** the ids the store mints (ObjectIds) are parameters, with a freshness precondition.
- **Gateway:** the Razorpay order creation is a function parameter `(amount, currency, receipt) -> GatewayReply`.
- **Signature checks:** both the payment check and the webhook check are a parameter, or a value of type `SignatureCheck`.
- **Webhook payload:** the fields the controller reads from it are inputs.
- **Exceptions:** the services raise them, and they become `Result`/`Outcome` values carrying an `Error`.
- **No transactions:** writes made before an exception persist. When markOrderAsFailed meets a deleted product part-way through its restore loop, the stock restored so far stays and the order keeps its status.

Behaviours of the code that a reader might not expect, each stated as the code has it:

- **markOrderAsFailed has no status guard** (OrderService.java:166-177). It sets FAILED and restores every line's stock from any status, PAID and CANCELLED included (`Orders.FailEffect`, `Payments.FailureAfterVerified`).
- **The failure webhook is not idempotent.** handlePaymentFailure (PaymentService.java:177-188) calls markOrderAsFailed on every delivery, so a replay restores stock a second time (`Payments.FailureReplayRestoresTwice`, `Webhook.FailedWebhookReplay`). The capture webhook is idempotent (`Payments.CaptureIdempotent`).
- **cancelOrder accepts a CANCELLED order.** Its guard (OrderService.java:138-143) refuses only PAID, PROCESSING, SHIPPED and DELIVERED. A CANCELLED or FAILED order is cancelled again, and its stock is restored again (`Orders.CancelTwice`, `Orders.CancelAfterFail`).
- **A FAILED payment is never re-created.** The duplicate check (PaymentService.java:53-57) lets a FAILED payment through, but the status guard before it (PaymentService.java:47-49) demands a CREATED order. Every order that has a payment has already left CREATED: updateRazorpayOrderId sets PENDING_PAYMENT (OrderService.java:125). Only updateOrderStatus (OrderService.java:108-117) could set CREATED again, and no controller calls it. So a re-creation attempt stops at the status guard with BadRequest, before the gateway is called. Only after `updateOrderStatus(id, CREATED)` does it reach the gateway. There the new document breaks the unique index on `orderId` and the call fails with a duplicate key (`Payments.CreatePaymentIff`, the `DuplicateKey` branch of `Payments.CreatePaymentOn`).
- **The failure reason on a forged signature** is "Signature verification failed", with a capital S (PaymentService.java:118).
- **The webhook signature is checked in the controller** (PaymentWebhookController.java:38-45).

## Model

| member | source | states |
|---|---|---|
| Inventory.Adjusted | src/main/java/com/ecommerce/service/ProductService.java:120-124 | the stock of `id` becomes max(0, stock + delta); every other product and every other field of `id` is unchanged |
| Inventory.MergeNoChange | src/main/java/com/ecommerce/service/ProductService.java:76-96 | an update that supplies no field leaves the product unchanged |
| Inventory.MergeIdempotent | src/main/java/com/ecommerce/service/ProductService.java:76-96 | applying an update twice equals applying it once; the id is never touched |
| Inventory.MergeLaterWins | src/main/java/com/ecommerce/service/ProductService.java:76-96 | a second update overrides exactly the fields it supplies: each of the seven fields takes the second update's value when supplied and keeps the first merge's otherwise; the id is kept |
| Inventory.ProductService.CreateProduct | src/main/java/com/ecommerce/service/ProductService.java:23-40 | the product is stored under the fresh id with the request's fields and active = true |
| Inventory.ProductService.FindProductById | src/main/java/com/ecommerce/service/ProductService.java:115-118 | the stored product if present, NotFound("Product") otherwise |
| Inventory.ProductService.HasEnoughStock | src/main/java/com/ecommerce/service/ProductService.java:128-131 | NotFound for an unknown id, otherwise true iff stock >= required; reads only |
| Inventory.ProductService.UpdateProduct | src/main/java/com/ecommerce/service/ProductService.java:71-102 | NotFound and no change for an unknown id; otherwise the stored product becomes the merge of the supplied fields |
| Inventory.ProductService.DeleteProduct | src/main/java/com/ecommerce/service/ProductService.java:104-113 | fails NotFound iff the id is absent; otherwise exactly that id leaves the table |
| Inventory.ProductService.UpdateStock | src/main/java/com/ecommerce/service/ProductService.java:120-126 | fails NotFound with no change iff the id is absent; otherwise the catalog becomes `Adjusted(old, id, delta)` |
| Cart.IndexOf | src/main/java/com/ecommerce/service/CartService.java:44-48 | the position of the entry for (user, product) when one exists, and none only when no entry matches |
| Cart.ItemsOfMembers | src/main/java/com/ecommerce/service/CartService.java:143-145 | findByUserId returns exactly the entries of the user |
| Cart.ItemsOfDistinct | src/main/java/com/ecommerce/model/CartItem.java:21 | under the (user, product) unique index a user's entries name distinct products |
| Cart.DropSomeMembers | src/main/java/com/ecommerce/service/CartService.java:125-134 | deleting (user, products) removes exactly those entries and keeps all others |
| Cart.ClearCartIsolated | src/main/java/com/ecommerce/service/CartService.java:137-141 | clearCart leaves the user no entries and every other user's entries, in order, as they were |
| Cart.PruneOrphans | src/main/java/com/ecommerce/service/CartService.java:82-93 | after getCart's deletions the user's remaining entries are exactly those whose product exists, and no other entry is touched |
| Cart.FirstProblemPass | src/main/java/com/ecommerce/service/CartService.java:158-167 | the entry loop passes iff every entry's product exists with at least the entry's quantity in stock |
| Cart.CheckoutPassIff | src/main/java/com/ecommerce/service/CartService.java:151-168 | validation passes iff the cart is non-empty and every entry is in stock |
| Cart.FirstProblemKinds | src/main/java/com/ecommerce/service/CartService.java:158-167 | the loop never reports BadRequest; an InsufficientStock names a short entry with its quantity and the product's stock |
| Cart.CheckoutFailureKinds | src/main/java/com/ecommerce/service/CartService.java:151-168 | BadRequest iff the cart is empty; with every product present, InsufficientStock iff some entry exceeds its stock |
| Cart.CartService.AddToCart | src/main/java/com/ecommerce/service/CartService.java:31-72 | NotFound or InsufficientStock (requested quantity, before any merge) with no change; an existing entry takes old + requested, checked again and never duplicated; otherwise one entry is appended |
| Cart.CartService.GetCart | src/main/java/com/ecommerce/service/CartService.java:74-102 | deletes the user's entries whose product is gone; reports the rest with their products; totalItems is the sum of their quantities and totalAmount the sum of the line subtotals |
| Cart.CartService.UpdateCartItem | src/main/java/com/ecommerce/service/CartService.java:104-122 | NotFound without an entry, InsufficientStock when stock < quantity, else the quantity is replaced |
| Cart.CartService.RemoveFromCart | src/main/java/com/ecommerce/service/CartService.java:125-134 | fails NotFound iff there is no entry; otherwise deletes exactly that pair |
| Cart.CartService.ClearCart | src/main/java/com/ecommerce/service/CartService.java:137-141 | the cart becomes the old cart without the user's entries (see ClearCartIsolated) |
| Cart.CartService.GetCartItems | src/main/java/com/ecommerce/service/CartService.java:143-145 | exactly the user's entries |
| Cart.CartService.IsCartEmpty | src/main/java/com/ecommerce/service/CartService.java:147-149 | true iff no entry belongs to the user |
| Cart.CartService.ValidateCartForCheckout | src/main/java/com/ecommerce/service/CartService.java:151-168 | changes nothing; its verdict is the empty-cart check followed by the first failing entry |
| Orders.ConsumeStock | src/main/java/com/ecommerce/service/OrderService.java:59 | taking the stock entry by entry keeps the catalog's products |
| Orders.Checkout | src/main/java/com/ecommerce/service/OrderService.java:31-78 | a fresh order id keeps every existing order's gateway reference |
| Orders.CancelOn | src/main/java/com/ecommerce/service/OrderService.java:132-155 | cancelling keeps every order and its gateway reference |
| Orders.FailOn | src/main/java/com/ecommerce/service/OrderService.java:166-177 | failing keeps every order and its gateway reference |
| Orders.PaidOn | src/main/java/com/ecommerce/service/OrderService.java:158-163 | marking paid keeps every order and its gateway reference |
| Orders.PassListed | src/main/java/com/ecommerce/service/OrderService.java:35 | a passing validation means a non-empty cart whose every product exists with enough stock |
| Orders.SnapshotsAt | src/main/java/com/ecommerce/service/OrderService.java:44-53 | one item per cart entry, in order, with the product's id, name and current price, the entry's quantity and subtotal = price × quantity |
| Orders.ConsumeStockAt | src/main/java/com/ecommerce/service/OrderService.java:59 | each ordered product's stock becomes max(0, s − q); products not ordered are unchanged |
| Orders.RestorePassIff | src/main/java/com/ecommerce/service/OrderService.java:146-148 | the restore loop passes iff every line's product exists; otherwise it fails NotFound("Product") |
| Orders.RestoreAdds | src/main/java/com/ecommerce/service/OrderService.java:146-148 | a passing restore adds to each product the total quantity ordered of it |
| Orders.CheckoutRejected | src/main/java/com/ecommerce/service/OrderService.java:31-35 | a checkout whose cart fails validation raises that validation's error and leaves catalog, carts and orders unchanged |
| Orders.CheckoutSucceeds | src/main/java/com/ecommerce/service/OrderService.java:31-78 | a passing checkout saves one CREATED order whose items are the snapshots and whose total is their subtotal sum, takes the stock, empties the user's cart and leaves other users' carts alone |
| Orders.RestoreUndoesConsume | src/main/java/com/ecommerce/service/OrderService.java:146-148 | restoring an order's items after checkout gives back exactly the catalog before checkout |
| Orders.CancelUndoesCheckout | src/main/java/com/ecommerce/service/OrderService.java:132-155 | cancelling a fresh order succeeds and returns the catalog to its state before checkout |
| Orders.CancelEffect | src/main/java/com/ecommerce/service/OrderService.java:132-155 | NotFound; BadRequest with no change for PAID, PROCESSING, SHIPPED, DELIVERED; otherwise stock restored and CANCELLED, whatever the prior status |
| Orders.FailEffect | src/main/java/com/ecommerce/service/OrderService.java:166-177 | markOrderAsFailed restores every line's stock and sets FAILED whatever the prior status; a missing product stops it with the order unsaved |
| Orders.CancelTwice | src/main/java/com/ecommerce/service/OrderService.java:138-151 | a second cancel succeeds and restores the stock a second time |
| Orders.FailTwice | src/main/java/com/ecommerce/service/OrderService.java:166-177 | a second markOrderAsFailed restores the stock a second time |
| Orders.CancelAfterFail | src/main/java/com/ecommerce/service/OrderService.java:138-151 | a FAILED order can be cancelled, restoring its stock a second time |
| Orders.OrderService.CreateOrder | src/main/java/com/ecommerce/service/OrderService.java:31-78 | the tables end exactly as `Checkout` says (nothing changes when validation fails) |
| Orders.OrderService.TakeItems | src/main/java/com/ecommerce/service/OrderService.java:44-60 | the loop returns the snapshots and their subtotal sum, and leaves the catalog as `ConsumeStock` says |
| Orders.OrderService.FindOrderById | src/main/java/com/ecommerce/service/OrderService.java:97-100 | the stored order, or NotFound("Order") |
| Orders.OrderService.UpdateOrderStatus | src/main/java/com/ecommerce/service/OrderService.java:108-117 | NotFound with no change, or only the status of that order replaced |
| Orders.OrderService.UpdateRazorpayOrderId | src/main/java/com/ecommerce/service/OrderService.java:120-129 | NotFound with no change, or the reference stored and PENDING_PAYMENT set with items and total unchanged |
| Orders.OrderService.RestoreItemStock | src/main/java/com/ecommerce/service/OrderService.java:146-148 | the loop leaves the catalog and outcome `RestoreStock` describes |
| Orders.OrderService.CancelOrder | src/main/java/com/ecommerce/service/OrderService.java:132-155 | the tables end exactly as `CancelOn` says |
| Orders.OrderService.MarkOrderAsPaid | src/main/java/com/ecommerce/service/OrderService.java:158-163 | the tables end exactly as `PaidOn` says: PAID, no stock movement |
| Orders.OrderService.MarkOrderAsFailed | src/main/java/com/ecommerce/service/OrderService.java:166-177 | the tables end exactly as `FailOn` says |
| Payments.PaymentByRef | src/main/java/com/ecommerce/service/PaymentService.java:157-160 | the one payment with that gateway reference; NotFound iff none; a non-unique-result failure iff several |
| Payments.ByRefStable | src/main/java/com/ecommerce/service/PaymentService.java:167-169 | saving a found payment without touching its gateway reference leaves the finder's answer unchanged |
| Payments.ByRefFiled | src/main/java/com/ecommerce/model/Payment.java:25 | under the filing invariant a found payment sits under its own order, which carries the same reference |
| Payments.FiledKept | src/main/java/com/ecommerce/service/PaymentService.java:127-133 | saving a payment in place while orders keep their references preserves the filing invariant |
| Payments.CreatePaymentIff | src/main/java/com/ecommerce/service/PaymentService.java:42-99 | succeeds iff the order exists, is CREATED, has no payment and the gateway mints a reference. Each guard's error: NotFound("Order"), BadRequest naming the status, BadRequest "Payment already exists for this order" for a non-FAILED payment, PaymentFailed with the gateway's message, DuplicateKey when a FAILED payment is filed. On success the PENDING payment with the INR default is added under the order, the order alone takes the reference and PENDING_PAYMENT, and every other payment, order, product and cart entry is kept. Any failure changes nothing |
| Payments.CreatePaymentFiled | src/main/java/com/ecommerce/service/PaymentService.java:78-89 | createPayment keeps every payment filed under its order with matching references and unique ids |
| Payments.ForgedSignatureFails | src/main/java/com/ecommerce/service/PaymentService.java:112-124 | a forged signature raises the verification failure, saves the payment FAILED with its reason, fails the order and restores its stock; never SUCCESS |
| Payments.GenuineSignaturePays | src/main/java/com/ecommerce/service/PaymentService.java:127-136 | a genuine signature records both references and SUCCESS, marks the order PAID and moves no stock |
| Payments.CaptureIdempotent | src/main/java/com/ecommerce/service/PaymentService.java:163-174 | a replayed capture leaves the books as the first capture did |
| Payments.FailureReplayRestoresTwice | src/main/java/com/ecommerce/service/PaymentService.java:177-188 | a replayed failure fails the order again and restores its stock a second time |
| Payments.FailureAfterVerified | src/main/java/com/ecommerce/service/PaymentService.java:177-188 | a failure after a verified payment still fails the PAID order and restores its stock |
| Payments.CaptureAfterFailure | src/main/java/com/ecommerce/service/PaymentService.java:163-174 | a capture after a failure marks the order PAID while the restored stock stays restored |
| Payments.PaymentService.FindByOrderId | src/main/java/com/ecommerce/service/PaymentService.java:53 | the payment filed under the order, if any |
| Payments.PaymentService.GetPaymentByOrderId | src/main/java/com/ecommerce/service/PaymentService.java:145-149 | the payment filed under the order, or NotFound("Payment") |
| Payments.PaymentService.GetPaymentById | src/main/java/com/ecommerce/service/PaymentService.java:151-155 | the one payment with that id, or NotFound("Payment") when none has it |
| Payments.PaymentService.FindPaymentByRazorpayOrderId | src/main/java/com/ecommerce/service/PaymentService.java:157-160 | a stored payment carrying the reference when exactly one does, else NotFound or non-unique |
| Payments.PaymentService.CreatePayment | src/main/java/com/ecommerce/service/PaymentService.java:42-99 | the books end exactly as `CreatePaymentOn` says |
| Payments.PaymentService.VerifyPayment | src/main/java/com/ecommerce/service/PaymentService.java:102-143 | the books end exactly as `VerifyOn` says |
| Payments.PaymentService.RejectSignature | src/main/java/com/ecommerce/service/PaymentService.java:115-124 | the forged-signature branch of `VerifyOn` |
| Payments.PaymentService.AcceptSignature | src/main/java/com/ecommerce/service/PaymentService.java:127-136 | the genuine-signature branch of `VerifyOn` |
| Payments.PaymentService.HandlePaymentCapture | src/main/java/com/ecommerce/service/PaymentService.java:163-174 | the books end exactly as `CaptureOn` says |
| Payments.PaymentService.HandlePaymentFailure | src/main/java/com/ecommerce/service/PaymentService.java:177-188 | the books end exactly as `FailureOn` says |
| Webhook.RouteTable | src/main/java/com/ecommerce/webhook/PaymentWebhookController.java:38-77 | capture iff a genuine "payment.captured" (with the payload's ids); failure iff a genuine "payment.failed" (its description or "Payment failed"); 400 iff forged; nothing otherwise |
| Webhook.WebhookFrame | src/main/java/com/ecommerce/webhook/PaymentWebhookController.java:40-79 | a forged signature, an "authorized" or unknown event leave the books unchanged, with a 400 or a success reply |
| Webhook.WebhookCrashes | src/main/java/com/ecommerce/webhook/PaymentWebhookController.java:58-85 | a reconciler failure becomes a 500 reply carrying it, and success the success reply; nothing is re-raised |
| Webhook.FailedWebhookReplay | src/main/java/com/ecommerce/webhook/PaymentWebhookController.java:69-73 | a replayed genuine failure webhook succeeds twice and restores the stock twice |
| Webhook.CapturedWebhookReplay | src/main/java/com/ecommerce/webhook/PaymentWebhookController.java:59-62 | a replayed genuine capture webhook changes nothing more |
| Webhook.MockTable | src/main/java/com/ecommerce/webhook/PaymentWebhookController.java:100-111 | capture under "pay_mock_" + the clock iff the status equals "success" ignoring case; otherwise failure with the reason or "Mock payment failed" |
| Webhook.SuccessSpellings | src/main/java/com/ecommerce/webhook/PaymentWebhookController.java:100 | examples of `IsSuccess` on fixed spellings: mixed case and the long s are accepted; null, shorter and longer strings are refused (the all-input statement is `IsSuccess` itself with `MockTable`) |
| Webhook.PaymentWebhookController.Dispatch | src/main/java/com/ecommerce/webhook/PaymentWebhookController.java:58-85 | runs the chosen reconciler action and answers as `Perform` says |
| Webhook.PaymentWebhookController.HandlePaymentWebhook | src/main/java/com/ecommerce/webhook/PaymentWebhookController.java:29-86 | the books and the reply end exactly as `WebhookOn` says |
| Webhook.PaymentWebhookController.HandleMockPaymentWebhook | src/main/java/com/ecommerce/webhook/PaymentWebhookController.java:94-119 | the books and the reply end exactly as `MockOn` says |
| Users.ByUsername | src/main/java/com/ecommerce/service/UserService.java:52-56 | the one user with that username, or NotFound("User") |
| Users.RegisterIff | src/main/java/com/ecommerce/service/UserService.java:23-44 | succeeds iff neither username nor email is taken; the username clash is reported first; success adds exactly one user with the request's fields and the role or "USER"; failure stores nothing |
| Users.RegisterKeepsRegistered | src/main/java/com/ecommerce/service/UserService.java:26-40 | registration keeps usernames and emails unique |
| Users.RegisterThenFind | src/main/java/com/ecommerce/service/UserService.java:34-40 | a registered user is then found by id and by username |
| Users.UserService.CreateUser | src/main/java/com/ecommerce/service/UserService.java:23-44 | the table ends exactly as `Register` says |
| Users.UserService.GetUserById | src/main/java/com/ecommerce/service/UserService.java:46-50 | the stored user, or NotFound("User"); also findUserById (64-67) |
| Users.UserService.GetUserByUsername | src/main/java/com/ecommerce/service/UserService.java:52-56 | a stored user with that username, or NotFound("User") when none |
| Users.UserService.UserExists | src/main/java/com/ecommerce/service/UserService.java:69-71 | true iff the id is in the table |

## Left out

- Floating point: prices, subtotals, totals and payment amounts are natural numbers in minor units, so `price * quantity` on doubles and the `(int)(amount * 100)` paise conversion are not modelled. The gateway receives the amount as stored.
- The Razorpay SDK: client creation, `orders.create` and the HMAC of `Utils.verifySignature` / `verifyWebhookSignature` are oracles. A gateway failure is `Refused(message)`; a signature check that raises is `CheckError(message)`.
- JSON parsing of the webhook payload is out; the event name, payment id, order id and optional error description are inputs. A malformed payload's exception is not modelled.
- Exception messages: a 500 reply carries the typed `Error` rather than its message text. ResourceNotFoundException's "field 'value'" detail is not kept.
- `@Transactional`, concurrency and races: every operation is one sequential step in source order, and writes made before an exception persist.
- Logging, `@CreatedDate`/`@LastModifiedDate` timestamps, and `System.currentTimeMillis()`: the mock payment id's clock reading is a string parameter.
- Payment.paymentMethod is never written by the core and is not a field of the model.
- Null arguments other than the optional request fields: strings are never null in the model. For example, a mock request with a null order reference is not modelled.
- The list and search lookups: getProductById, getAllProducts, getActiveProducts, getProductsByCategory, searchProducts, getOrderById, getOrdersByUserId, getAllOrders, findOrderByRazorpayOrderId, getAllUsers and getRazorpayKeyId. They are read-only projections with no logic of their own.
- DTO mapping (`fromProduct`, `fromOrder`, `fromPayment`, `fromUser`, CartItemResponse) is out: methods return the records themselves.
- Request validation: AddToCart requires quantity >= 1 (the request's bean validation). The constraints of UpdateCartRequest, CreatePaymentRequest and CreateUserRequest are not part of this model.
- Webhook.IsSuccess: Java's equalsIgnoreCase is written out only for the letters of "success". This includes the long s, whose upper case is 'S'.
- Orders.Checkout: its own contract speaks only of gateway references. What a checkout does is stated by Orders.CheckoutRejected (a failed validation changes nothing), Orders.CheckoutSucceeds and Orders.CancelUndoesCheckout.
- Inventory.Adjusted: stock is an unbounded natural number, so Java's 32-bit wrap of `product.getStock() + quantityChange` (ProductService.java:122) is not modelled. With stock 2147483647 and a restore of 1, Java stores 0; the model stores 2147483648.
- Cart.CartService.AddToCart: quantities are unbounded, so the 32-bit wrap of `cartItem.getQuantity() + request.getQuantity()` (CartService.java:51) is not modelled. A merged quantity that wraps negative passes Java's stock check and is saved; the model reports InsufficientStock.
- Cart.CartService.GetCart: `totalItems` is an unbounded sum, so its 32-bit wrap (CartService.java:88) is not modelled.
- User.java, UserRepository, PaymentRepository, the exception classes, ApiResponse and the Create/Verify payment and user request classes are not part of this model.
