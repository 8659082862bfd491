/** The order ledger (OrderService): checkout, cancellation and the status
    transitions driven by payments. */
module Orders {
  import opened Common
  import opened Inventory
  import opened Cart

  datatype OrderStatus =
    | Created
    | PendingPayment
    | Paid
    | Processing
    | Shipped
    | Delivered
    | Cancelled
    | Failed

  /** The enum constant's name, as string concatenation renders it. */
  function StatusName(s: OrderStatus): string {
    match s
    case Created => "CREATED"
    case PendingPayment => "PENDING_PAYMENT"
    case Paid => "PAID"
    case Processing => "PROCESSING"
    case Shipped => "SHIPPED"
    case Delivered => "DELIVERED"
    case Cancelled => "CANCELLED"
    case Failed => "FAILED"
  }

  /** The statuses cancelOrder refuses. */
  predicate Locked(s: OrderStatus) {
    s == Paid || s == Processing || s == Shipped || s == Delivered
  }

  /** An order line: the product's id, name and unit price as they were at
      checkout; amounts are in minor units. */
  datatype OrderItem = OrderItem(productId: PId, productName: string, quantity: nat, price: nat, subtotal: nat)

  datatype Order = Order(
    id: OId,
    userId: UId,
    items: seq<OrderItem>,
    totalAmount: nat,
    status: OrderStatus,
    shippingAddress: string,
    razorpayOrderId: Option<string>)

  /** The order line checkout builds from a cart entry and its product. */
  function Snapshot(e: CartItem, p: Product): OrderItem {
    OrderItem(p.id, p.name, e.quantity, p.price, p.price * e.quantity)
  }

  /** Every entry's product is in the catalog. */
  ghost predicate Listed(mine: seq<CartItem>, catalog: map<PId, Product>) {
    forall k :: 0 <= k < |mine| ==> mine[k].productId in catalog
  }

  /** Every line's product is in the catalog. */
  ghost predicate ItemsListed(items: seq<OrderItem>, catalog: map<PId, Product>) {
    forall k :: 0 <= k < |items| ==> items[k].productId in catalog
  }

  function Snapshots(mine: seq<CartItem>, catalog: map<PId, Product>): seq<OrderItem>
    requires Listed(mine, catalog)
  {
    if mine == [] then []
    else [Snapshot(mine[0], catalog[mine[0].productId])] + Snapshots(mine[1..], catalog)
  }

  function SubtotalSum(items: seq<OrderItem>): nat {
    if items == [] then 0 else SubtotalSum(items[..|items| - 1]) + items[|items| - 1].subtotal
  }

  /** Every line's subtotal is its price times its quantity, and the total
      is the sum of the subtotals. */
  ghost predicate PricedConsistently(o: Order) {
    o.totalAmount == SubtotalSum(o.items) &&
    forall k :: 0 <= k < |o.items| ==> o.items[k].subtotal == o.items[k].price * o.items[k].quantity
  }

  /** The catalog after checkout's `updateStock(id, -quantity)` calls, entry
      by entry. */
  function ConsumeStock(catalog: map<PId, Product>, mine: seq<CartItem>): (r: map<PId, Product>)
    requires Listed(mine, catalog)
    ensures r.Keys == catalog.Keys
  {
    if mine == [] then catalog
    else ConsumeStock(Adjusted(catalog, mine[0].productId, -(mine[0].quantity as int)), mine[1..])
  }

  /** The catalog and outcome of the restore loop: `updateStock(id, +quantity)`
      line by line, stopping with NotFound at the first product that is gone
      (the restorations before it stay). */
  datatype Restock = Restock(catalog: map<PId, Product>, outcome: Outcome)

  function RestoreStock(catalog: map<PId, Product>, items: seq<OrderItem>): Restock {
    if items == [] then Restock(catalog, Pass)
    else if items[0].productId !in catalog then Restock(catalog, Fail(NotFound("Product")))
    else RestoreStock(Adjusted(catalog, items[0].productId, items[0].quantity), items[1..])
  }

  /** The quantity of product `id` over the lines `items`. */
  function QtyOf(items: seq<OrderItem>, id: PId): nat {
    if items == [] then 0
    else (if items[0].productId == id then items[0].quantity else 0) + QtyOf(items[1..], id)
  }

  /** The three tables an order operation reads or writes. */
  datatype Ledger = Ledger(catalog: map<PId, Product>, cart: seq<CartItem>, orders: map<OId, Order>)

  /** `b` still holds every order of `a`, each with the gateway reference it
      had: no operation of the order service but updateRazorpayOrderId
      writes that field. */
  ghost predicate RefsKept(a: map<OId, Order>, b: map<OId, Order>) {
    a.Keys <= b.Keys && forall id :: id in a ==> b[id].razorpayOrderId == a[id].razorpayOrderId
  }

  /** The tables after an operation, and what it returned. */
  datatype Step<T> = Step(ledger: Ledger, result: T)

  // ---------------------------------------------------------------------
  // The operations on values

  /** createOrder: validate the cart; on success snapshot each entry, total
      the subtotals, take the stock, save the order as CREATED and clear the
      user's cart. A failed validation changes nothing. */
  function Checkout(l: Ledger, u: UId, shippingAddress: string, id: OId): (r: Step<Result<Order>>)
    ensures id !in l.orders ==> RefsKept(l.orders, r.ledger.orders)
  {
    var mine := ItemsOf(l.cart, u);
    var verdict := CheckoutVerdict(mine, l.catalog);
    if verdict.Fail? then Step(l, Err(verdict.error))
    else
      PassListed(mine, l.catalog);
      var items := Snapshots(mine, l.catalog);
      var order := Order(id, u, items, SubtotalSum(items), Created, shippingAddress, None);
      Step(Ledger(ConsumeStock(l.catalog, mine), DropUser(l.cart, u), l.orders[id := order]), Ok(order))
  }

  /** cancelOrder: refused for the locked statuses; otherwise the stock of
      every line is restored, whatever the status was, and the order is
      saved as CANCELLED. */
  function CancelOn(l: Ledger, id: OId): (r: Step<Result<Order>>)
    ensures RefsKept(l.orders, r.ledger.orders)
  {
    if id !in l.orders then Step(l, Err(NotFound("Order")))
    else
      var order := l.orders[id];
      if Locked(order.status) then
        Step(l, Err(BadRequest("Cannot cancel order with status: " + StatusName(order.status))))
      else
        var restock := RestoreStock(l.catalog, order.items);
        if restock.outcome.Fail? then Step(l.(catalog := restock.catalog), Err(restock.outcome.error))
        else
          var cancelled := order.(status := Cancelled);
          Step(Ledger(restock.catalog, l.cart, l.orders[id := cancelled]), Ok(cancelled))
  }

  /** markOrderAsFailed: no status guard; restores the stock of every line and
      saves the order as FAILED. */
  function FailOn(l: Ledger, id: OId): (r: Step<Outcome>)
    ensures RefsKept(l.orders, r.ledger.orders)
  {
    if id !in l.orders then Step(l, Fail(NotFound("Order")))
    else
      var order := l.orders[id];
      var restock := RestoreStock(l.catalog, order.items);
      if restock.outcome.Fail? then Step(l.(catalog := restock.catalog), restock.outcome)
      else Step(Ledger(restock.catalog, l.cart, l.orders[id := order.(status := Failed)]), Pass)
  }

  /** markOrderAsPaid: no status guard and no stock movement; the order is
      saved as PAID. */
  function PaidOn(l: Ledger, id: OId): (r: Step<Outcome>)
    ensures RefsKept(l.orders, r.ledger.orders)
  {
    if id !in l.orders then Step(l, Fail(NotFound("Order")))
    else Step(l.(orders := l.orders[id := l.orders[id].(status := Paid)]), Pass)
  }

  // ---------------------------------------------------------------------
  // Lemmas

  /** `b` lists the same products as `a` under the same names and prices:
      only stock may differ. */
  ghost predicate SameListing(a: map<PId, Product>, b: map<PId, Product>) {
    a.Keys == b.Keys &&
    forall pid :: pid in a ==> b[pid].id == a[pid].id && b[pid].name == a[pid].name && b[pid].price == a[pid].price
  }

  lemma AdjustedSameListing(a: map<PId, Product>, b: map<PId, Product>, id: PId, delta: int)
    requires SameListing(a, b) && id in b
    ensures SameListing(a, Adjusted(b, id, delta))
  {
  }

  /** `lines` are the lines checkout builds from the first |lines| entries
      of `mine`. */
  ghost predicate LinesPrefix(lines: seq<OrderItem>, mine: seq<CartItem>, catalog: map<PId, Product>)
    requires Listed(mine, catalog)
  {
    |lines| <= |mine| &&
    forall k :: 0 <= k < |lines| ==> lines[k] == Snapshot(mine[k], catalog[mine[k].productId])
  }

  lemma LinesPrefixSnoc(lines: seq<OrderItem>, mine: seq<CartItem>, catalog: map<PId, Product>)
    requires Listed(mine, catalog) && LinesPrefix(lines, mine, catalog) && |lines| < |mine|
    ensures LinesPrefix(lines + [Snapshot(mine[|lines|], catalog[mine[|lines|].productId])], mine, catalog)
  {
  }

  /** One turn of checkout's loop: taking entry `i`'s quantity leaves the
      rest of the fold unchanged. */
  lemma ConsumeStep(before: map<PId, Product>, after: map<PId, Product>, mine: seq<CartItem>, i: nat,
                    id: PId, delta: int)
    requires i < |mine| && Listed(mine[i..], before)
    requires id == mine[i].productId && delta == -(mine[i].quantity as int) && id in before
    requires after == Adjusted(before, id, delta)
    ensures Listed(mine[i + 1..], after) && ConsumeStock(after, mine[i + 1..]) == ConsumeStock(before, mine[i..])
  {
    assert mine[i..][0] == mine[i];
    assert mine[i..][1..] == mine[i + 1..];
  }

  /** A passing checkout verdict means every entry's product exists and has
      the stock for it. */
  lemma PassListed(mine: seq<CartItem>, catalog: map<PId, Product>)
    requires CheckoutVerdict(mine, catalog) == Pass
    ensures mine != [] && Listed(mine, catalog)
    ensures forall k :: 0 <= k < |mine| ==> catalog[mine[k].productId].stock >= mine[k].quantity
  {
    CheckoutPassIff(mine, catalog);
    forall k | 0 <= k < |mine|
      ensures mine[k].productId in catalog && catalog[mine[k].productId].stock >= mine[k].quantity
    {
      assert mine[k] in mine;
    }
  }

  /** One line per entry, in order, carrying the catalog's id, name and price
      and the entry's quantity; the subtotal is price times quantity. */
  lemma {:induction false} SnapshotsAt(mine: seq<CartItem>, catalog: map<PId, Product>)
    requires Listed(mine, catalog)
    ensures |Snapshots(mine, catalog)| == |mine|
    ensures forall k :: 0 <= k < |mine| ==>
      Snapshots(mine, catalog)[k] == Snapshot(mine[k], catalog[mine[k].productId])
  {
    if mine != [] {
      SnapshotsAt(mine[1..], catalog);
    }
  }

  /** checkout takes exactly each entry's quantity from its product, clamped
      at zero, and touches no other product and no other field. */
  lemma {:induction false} ConsumeStockAt(catalog: map<PId, Product>, mine: seq<CartItem>)
    requires Listed(mine, catalog) && DistinctProducts(mine)
    ensures forall k :: 0 <= k < |mine| ==>
      var id := mine[k].productId;
      ConsumeStock(catalog, mine)[id] == catalog[id].(stock := Max0(catalog[id].stock - mine[k].quantity))
    ensures forall id :: id in catalog && (forall k :: 0 <= k < |mine| ==> mine[k].productId != id) ==>
      ConsumeStock(catalog, mine)[id] == catalog[id]
  {
    if mine != [] {
      var first := mine[0].productId;
      var next := Adjusted(catalog, first, -(mine[0].quantity as int));
      assert DistinctProducts(mine[1..]) by {
        forall i, j | 0 <= i < j < |mine[1..]| ensures mine[1..][i].productId != mine[1..][j].productId {
          assert mine[1..][i] == mine[i + 1] && mine[1..][j] == mine[j + 1];
        }
      }
      ConsumeStockAt(next, mine[1..]);
      forall k | 0 <= k < |mine|
        ensures ConsumeStock(catalog, mine)[mine[k].productId] ==
          catalog[mine[k].productId].(stock := Max0(catalog[mine[k].productId].stock - mine[k].quantity))
      {
        if k == 0 {
          assert forall j :: 0 <= j < |mine[1..]| ==> mine[1..][j].productId != first by {
            forall j | 0 <= j < |mine[1..]| ensures mine[1..][j].productId != first {
              assert mine[1..][j] == mine[j + 1];
            }
          }
        } else {
          assert mine[k] == mine[1..][k - 1];
        }
      }
      forall id | id in catalog && (forall k :: 0 <= k < |mine| ==> mine[k].productId != id)
        ensures ConsumeStock(catalog, mine)[id] == catalog[id]
      {
        assert mine[0].productId != id;
        assert forall j :: 0 <= j < |mine[1..]| ==> mine[1..][j].productId != id by {
          forall j | 0 <= j < |mine[1..]| ensures mine[1..][j].productId != id {
            assert mine[1..][j] == mine[j + 1];
          }
        }
      }
    }
  }

  /** The restore loop runs to the end exactly when every line's product
      still exists, never changes the catalog's keys, and fails only with
      NotFound. */
  lemma {:induction false} RestorePassIff(catalog: map<PId, Product>, items: seq<OrderItem>)
    ensures RestoreStock(catalog, items).catalog.Keys == catalog.Keys
    ensures RestoreStock(catalog, items).outcome.Pass? <==> ItemsListed(items, catalog)
    ensures RestoreStock(catalog, items).outcome.Fail? ==>
      RestoreStock(catalog, items).outcome.error == NotFound("Product")
  {
    if items != [] && items[0].productId in catalog {
      var next := Adjusted(catalog, items[0].productId, items[0].quantity);
      RestorePassIff(next, items[1..]);
      if ItemsListed(items, catalog) {
        assert ItemsListed(items[1..], next) by {
          forall j | 0 <= j < |items[1..]| ensures items[1..][j].productId in next {
            assert items[1..][j] == items[j + 1];
          }
        }
      }
      if ItemsListed(items[1..], next) {
        forall k | 0 <= k < |items| ensures items[k].productId in catalog {
          if k > 0 {
            assert items[k] == items[1..][k - 1];
          }
        }
      }
    }
  }

  /** When it runs to the end, the restore loop adds to each product the
      total quantity of its lines (no clamping: the deltas are positive) and
      changes no other field. */
  lemma {:induction false} RestoreAdds(catalog: map<PId, Product>, items: seq<OrderItem>)
    requires ItemsListed(items, catalog)
    ensures RestoreStock(catalog, items).outcome == Pass
    ensures RestoreStock(catalog, items).catalog.Keys == catalog.Keys
    ensures forall id :: id in catalog ==>
      RestoreStock(catalog, items).catalog[id] == catalog[id].(stock := catalog[id].stock + QtyOf(items, id))
  {
    if items != [] {
      var first := items[0];
      assert first.productId in catalog;
      var next := Adjusted(catalog, first.productId, first.quantity);
      assert ItemsListed(items[1..], next) by {
        forall j | 0 <= j < |items[1..]| ensures items[1..][j].productId in next {
          assert items[1..][j] == items[j + 1];
        }
      }
      RestoreAdds(next, items[1..]);
      assert RestoreStock(catalog, items) == RestoreStock(next, items[1..]);
      forall id | id in catalog
        ensures RestoreStock(catalog, items).catalog[id] ==
          catalog[id].(stock := catalog[id].stock + QtyOf(items, id))
      {
        assert QtyOf(items, id) == (if first.productId == id then first.quantity else 0) + QtyOf(items[1..], id);
      }
    }
  }

  /** The quantity an order line set built at checkout holds for a product:
      the entry's quantity for a product in the cart, zero for any other. */
  lemma {:induction false} QtyOfSnapshots(mine: seq<CartItem>, catalog: map<PId, Product>)
    requires Listed(mine, catalog) && DistinctProducts(mine)
    requires forall id :: id in catalog ==> catalog[id].id == id
    ensures forall k :: 0 <= k < |mine| ==> QtyOf(Snapshots(mine, catalog), mine[k].productId) == mine[k].quantity
    ensures forall id :: (forall k :: 0 <= k < |mine| ==> mine[k].productId != id) ==>
      QtyOf(Snapshots(mine, catalog), id) == 0
  {
    if mine != [] {
      assert DistinctProducts(mine[1..]) by {
        forall i, j | 0 <= i < j < |mine[1..]| ensures mine[1..][i].productId != mine[1..][j].productId {
          assert mine[1..][i] == mine[i + 1] && mine[1..][j] == mine[j + 1];
        }
      }
      QtyOfSnapshots(mine[1..], catalog);
      var s := Snapshots(mine, catalog);
      assert s[1..] == Snapshots(mine[1..], catalog);
      assert s[0].productId == mine[0].productId;
      forall k | 0 <= k < |mine| ensures QtyOf(s, mine[k].productId) == mine[k].quantity {
        if k == 0 {
          assert forall j :: 0 <= j < |mine[1..]| ==> mine[1..][j].productId != mine[0].productId by {
            forall j | 0 <= j < |mine[1..]| ensures mine[1..][j].productId != mine[0].productId {
              assert mine[1..][j] == mine[j + 1];
            }
          }
        } else {
          assert mine[k] == mine[1..][k - 1];
        }
      }
      forall id | (forall k :: 0 <= k < |mine| ==> mine[k].productId != id)
        ensures QtyOf(s, id) == 0
      {
        assert mine[0].productId != id;
        assert forall j :: 0 <= j < |mine[1..]| ==> mine[1..][j].productId != id by {
          forall j | 0 <= j < |mine[1..]| ensures mine[1..][j].productId != id {
            assert mine[1..][j] == mine[j + 1];
          }
        }
      }
    }
  }

  /** A createOrder whose cart fails validation raises that validation's
      error and writes nothing: catalog, carts and orders are as they were. */
  lemma CheckoutRejected(l: Ledger, u: UId, shippingAddress: string, id: OId)
    requires CheckoutVerdict(ItemsOf(l.cart, u), l.catalog).Fail?
    ensures Checkout(l, u, shippingAddress, id) ==
      Step(l, Err(CheckoutVerdict(ItemsOf(l.cart, u), l.catalog).error))
  {
  }

  /** A successful createOrder: one line per cart entry with the catalog's
      price and name, subtotal price times quantity, total the sum of the
      subtotals, status CREATED, the user's cart empty and every other
      user's cart as it was, and each ordered product's stock down by exactly
      the entry's quantity (validation guaranteed it was there). */
  lemma CheckoutSucceeds(l: Ledger, u: UId, shippingAddress: string, id: OId)
    requires UniqueKeys(l.cart)
    requires CheckoutVerdict(ItemsOf(l.cart, u), l.catalog) == Pass
    ensures var mine := ItemsOf(l.cart, u);
      var step := Checkout(l, u, shippingAddress, id);
      var order := step.result.value;
      step.result.Ok? &&
      step.ledger.orders == l.orders[id := order] &&
      order.id == id && order.userId == u && order.status == Created &&
      order.shippingAddress == shippingAddress && order.razorpayOrderId == None &&
      |order.items| == |mine| && PricedConsistently(order) && Listed(mine, l.catalog) &&
      (forall k :: 0 <= k < |mine| ==>
        var p := l.catalog[mine[k].productId];
        p.stock >= mine[k].quantity &&
        order.items[k] == OrderItem(p.id, p.name, mine[k].quantity, p.price, p.price * mine[k].quantity) &&
        step.ledger.catalog[mine[k].productId] == p.(stock := p.stock - mine[k].quantity)) &&
      (forall pid :: pid in l.catalog && (forall k :: 0 <= k < |mine| ==> mine[k].productId != pid) ==>
        step.ledger.catalog[pid] == l.catalog[pid]) &&
      ItemsOf(step.ledger.cart, u) == [] &&
      (forall v :: v != u ==> ItemsOf(step.ledger.cart, v) == ItemsOf(l.cart, v))
  {
    var mine := ItemsOf(l.cart, u);
    PassListed(mine, l.catalog);
    SnapshotsAt(mine, l.catalog);
    ItemsOfDistinct(l.cart, u);
    ConsumeStockAt(l.catalog, mine);
    forall v ensures ItemsOf(DropUser(l.cart, u), u) == [] &&
      (v != u ==> ItemsOf(DropUser(l.cart, u), v) == ItemsOf(l.cart, v))
    {
      ClearCartIsolated(l.cart, u, v);
    }
  }

  /** The lines checkout builds from `mine` are all in the catalog after
      the stock is taken. */
  lemma SnapshotsListed(catalog: map<PId, Product>, mine: seq<CartItem>)
    requires Listed(mine, catalog)
    requires forall id :: id in catalog ==> catalog[id].id == id
    ensures ItemsListed(Snapshots(mine, catalog), ConsumeStock(catalog, mine))
  {
    SnapshotsAt(mine, catalog);
    var items := Snapshots(mine, catalog);
    forall k | 0 <= k < |items| ensures items[k].productId in ConsumeStock(catalog, mine) {
      assert items[k].productId == mine[k].productId;
    }
  }

  /** The record of an ordered product after checkout and then the restore
      loop. */
  lemma RestoreUndoesConsumeIn(catalog: map<PId, Product>, mine: seq<CartItem>, k: nat)
    requires Listed(mine, catalog) && DistinctProducts(mine)
    requires forall id :: id in catalog ==> catalog[id].id == id
    requires k < |mine| && catalog[mine[k].productId].stock >= mine[k].quantity
    ensures RestoreStock(ConsumeStock(catalog, mine), Snapshots(mine, catalog)).catalog.Keys == catalog.Keys
    ensures RestoreStock(ConsumeStock(catalog, mine), Snapshots(mine, catalog)).catalog[mine[k].productId] ==
      catalog[mine[k].productId]
  {
    var items := Snapshots(mine, catalog);
    var taken := ConsumeStock(catalog, mine);
    SnapshotsListed(catalog, mine);
    RestoreAdds(taken, items);
    assert QtyOf(items, mine[k].productId) == mine[k].quantity by {
      QtyOfSnapshots(mine, catalog);
    }
    assert taken[mine[k].productId] ==
      catalog[mine[k].productId].(stock := catalog[mine[k].productId].stock - mine[k].quantity) by {
      ConsumeStockAt(catalog, mine);
    }
  }

  /** The record of a product not in the cart after checkout and then the
      restore loop. */
  lemma RestoreUndoesConsumeOut(catalog: map<PId, Product>, mine: seq<CartItem>, pid: PId)
    requires Listed(mine, catalog) && DistinctProducts(mine)
    requires forall id :: id in catalog ==> catalog[id].id == id
    requires pid in catalog && forall k :: 0 <= k < |mine| ==> mine[k].productId != pid
    ensures RestoreStock(ConsumeStock(catalog, mine), Snapshots(mine, catalog)).catalog.Keys == catalog.Keys
    ensures RestoreStock(ConsumeStock(catalog, mine), Snapshots(mine, catalog)).catalog[pid] == catalog[pid]
  {
    var items := Snapshots(mine, catalog);
    var taken := ConsumeStock(catalog, mine);
    SnapshotsListed(catalog, mine);
    RestoreAdds(taken, items);
    assert QtyOf(items, pid) == 0 by {
      QtyOfSnapshots(mine, catalog);
    }
    assert taken[pid] == catalog[pid] by {
      ConsumeStockAt(catalog, mine);
    }
  }

  /** The restore loop over the lines checkout built gives back exactly the
      stock checkout took, provided the validation passed (so no clamping
      happened). */
  lemma RestoreUndoesConsume(catalog: map<PId, Product>, mine: seq<CartItem>)
    requires Listed(mine, catalog) && DistinctProducts(mine)
    requires forall pid :: pid in catalog ==> catalog[pid].id == pid
    requires forall k :: 0 <= k < |mine| ==> catalog[mine[k].productId].stock >= mine[k].quantity
    ensures RestoreStock(ConsumeStock(catalog, mine), Snapshots(mine, catalog)) == Restock(catalog, Pass)
  {
    var items := Snapshots(mine, catalog);
    var taken := ConsumeStock(catalog, mine);
    SnapshotsListed(catalog, mine);
    RestoreAdds(taken, items);
    var back := RestoreStock(taken, items).catalog;
    forall pid | pid in catalog ensures back[pid] == catalog[pid] {
      if k :| 0 <= k < |mine| && mine[k].productId == pid {
        RestoreUndoesConsumeIn(catalog, mine, k);
      } else {
        RestoreUndoesConsumeOut(catalog, mine, pid);
      }
    }
    assert back == catalog;
  }

  /** Cancelling an order right after checkout gives back exactly the stock
      checkout took: the catalog is as it was before the checkout. */
  lemma CancelUndoesCheckout(l: Ledger, u: UId, shippingAddress: string, id: OId)
    requires UniqueKeys(l.cart) && forall pid :: pid in l.catalog ==> l.catalog[pid].id == pid
    requires Checkout(l, u, shippingAddress, id).result.Ok?
    ensures var after := Checkout(l, u, shippingAddress, id).ledger;
      CancelOn(after, id).result.Ok? && CancelOn(after, id).ledger.catalog == l.catalog
  {
    var mine := ItemsOf(l.cart, u);
    PassListed(mine, l.catalog);
    ItemsOfDistinct(l.cart, u);
    RestoreUndoesConsume(l.catalog, mine);
  }

  /** What cancelOrder does in each case; in particular a CANCELLED or FAILED
      order is cancelled again and its stock restored again. */
  lemma CancelEffect(l: Ledger, id: OId)
    ensures id !in l.orders ==> CancelOn(l, id) == Step(l, Err(NotFound("Order")))
    ensures id in l.orders && Locked(l.orders[id].status) ==>
      CancelOn(l, id) == Step(l, Err(BadRequest("Cannot cancel order with status: " + StatusName(l.orders[id].status))))
    ensures id in l.orders && !Locked(l.orders[id].status) && ItemsListed(l.orders[id].items, l.catalog) ==>
      var step := CancelOn(l, id);
      step.result == Ok(l.orders[id].(status := Cancelled)) &&
      step.ledger.orders == l.orders[id := step.result.value] &&
      step.ledger.cart == l.cart && step.ledger.catalog.Keys == l.catalog.Keys &&
      forall pid :: pid in l.catalog ==>
        step.ledger.catalog[pid] == l.catalog[pid].(stock := l.catalog[pid].stock + QtyOf(l.orders[id].items, pid))
    ensures id in l.orders && !Locked(l.orders[id].status) && !ItemsListed(l.orders[id].items, l.catalog) ==>
      CancelOn(l, id).result == Err(NotFound("Product")) && CancelOn(l, id).ledger.orders == l.orders
  {
    if id in l.orders {
      RestorePassIff(l.catalog, l.orders[id].items);
      if ItemsListed(l.orders[id].items, l.catalog) {
        RestoreAdds(l.catalog, l.orders[id].items);
      }
    }
  }

  /** What markOrderAsFailed does: FAILED and the stock of every line back,
      whatever the order's status was. */
  lemma FailEffect(l: Ledger, id: OId)
    ensures id !in l.orders ==> FailOn(l, id) == Step(l, Fail(NotFound("Order")))
    ensures id in l.orders && ItemsListed(l.orders[id].items, l.catalog) ==>
      var step := FailOn(l, id);
      step.result == Pass &&
      step.ledger.orders == l.orders[id := l.orders[id].(status := Failed)] &&
      step.ledger.cart == l.cart && step.ledger.catalog.Keys == l.catalog.Keys &&
      forall pid :: pid in l.catalog ==>
        step.ledger.catalog[pid] == l.catalog[pid].(stock := l.catalog[pid].stock + QtyOf(l.orders[id].items, pid))
    ensures id in l.orders && !ItemsListed(l.orders[id].items, l.catalog) ==>
      FailOn(l, id).result == Fail(NotFound("Product")) && FailOn(l, id).ledger.orders == l.orders
  {
    if id in l.orders {
      RestorePassIff(l.catalog, l.orders[id].items);
      if ItemsListed(l.orders[id].items, l.catalog) {
        RestoreAdds(l.catalog, l.orders[id].items);
      }
    }
  }

  /** Cancelling twice succeeds twice and restores the stock twice. */
  lemma CancelTwice(l: Ledger, id: OId)
    requires id in l.orders && !Locked(l.orders[id].status) && ItemsListed(l.orders[id].items, l.catalog)
    ensures var once := CancelOn(l, id).ledger;
      var twice := CancelOn(once, id);
      twice.result.Ok? && twice.ledger.orders[id].status == Cancelled &&
      twice.ledger.catalog.Keys == l.catalog.Keys &&
      forall pid :: pid in l.catalog ==>
        twice.ledger.catalog[pid].stock == l.catalog[pid].stock + 2 * QtyOf(l.orders[id].items, pid)
  {
    CancelEffect(l, id);
    var once := CancelOn(l, id).ledger;
    assert ItemsListed(once.orders[id].items, once.catalog);
    CancelEffect(once, id);
  }

  /** A replayed failure restores the stock a second time. */
  lemma FailTwice(l: Ledger, id: OId)
    requires id in l.orders && ItemsListed(l.orders[id].items, l.catalog)
    ensures var once := FailOn(l, id).ledger;
      var twice := FailOn(once, id);
      twice.result == Pass && twice.ledger.orders[id].status == Failed &&
      twice.ledger.catalog.Keys == l.catalog.Keys &&
      forall pid :: pid in l.catalog ==>
        twice.ledger.catalog[pid].stock == l.catalog[pid].stock + 2 * QtyOf(l.orders[id].items, pid)
  {
    FailEffect(l, id);
    var once := FailOn(l, id).ledger;
    assert ItemsListed(once.orders[id].items, once.catalog);
    FailEffect(once, id);
  }

  /** A failed order can still be cancelled, and that restores its stock a
      second time. */
  lemma CancelAfterFail(l: Ledger, id: OId)
    requires id in l.orders && ItemsListed(l.orders[id].items, l.catalog)
    ensures var once := FailOn(l, id).ledger;
      var twice := CancelOn(once, id);
      twice.result.Ok? && twice.ledger.orders[id].status == Cancelled &&
      twice.ledger.catalog.Keys == l.catalog.Keys &&
      forall pid :: pid in l.catalog ==>
        twice.ledger.catalog[pid].stock == l.catalog[pid].stock + 2 * QtyOf(l.orders[id].items, pid)
  {
    FailEffect(l, id);
    var once := FailOn(l, id).ledger;
    assert ItemsListed(once.orders[id].items, once.catalog);
    CancelEffect(once, id);
  }

  // ---------------------------------------------------------------------
  // The service

  class OrderService {
    var orders: map<OId, Order>
    const carts: CartService
    const products: ProductService

    /** Every order is stored under its own id and priced consistently; the
        cart service works against the same catalog. */
    ghost predicate Valid()
      reads this, carts, products
    {
      carts.products == products && carts.Valid() && products.Valid() &&
      forall id :: id in orders ==> orders[id].id == id && PricedConsistently(orders[id])
    }

    constructor (carts: CartService, products: ProductService)
      requires carts.Valid() && products.Valid() && carts.products == products
      ensures Valid() && this.carts == carts && this.products == products && orders == map[]
    {
      this.carts := carts;
      this.products := products;
      orders := map[];
    }

    /** The three tables as values. */
    function State(): Ledger
      reads this, carts, products
    {
      Ledger(products.products, carts.items, orders)
    }

    /** createOrder; `id` is the fresh id the store assigns on save. */
    method CreateOrder(u: UId, shippingAddress: string, id: OId) returns (r: Result<Order>)
      requires Valid() && id !in orders
      modifies this, carts, products
      ensures Valid()
      ensures Step(State(), r) == Checkout(old(State()), u, shippingAddress, id)
    {
      var verdict := carts.ValidateCartForCheckout(u);
      if verdict.Fail? {
        return Err(verdict.error);
      }
      var mine := carts.GetCartItems(u);
      ghost var catalog0 := products.products;
      PassListed(mine, catalog0);
      SnapshotsAt(mine, catalog0);
      var orderItems, totalAmount := TakeItems(mine);
      var order := Order(id, u, orderItems, totalAmount, Created, shippingAddress, None);
      orders := orders[id := order];
      carts.ClearCart(u);
      r := Ok(order);
    }

    /** createOrder's loop: one line per entry, priced from the catalog, the
        subtotals summed and each entry's quantity taken from the stock. */
    method TakeItems(mine: seq<CartItem>) returns (orderItems: seq<OrderItem>, totalAmount: nat)
      requires products.Valid() && Listed(mine, products.products)
      modifies products
      ensures products.Valid()
      ensures orderItems == Snapshots(mine, old(products.products))
      ensures totalAmount == SubtotalSum(orderItems)
      ensures products.products == ConsumeStock(old(products.products), mine)
    {
      ghost var catalog0 := products.products;
      orderItems := [];
      totalAmount := 0;
      var i := 0;
      while i < |mine|
        invariant 0 <= i <= |mine|
        invariant products.Valid()
        invariant SameListing(catalog0, products.products)
        invariant Listed(mine[i..], products.products)
        invariant ConsumeStock(products.products, mine[i..]) == ConsumeStock(catalog0, mine)
        invariant |orderItems| == i && LinesPrefix(orderItems, mine, catalog0)
        invariant totalAmount == SubtotalSum(orderItems)
      {
        var item := mine[i];
        var orderItem := TakeItem(item, catalog0, mine, i);
        LinesPrefixSnoc(orderItems, mine, catalog0);
        assert (orderItems + [orderItem])[..|orderItems|] == orderItems;
        orderItems := orderItems + [orderItem];
        totalAmount := totalAmount + orderItem.subtotal;
        i := i + 1;
      }
      assert mine[i..] == [];
      SnapshotsAt(mine, catalog0);
    }

    /** One turn of createOrder's loop: the line for `item`, priced from the
        catalog, and the entry's quantity taken from the stock. */
    method TakeItem(item: CartItem, ghost listing: map<PId, Product>, ghost mine: seq<CartItem>, ghost i: nat)
        returns (orderItem: OrderItem)
      requires products.Valid() && i < |mine| && item == mine[i] && Listed(mine[i..], products.products)
      requires SameListing(listing, products.products)
      modifies products
      ensures products.Valid() && SameListing(listing, products.products)
      ensures orderItem == Snapshot(item, listing[item.productId])
      ensures Listed(mine[i + 1..], products.products)
      ensures ConsumeStock(products.products, mine[i + 1..]) == ConsumeStock(old(products.products), mine[i..])
    {
      ghost var before := products.products;
      assert item.productId in before by {
        assert mine[i..][0] == item;
      }
      var product := products.FindProductById(item.productId).value;
      orderItem := Snapshot(item, product);
      AdjustedSameListing(listing, products.products, product.id, -(item.quantity as int));
      var reduced := products.UpdateStock(product.id, -(item.quantity as int));
      ConsumeStep(before, products.products, mine, i, item.productId, -(item.quantity as int));
    }

    /** findOrderById. */
    function FindOrderById(id: OId): (r: Result<Order>)
      reads this
      ensures r.Ok? <==> id in orders
      ensures r.Ok? ==> r.value == orders[id]
      ensures r.Err? ==> r.error == NotFound("Order")
    {
      if id in orders then Ok(orders[id]) else Err(NotFound("Order"))
    }

    /** updateOrderStatus: any status may follow any other. */
    method UpdateOrderStatus(id: OId, status: OrderStatus) returns (r: Result<Order>)
      requires Valid()
      modifies this
      ensures Valid()
      ensures id !in old(orders) ==> r == Err(NotFound("Order")) && orders == old(orders)
      ensures id in old(orders) ==>
        r == Ok(old(orders)[id].(status := status)) && orders == old(orders)[id := r.value]
    {
      var found := FindOrderById(id);
      if found.Err? {
        return Err(found.error);
      }
      var order := found.value.(status := status);
      orders := orders[id := order];
      r := Ok(order);
    }

    /** updateRazorpayOrderId: records the gateway's order reference and
        moves the order to PENDING_PAYMENT; items and total are kept. */
    method UpdateRazorpayOrderId(id: OId, razorpayOrderId: string) returns (r: Result<Order>)
      requires Valid()
      modifies this
      ensures Valid()
      ensures id !in old(orders) ==> r == Err(NotFound("Order")) && orders == old(orders)
      ensures id in old(orders) ==>
        r == Ok(old(orders)[id].(razorpayOrderId := Some(razorpayOrderId), status := PendingPayment)) &&
        orders == old(orders)[id := r.value]
    {
      var found := FindOrderById(id);
      if found.Err? {
        return Err(found.error);
      }
      var order := found.value.(razorpayOrderId := Some(razorpayOrderId), status := PendingPayment);
      orders := orders[id := order];
      r := Ok(order);
    }

    /** The restore loop shared by cancelOrder and markOrderAsFailed. */
    method RestoreItemStock(items: seq<OrderItem>) returns (r: Outcome)
      requires products.Valid()
      modifies products
      ensures products.Valid()
      ensures Restock(products.products, r) == RestoreStock(old(products.products), items)
    {
      var i := 0;
      while i < |items|
        invariant 0 <= i <= |items|
        invariant products.Valid()
        invariant RestoreStock(products.products, items[i..]) == RestoreStock(old(products.products), items)
      {
        assert items[i..][1..] == items[i + 1..];
        var restored := products.UpdateStock(items[i].productId, items[i].quantity);
        if restored.Fail? {
          return restored;
        }
        i := i + 1;
      }
      r := Pass;
    }

    /** cancelOrder. */
    method CancelOrder(id: OId) returns (r: Result<Order>)
      requires Valid()
      modifies this, products
      ensures Valid()
      ensures Step(State(), r) == CancelOn(old(State()), id)
    {
      var found := FindOrderById(id);
      if found.Err? {
        return Err(found.error);
      }
      var order := found.value;
      if Locked(order.status) {
        return Err(BadRequest("Cannot cancel order with status: " + StatusName(order.status)));
      }
      var restored := RestoreItemStock(order.items);
      if restored.Fail? {
        return Err(restored.error);
      }
      order := order.(status := Cancelled);
      orders := orders[id := order];
      r := Ok(order);
    }

    /** markOrderAsPaid: no status guard and no stock effect. */
    method MarkOrderAsPaid(id: OId) returns (r: Outcome)
      requires Valid()
      modifies this
      ensures Valid()
      ensures Step(State(), r) == PaidOn(old(State()), id)
    {
      var found := FindOrderById(id);
      if found.Err? {
        return Fail(found.error);
      }
      orders := orders[id := found.value.(status := Paid)];
      r := Pass;
    }

    /** markOrderAsFailed: the status is set in memory first and saved only
        after the restore loop has run to the end. */
    method MarkOrderAsFailed(id: OId) returns (r: Outcome)
      requires Valid()
      modifies this, products
      ensures Valid()
      ensures Step(State(), r) == FailOn(old(State()), id)
    {
      var found := FindOrderById(id);
      if found.Err? {
        return Fail(found.error);
      }
      var order := found.value.(status := Failed);
      r := RestoreItemStock(order.items);
      if r.Fail? {
        return;
      }
      orders := orders[id := order];
    }
  }
}
