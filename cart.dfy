/** The per-user cart (CartService): entries keyed by (user, product),
    checked against live stock only when they are added, changed or checked out. */
module Cart {
  import opened Common
  import opened Inventory

  /** A cart document; the cart collection is kept in its natural order. */
  datatype CartItem = CartItem(userId: UId, productId: PId, quantity: nat)

  /** One entry of getCart's answer, with the product it was priced from. */
  datatype CartLine = CartLine(item: CartItem, product: Product) {
    function Subtotal(): nat {
      product.price * item.quantity
    }
  }

  /** getCart's answer (CartResponse). */
  datatype CartView = CartView(userId: UId, lines: seq<CartLine>, totalItems: nat, totalAmount: nat)

  /** The compound unique index on (userId, productId). */
  ghost predicate UniqueKeys(s: seq<CartItem>) {
    forall i, j :: 0 <= i < j < |s| && s[i].userId == s[j].userId ==> s[i].productId != s[j].productId
  }

  /** No product occurs twice. */
  ghost predicate DistinctProducts(s: seq<CartItem>) {
    forall i, j :: 0 <= i < j < |s| ==> s[i].productId != s[j].productId
  }

  /** findByUserId: the entries of `u`, in collection order. */
  function ItemsOf(s: seq<CartItem>, u: UId): seq<CartItem> {
    if s == [] then []
    else
      ItemsOf(s[..|s| - 1], u) + (if s[|s| - 1].userId == u then [s[|s| - 1]] else [])
  }

  /** findByUserIdAndProductId: the position of the entry for (u, p), if any. */
  function IndexOf(s: seq<CartItem>, u: UId, p: PId): (r: Option<nat>)
    ensures r.Some? ==> r.value < |s| && s[r.value].userId == u && s[r.value].productId == p
    ensures r.None? ==> forall e :: e in s ==> !(e.userId == u && e.productId == p)
  {
    if s == [] then None
    else if s[0].userId == u && s[0].productId == p then Some(0)
    else
      match IndexOf(s[1..], u, p)
      case None => None
      case Some(k) => Some(k + 1)
  }

  /** The cart without the entries of `u` for the products in `ps`
      (deleteByUserIdAndProductId when `ps` is one product). */
  function DropSome(s: seq<CartItem>, u: UId, ps: set<PId>): seq<CartItem> {
    if s == [] then []
    else
      var last := s[|s| - 1];
      DropSome(s[..|s| - 1], u, ps) + (if last.userId == u && last.productId in ps then [] else [last])
  }

  /** deleteByUserId. */
  function DropUser(s: seq<CartItem>, u: UId): seq<CartItem> {
    if s == [] then []
    else
      DropUser(s[..|s| - 1], u) + (if s[|s| - 1].userId == u then [] else [s[|s| - 1]])
  }

  /** The entries whose product is still in the catalog. */
  function Kept(t: seq<CartItem>, catalog: map<PId, Product>): seq<CartItem> {
    if t == [] then []
    else
      Kept(t[..|t| - 1], catalog) + (if t[|t| - 1].productId in catalog then [t[|t| - 1]] else [])
  }

  /** The products of `u`'s entries that are gone from the catalog. */
  function Orphans(s: seq<CartItem>, u: UId, catalog: map<PId, Product>): set<PId> {
    set e | e in s && e.userId == u && e.productId !in catalog :: e.productId
  }

  function QtySum(t: seq<CartItem>): nat {
    if t == [] then 0 else QtySum(t[..|t| - 1]) + t[|t| - 1].quantity
  }

  function AmountSum(lines: seq<CartLine>): nat {
    if lines == [] then 0 else AmountSum(lines[..|lines| - 1]) + lines[|lines| - 1].Subtotal()
  }

  /** The first problem a checkout of `mine` runs into, entry by entry. */
  function FirstProblem(mine: seq<CartItem>, catalog: map<PId, Product>): Outcome {
    if mine == [] then Pass
    else if mine[0].productId !in catalog then Fail(NotFound("Product"))
    else if catalog[mine[0].productId].stock < mine[0].quantity then
      var p := catalog[mine[0].productId];
      Fail(InsufficientStock(p.name, mine[0].quantity, p.stock))
    else FirstProblem(mine[1..], catalog)
  }

  /** validateCartForCheckout's verdict on the entries `mine` of one user. */
  function CheckoutVerdict(mine: seq<CartItem>, catalog: map<PId, Product>): Outcome {
    if mine == [] then Fail(BadRequest("Cart is empty")) else FirstProblem(mine, catalog)
  }

  // ---------------------------------------------------------------------
  // Lemmas about the index and the filters

  /** findByUserId returns exactly the entries of `u`. */
  lemma {:induction false} ItemsOfMembers(s: seq<CartItem>, u: UId)
    ensures forall e :: e in ItemsOf(s, u) <==> e in s && e.userId == u
  {
    if s != [] {
      var init, last := s[..|s| - 1], s[|s| - 1];
      assert s == init + [last];
      ItemsOfMembers(init, u);
    }
  }

  /** Every entry findByUserId returns belongs to the user asked for. */
  lemma {:induction false} ItemsOfUser(s: seq<CartItem>, u: UId)
    ensures forall k :: 0 <= k < |ItemsOf(s, u)| ==> ItemsOf(s, u)[k].userId == u
  {
    if s != [] {
      ItemsOfUser(s[..|s| - 1], u);
    }
  }

  /** DropSome deletes exactly the entries of `u` for the products `ps`. */
  lemma {:induction false} DropSomeMembers(s: seq<CartItem>, u: UId, ps: set<PId>)
    ensures forall e :: e in DropSome(s, u, ps) <==> e in s && !(e.userId == u && e.productId in ps)
  {
    if s != [] {
      var init, last := s[..|s| - 1], s[|s| - 1];
      assert s == init + [last];
      DropSomeMembers(init, u, ps);
    }
  }

  /** DropUser deletes exactly the entries of `u`. */
  lemma {:induction false} DropUserMembers(s: seq<CartItem>, u: UId)
    ensures forall e :: e in DropUser(s, u) <==> e in s && e.userId != u
  {
    if s != [] {
      var init, last := s[..|s| - 1], s[|s| - 1];
      assert s == init + [last];
      DropUserMembers(init, u);
    }
  }

  lemma {:induction false} KeptMembers(t: seq<CartItem>, catalog: map<PId, Product>)
    ensures forall e :: e in Kept(t, catalog) <==> e in t && e.productId in catalog
  {
    if t != [] {
      var init, last := t[..|t| - 1], t[|t| - 1];
      assert t == init + [last];
      KeptMembers(init, catalog);
    }
  }

  lemma UniqueKeysSnoc(a: seq<CartItem>, x: CartItem)
    requires UniqueKeys(a)
    requires forall e :: e in a ==> !(e.userId == x.userId && e.productId == x.productId)
    ensures UniqueKeys(a + [x])
  {
    var s := a + [x];
    forall i, j | 0 <= i < j < |s| && s[i].userId == s[j].userId
      ensures s[i].productId != s[j].productId
    {
      if j == |a| {
        assert s[i] in a;
      }
    }
  }

  /** Under the index, no earlier entry has the key of the last one. */
  lemma UniqueKeysLast(s: seq<CartItem>)
    requires UniqueKeys(s) && s != []
    ensures UniqueKeys(s[..|s| - 1])
    ensures forall e :: e in s[..|s| - 1] ==>
      !(e.userId == s[|s| - 1].userId && e.productId == s[|s| - 1].productId)
  {
    var init := s[..|s| - 1];
    forall e | e in init
      ensures !(e.userId == s[|s| - 1].userId && e.productId == s[|s| - 1].productId)
    {
      var i :| 0 <= i < |init| && init[i] == e;
      assert s[i] == e;
    }
  }

  /** Deleting entries keeps the unique index satisfied. */
  lemma {:induction false} DropSomeUnique(s: seq<CartItem>, u: UId, ps: set<PId>)
    requires UniqueKeys(s)
    ensures UniqueKeys(DropSome(s, u, ps))
  {
    if s != [] {
      var init, last := s[..|s| - 1], s[|s| - 1];
      UniqueKeysLast(s);
      DropSomeUnique(init, u, ps);
      DropSomeMembers(init, u, ps);
      UniqueKeysSnoc(DropSome(init, u, ps), last);
      assert s == init + [last];
      DropSomeSnoc(init, last, u, ps);
    }
  }

  lemma {:induction false} DropUserUnique(s: seq<CartItem>, u: UId)
    requires UniqueKeys(s)
    ensures UniqueKeys(DropUser(s, u))
  {
    if s != [] {
      var init, last := s[..|s| - 1], s[|s| - 1];
      UniqueKeysLast(s);
      DropUserUnique(init, u);
      DropUserMembers(init, u);
      UniqueKeysSnoc(DropUser(init, u), last);
      assert s == init + [last];
      DropUserSnoc(init, last, u);
    }
  }

  lemma DistinctSnoc(a: seq<CartItem>, x: CartItem)
    requires DistinctProducts(a)
    requires forall e :: e in a ==> e.productId != x.productId
    ensures DistinctProducts(a + [x])
  {
    var s := a + [x];
    forall i, j | 0 <= i < j < |s| ensures s[i].productId != s[j].productId {
      if j == |a| {
        assert s[i] in a;
      }
    }
  }

  /** The entries of one user name each product at most once. */
  lemma {:induction false} ItemsOfDistinct(s: seq<CartItem>, u: UId)
    requires UniqueKeys(s)
    ensures DistinctProducts(ItemsOf(s, u))
  {
    if s != [] {
      var init, last := s[..|s| - 1], s[|s| - 1];
      assert s == init + [last];
      UniqueKeysLast(s);
      ItemsOfDistinct(init, u);
      ItemsOfSnoc(init, last, u);
      if last.userId == u {
        ItemsOfMembers(init, u);
        DistinctSnoc(ItemsOf(init, u), last);
      }
    }
  }

  lemma DropSomeSnoc(a: seq<CartItem>, x: CartItem, u: UId, ps: set<PId>)
    ensures x.userId == u && x.productId in ps ==> DropSome(a + [x], u, ps) == DropSome(a, u, ps)
    ensures !(x.userId == u && x.productId in ps) ==> DropSome(a + [x], u, ps) == DropSome(a, u, ps) + [x]
  {
    assert (a + [x])[..|a|] == a;
    assert DropSome(a, u, ps) + [] == DropSome(a, u, ps);
  }

  lemma DropUserSnoc(a: seq<CartItem>, x: CartItem, u: UId)
    ensures x.userId == u ==> DropUser(a + [x], u) == DropUser(a, u)
    ensures x.userId != u ==> DropUser(a + [x], u) == DropUser(a, u) + [x]
  {
    assert (a + [x])[..|a|] == a;
    assert DropUser(a, u) + [] == DropUser(a, u);
  }

  lemma ItemsOfSnoc(a: seq<CartItem>, x: CartItem, u: UId)
    ensures x.userId == u ==> ItemsOf(a + [x], u) == ItemsOf(a, u) + [x]
    ensures x.userId != u ==> ItemsOf(a + [x], u) == ItemsOf(a, u)
  {
    assert (a + [x])[..|a|] == a;
    assert ItemsOf(a, u) + [] == ItemsOf(a, u);
  }

  /** Deleting no product changes nothing. */
  lemma {:induction false} DropSomeNothing(s: seq<CartItem>, u: UId)
    ensures DropSome(s, u, {}) == s
  {
    if s != [] {
      var init, last := s[..|s| - 1], s[|s| - 1];
      assert s == init + [last];
      DropSomeNothing(init, u);
      DropSomeSnoc(init, last, u, {});
    }
  }

  /** Deleting the products `ps` and then `qs` deletes `ps + qs`. */
  lemma {:induction false} DropSomeTwice(s: seq<CartItem>, u: UId, ps: set<PId>, qs: set<PId>)
    ensures DropSome(DropSome(s, u, ps), u, qs) == DropSome(s, u, ps + qs)
  {
    if s != [] {
      var init, last := s[..|s| - 1], s[|s| - 1];
      assert s == init + [last];
      DropSomeTwice(init, u, ps, qs);
      DropSomeSnoc(init, last, u, ps);
      DropSomeSnoc(init, last, u, ps + qs);
      var d := DropSome(init, u, ps);
      if !(last.userId == u && last.productId in ps) {
        DropSomeSnoc(d, last, u, qs);
      }
    }
  }

  /** clearCart removes every entry of `u` and leaves every other user's
      entries, in order, as they were. */
  lemma {:induction false} ClearCartIsolated(s: seq<CartItem>, u: UId, v: UId)
    ensures ItemsOf(DropUser(s, u), u) == []
    ensures v != u ==> ItemsOf(DropUser(s, u), v) == ItemsOf(s, v)
  {
    if s != [] {
      var init, last := s[..|s| - 1], s[|s| - 1];
      assert s == init + [last];
      ClearCartIsolated(init, u, v);
      DropUserSnoc(init, last, u);
      ItemsOfSnoc(init, last, v);
      var d := DropUser(init, u);
      if last.userId != u {
        ItemsOfSnoc(d, last, u);
        ItemsOfSnoc(d, last, v);
      }
    }
  }

  /** After deleting the orphaned entries of `u` (any set `ps` that names
      exactly the products of `u`'s entries missing from the catalog), the
      entries of `u` left are those whose product exists, in order. */
  lemma {:induction false} PrunedEntries(s: seq<CartItem>, u: UId, ps: set<PId>, catalog: map<PId, Product>)
    requires forall e :: e in s && e.userId == u ==> (e.productId in ps <==> e.productId !in catalog)
    ensures ItemsOf(DropSome(s, u, ps), u) == Kept(ItemsOf(s, u), catalog)
  {
    if s != [] {
      var init, last := s[..|s| - 1], s[|s| - 1];
      assert s == init + [last];
      PrunedEntries(init, u, ps, catalog);
      var d := DropSome(init, u, ps);
      var m := ItemsOf(init, u);
      DropSomeSnoc(init, last, u, ps);
      ItemsOfSnoc(init, last, u);
      if last.userId == u {
        KeptSnoc(m, last, catalog);
        if last.productId in catalog {
          ItemsOfSnoc(d, last, u);
        }
      } else {
        ItemsOfSnoc(d, last, u);
      }
    }
  }

  lemma OrphansSnoc(a: seq<CartItem>, x: CartItem, u: UId, catalog: map<PId, Product>)
    ensures x.userId == u && x.productId !in catalog ==>
      Orphans(a + [x], u, catalog) == Orphans(a, u, catalog) + {x.productId}
    ensures !(x.userId == u && x.productId !in catalog) ==>
      Orphans(a + [x], u, catalog) == Orphans(a, u, catalog)
  {
  }

  /** What getCart leaves behind: the orphaned entries of `u` are gone, the
      ones left are those whose product exists, in order, and no other
      entry is touched. */
  lemma PruneOrphans(s: seq<CartItem>, u: UId, catalog: map<PId, Product>)
    ensures Orphans(ItemsOf(s, u), u, catalog) == Orphans(s, u, catalog)
    ensures ItemsOf(DropSome(s, u, Orphans(s, u, catalog)), u) == Kept(ItemsOf(s, u), catalog)
    ensures forall e :: e in DropSome(s, u, Orphans(s, u, catalog)) <==>
      e in s && !(e.userId == u && e.productId !in catalog)
  {
    ItemsOfMembers(s, u);
    PrunedEntries(s, u, Orphans(s, u, catalog), catalog);
    DropSomeMembers(s, u, Orphans(s, u, catalog));
  }

  /** `lines` reports the entries `kept`, one by one, each with its product. */
  ghost predicate LinesFor(lines: seq<CartLine>, kept: seq<CartItem>, catalog: map<PId, Product>) {
    |lines| == |kept| &&
    forall k :: 0 <= k < |lines| ==>
      lines[k].item == kept[k] && lines[k].item.productId in catalog &&
      lines[k].product == catalog[lines[k].item.productId]
  }

  lemma LinesForSnoc(lines: seq<CartLine>, kept: seq<CartItem>, catalog: map<PId, Product>, x: CartItem)
    requires LinesFor(lines, kept, catalog) && x.productId in catalog
    ensures LinesFor(lines + [CartLine(x, catalog[x.productId])], kept + [x], catalog)
  {
  }

  lemma KeptSnoc(a: seq<CartItem>, x: CartItem, catalog: map<PId, Product>)
    ensures x.productId in catalog ==> Kept(a + [x], catalog) == Kept(a, catalog) + [x]
    ensures x.productId !in catalog ==> Kept(a + [x], catalog) == Kept(a, catalog)
  {
    assert (a + [x])[..|a|] == a;
    assert Kept(a, catalog) + [] == Kept(a, catalog);
  }

  lemma QtySumSnoc(a: seq<CartItem>, x: CartItem)
    ensures QtySum(a + [x]) == QtySum(a) + x.quantity
  {
    assert (a + [x])[..|a|] == a;
  }

  lemma AmountSumSnoc(a: seq<CartLine>, x: CartLine)
    ensures AmountSum(a + [x]) == AmountSum(a) + x.Subtotal()
  {
    assert (a + [x])[..|a|] == a;
  }

  // ---------------------------------------------------------------------
  // Lemmas about the checkout verdict

  /** A checkout passes exactly when the cart is non-empty and every entry's
      product exists with at least that much stock. */
  lemma {:induction false} FirstProblemPass(mine: seq<CartItem>, catalog: map<PId, Product>)
    ensures FirstProblem(mine, catalog) == Pass <==>
      forall e :: e in mine ==> e.productId in catalog && catalog[e.productId].stock >= e.quantity
  {
    if mine != [] {
      FirstProblemPass(mine[1..], catalog);
      assert mine == [mine[0]] + mine[1..];
    }
  }

  lemma CheckoutPassIff(mine: seq<CartItem>, catalog: map<PId, Product>)
    ensures CheckoutVerdict(mine, catalog) == Pass <==>
      mine != [] &&
      forall e :: e in mine ==> e.productId in catalog && catalog[e.productId].stock >= e.quantity
  {
    FirstProblemPass(mine, catalog);
  }

  /** FirstProblem never reports a bad request; an insufficient-stock
      failure names an entry whose quantity exceeds the stock, with that
      entry's quantity and the product's stock. */
  lemma {:induction false} FirstProblemKinds(mine: seq<CartItem>, catalog: map<PId, Product>)
    ensures !(FirstProblem(mine, catalog).Fail? && FirstProblem(mine, catalog).error.BadRequest?)
    ensures FirstProblem(mine, catalog).Fail? && FirstProblem(mine, catalog).error.InsufficientStock? ==>
      exists e :: e in mine && e.productId in catalog && catalog[e.productId].stock < e.quantity &&
        FirstProblem(mine, catalog).error ==
          InsufficientStock(catalog[e.productId].name, e.quantity, catalog[e.productId].stock)
  {
    if mine != [] && mine[0].productId in catalog && catalog[mine[0].productId].stock >= mine[0].quantity {
      FirstProblemKinds(mine[1..], catalog);
      var r := FirstProblem(mine, catalog);
      if r.Fail? && r.error.InsufficientStock? {
        var e :| e in mine[1..] && e.productId in catalog && catalog[e.productId].stock < e.quantity &&
          r.error == InsufficientStock(catalog[e.productId].name, e.quantity, catalog[e.productId].stock);
        assert e in mine;
      }
    }
  }

  /** validateCartForCheckout fails with BadRequest exactly when the user's
      cart is empty; when every product still exists it fails with
      InsufficientStock exactly when some entry asks for more than the stock. */
  lemma {:induction false} CheckoutFailureKinds(mine: seq<CartItem>, catalog: map<PId, Product>)
    ensures (CheckoutVerdict(mine, catalog).Fail? && CheckoutVerdict(mine, catalog).error.BadRequest?) <==> mine == []
    ensures (forall e :: e in mine ==> e.productId in catalog) ==>
      ((CheckoutVerdict(mine, catalog).Fail? && CheckoutVerdict(mine, catalog).error.InsufficientStock?) <==>
        (mine != [] && exists e :: e in mine && catalog[e.productId].stock < e.quantity))
  {
    FirstProblemKinds(mine, catalog);
    FirstProblemPass(mine, catalog);
    if mine != [] && (forall e :: e in mine ==> e.productId in catalog) {
      NoNotFound(mine, catalog);
    }
  }

  lemma {:induction false} NoNotFound(mine: seq<CartItem>, catalog: map<PId, Product>)
    requires forall e :: e in mine ==> e.productId in catalog
    ensures FirstProblem(mine, catalog).Pass? || FirstProblem(mine, catalog).error.InsufficientStock?
  {
    if mine != [] {
      assert mine[0] in mine;
      if catalog[mine[0].productId].stock >= mine[0].quantity {
        forall e | e in mine[1..] ensures e.productId in catalog {
          assert e in mine;
        }
        NoNotFound(mine[1..], catalog);
      }
    }
  }

  class CartService {
    var items: seq<CartItem>
    const products: ProductService

    ghost predicate Valid()
      reads this
    {
      UniqueKeys(items)
    }

    constructor (products: ProductService)
      ensures Valid() && this.products == products && items == []
    {
      this.products := products;
      items := [];
    }

    /** addToCart: checks the requested quantity against the stock, then
        merges with an existing entry, checking the merged quantity too. */
    method AddToCart(u: UId, p: PId, quantity: nat) returns (r: Result<CartItem>)
      requires Valid() && quantity >= 1
      modifies this
      ensures Valid()
      ensures p !in products.products ==> r == Err(NotFound("Product")) && items == old(items)
      ensures p in products.products ==>
        var product := products.products[p];
        var at := IndexOf(old(items), u, p);
        if product.stock < quantity then
          r == Err(InsufficientStock(product.name, quantity, product.stock)) && items == old(items)
        else if at.Some? then
          var merged := old(items)[at.value].quantity + quantity;
          if product.stock < merged then
            r == Err(InsufficientStock(product.name, merged, product.stock)) && items == old(items)
          else
            r == Ok(CartItem(u, p, merged)) && items == old(items)[at.value := r.value]
        else
          r == Ok(CartItem(u, p, quantity)) && items == old(items) + [r.value]
    {
      var found := products.FindProductById(p);
      if found.Err? {
        return Err(found.error);
      }
      var product := found.value;
      if product.stock < quantity {
        return Err(InsufficientStock(product.name, quantity, product.stock));
      }
      var existing := IndexOf(items, u, p);
      var item: CartItem;
      if existing.Some? {
        var newQuantity := items[existing.value].quantity + quantity;
        if product.stock < newQuantity {
          return Err(InsufficientStock(product.name, newQuantity, product.stock));
        }
        item := CartItem(u, p, newQuantity);
        items := items[existing.value := item];
      } else {
        item := CartItem(u, p, quantity);
        UniqueKeysSnoc(items, item);
        items := items + [item];
      }
      r := Ok(item);
    }

    /** getCart: reports the entries of `u` whose product exists, deletes the
        others, and totals quantities and amounts over the entries kept. */
    method GetCart(u: UId) returns (view: CartView)
      requires Valid()
      modifies this
      ensures Valid()
      ensures items == DropSome(old(items), u, Orphans(old(items), u, products.products))
      ensures forall e :: e in items && e.userId == u ==> e.productId in products.products
      ensures view.userId == u
      ensures |view.lines| == |ItemsOf(items, u)|
      ensures forall k :: 0 <= k < |view.lines| ==>
        view.lines[k].item == ItemsOf(items, u)[k] &&
        view.lines[k].item.productId in products.products &&
        view.lines[k].product == products.products[view.lines[k].item.productId]
      ensures view.totalItems == QtySum(ItemsOf(items, u))
      ensures view.totalAmount == AmountSum(view.lines)
    {
      var catalog := products.products;
      var mine := ItemsOf(items, u);
      var lines: seq<CartLine> := [];
      var totalAmount := 0;
      var totalItems := 0;
      var i := 0;
      DropSomeNothing(items, u);
      assert Orphans(mine[..0], u, catalog) == {};
      ItemsOfUser(items, u);
      while i < |mine|
        invariant 0 <= i <= |mine|
        invariant UniqueKeys(items)
        invariant items == DropSome(old(items), u, Orphans(mine[..i], u, catalog))
        invariant LinesFor(lines, Kept(mine[..i], catalog), catalog)
        invariant totalItems == QtySum(Kept(mine[..i], catalog))
        invariant totalAmount == AmountSum(lines)
      {
        var item := mine[i];
        assert mine[..i + 1] == mine[..i] + [item];
        KeptSnoc(mine[..i], item, catalog);
        OrphansSnoc(mine[..i], item, u, catalog);
        var found := products.FindProductById(item.productId);
        if found.Ok? {
          var line := CartLine(item, found.value);
          LinesForSnoc(lines, Kept(mine[..i], catalog), catalog, item);
          AmountSumSnoc(lines, line);
          QtySumSnoc(Kept(mine[..i], catalog), item);
          lines := lines + [line];
          totalAmount := totalAmount + line.Subtotal();
          totalItems := totalItems + item.quantity;
        } else {
          // the product was deleted: the entry goes too
          DropSomeTwice(old(items), u, Orphans(mine[..i], u, catalog), {item.productId});
          DropSomeUnique(items, u, {item.productId});
          items := DropSome(items, u, {item.productId});
        }
        i := i + 1;
      }
      assert mine[..i] == mine;
      PruneOrphans(old(items), u, catalog);
      view := CartView(u, lines, totalItems, totalAmount);
    }

    /** updateCartItem: replaces (does not add to) the quantity of an
        existing entry, checked against the stock. */
    method UpdateCartItem(u: UId, p: PId, quantity: nat) returns (r: Result<CartItem>)
      requires Valid()
      modifies this
      ensures Valid()
      ensures IndexOf(old(items), u, p).None? ==> r == Err(NotFound("Cart item")) && items == old(items)
      ensures IndexOf(old(items), u, p).Some? ==>
        var at := IndexOf(old(items), u, p).value;
        if p !in products.products then
          r == Err(NotFound("Product")) && items == old(items)
        else if products.products[p].stock < quantity then
          r == Err(InsufficientStock(products.products[p].name, quantity, products.products[p].stock)) &&
          items == old(items)
        else
          r == Ok(CartItem(u, p, quantity)) && items == old(items)[at := r.value]
    {
      var existing := IndexOf(items, u, p);
      if existing.None? {
        return Err(NotFound("Cart item"));
      }
      var found := products.FindProductById(p);
      if found.Err? {
        return Err(found.error);
      }
      var product := found.value;
      if product.stock < quantity {
        return Err(InsufficientStock(product.name, quantity, product.stock));
      }
      var item := CartItem(u, p, quantity);
      items := items[existing.value := item];
      r := Ok(item);
    }

    /** removeFromCart: deletes exactly the entry for (u, p). */
    method RemoveFromCart(u: UId, p: PId) returns (r: Outcome)
      requires Valid()
      modifies this
      ensures Valid()
      ensures r.Fail? <==> IndexOf(old(items), u, p).None?
      ensures r.Fail? ==> r.error == NotFound("Cart item") && items == old(items)
      ensures r.Pass? ==> items == DropSome(old(items), u, {p})
    {
      if IndexOf(items, u, p).None? {
        return Fail(NotFound("Cart item"));
      }
      DropSomeUnique(items, u, {p});
      items := DropSome(items, u, {p});
      r := Pass;
    }

    /** clearCart (see ClearCartIsolated). */
    method ClearCart(u: UId)
      requires Valid()
      modifies this
      ensures Valid()
      ensures items == DropUser(old(items), u)
    {
      DropUserUnique(items, u);
      items := DropUser(items, u);
    }

    /** getCartItems. */
    function GetCartItems(u: UId): (r: seq<CartItem>)
      reads this
      ensures forall e :: e in r <==> e in items && e.userId == u
    {
      ItemsOfMembers(items, u);
      ItemsOf(items, u)
    }

    /** isCartEmpty: countByUserId(u) == 0. */
    function IsCartEmpty(u: UId): (r: bool)
      reads this
      ensures r <==> forall e :: e in items ==> e.userId != u
    {
      var mine := ItemsOf(items, u);
      ItemsOfMembers(items, u);
      assert mine != [] ==> mine[0] in mine;
      |mine| == 0
    }

    /** validateCartForCheckout: reads only; fails on an empty cart, else on
        the first entry whose product is gone or short of stock. */
    method ValidateCartForCheckout(u: UId) returns (r: Outcome)
      ensures r == CheckoutVerdict(ItemsOf(items, u), products.products)
    {
      var mine := ItemsOf(items, u);
      if |mine| == 0 {
        return Fail(BadRequest("Cart is empty"));
      }
      var i := 0;
      while i < |mine|
        invariant 0 <= i <= |mine|
        invariant FirstProblem(mine[i..], products.products) == FirstProblem(mine, products.products)
      {
        var item := mine[i];
        var found := products.FindProductById(item.productId);
        if found.Err? {
          return Fail(found.error);
        }
        var product := found.value;
        if product.stock < item.quantity {
          return Fail(InsufficientStock(product.name, item.quantity, product.stock));
        }
        assert mine[i..][1..] == mine[i + 1..];
        i := i + 1;
      }
      r := Pass;
    }
  }
}
