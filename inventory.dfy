/** The product catalog and its stock counters (ProductService). */
module Inventory {
  import opened Common

  /** A catalog entry; `price` is in minor currency units. */
  datatype Product = Product(
    id: PId,
    name: string,
    description: string,
    price: nat,
    stock: nat,
    category: string,
    imageUrl: string,
    active: bool)

  /** What a create request supplies. */
  datatype NewProduct = NewProduct(
    name: string,
    description: string,
    price: nat,
    stock: nat,
    category: string,
    imageUrl: string)

  /** A partial update: `None` is a field the request leaves null. */
  datatype ProductUpdate = ProductUpdate(
    name: Option<string>,
    description: Option<string>,
    price: Option<nat>,
    stock: Option<nat>,
    category: Option<string>,
    imageUrl: Option<string>,
    active: Option<bool>)

  /** The catalog after `updateStock(id, delta)`: the stock of `id` moves by
      `delta` and is clamped at zero; nothing else changes. */
  function Adjusted(catalog: map<PId, Product>, id: PId, delta: int): (r: map<PId, Product>)
    requires id in catalog
    ensures r.Keys == catalog.Keys
    ensures r[id].stock == Max0(catalog[id].stock + delta)
    ensures r[id] == catalog[id].(stock := r[id].stock)
    ensures forall other :: other in catalog && other != id ==> r[other] == catalog[other]
  {
    catalog[id := catalog[id].(stock := Max0(catalog[id].stock + delta))]
  }

  /** The stored product after a partial update. */
  function Merge(p: Product, u: ProductUpdate): Product {
    p.(name := u.name.GetOr(p.name),
       description := u.description.GetOr(p.description),
       price := u.price.GetOr(p.price),
       stock := u.stock.GetOr(p.stock),
       category := u.category.GetOr(p.category),
       imageUrl := u.imageUrl.GetOr(p.imageUrl),
       active := u.active.GetOr(p.active))
  }

  const NoChange := ProductUpdate(None, None, None, None, None, None, None)

  /** An update that supplies no field leaves the product as it was. */
  lemma MergeNoChange(p: Product)
    ensures Merge(p, NoChange) == p
  {
  }

  /** Applying the same update twice is the same as applying it once, and
      the id is never touched. */
  lemma MergeIdempotent(p: Product, u: ProductUpdate)
    ensures Merge(Merge(p, u), u) == Merge(p, u)
    ensures Merge(p, u).id == p.id
  {
  }

  /** A second update overrides exactly the fields it supplies. */
  lemma MergeLaterWins(p: Product, u: ProductUpdate, v: ProductUpdate)
    ensures Merge(Merge(p, u), v).name == (if v.name.Some? then v.name.value else Merge(p, u).name)
    ensures Merge(Merge(p, u), v).description ==
      (if v.description.Some? then v.description.value else Merge(p, u).description)
    ensures Merge(Merge(p, u), v).price == (if v.price.Some? then v.price.value else Merge(p, u).price)
    ensures Merge(Merge(p, u), v).stock == (if v.stock.Some? then v.stock.value else Merge(p, u).stock)
    ensures Merge(Merge(p, u), v).category ==
      (if v.category.Some? then v.category.value else Merge(p, u).category)
    ensures Merge(Merge(p, u), v).imageUrl ==
      (if v.imageUrl.Some? then v.imageUrl.value else Merge(p, u).imageUrl)
    ensures Merge(Merge(p, u), v).active == (if v.active.Some? then v.active.value else Merge(p, u).active)
    ensures Merge(Merge(p, u), v).id == p.id
    ensures v == NoChange ==> Merge(Merge(p, u), v) == Merge(p, u)
  {
  }

  class ProductService {
    var products: map<PId, Product>

    /** Every stored product is stored under its own id. */
    ghost predicate Valid()
      reads this
    {
      forall id :: id in products ==> products[id].id == id
    }

    constructor ()
      ensures Valid() && products == map[]
    {
      products := map[];
    }

    /** createProduct: the store mints the fresh id `id`; the product is
        always stored active. */
    method CreateProduct(id: PId, request: NewProduct) returns (p: Product)
      requires Valid() && id !in products
      modifies this
      ensures Valid()
      ensures p.active && p.id == id
      ensures p == Product(id, request.name, request.description, request.price,
                           request.stock, request.category, request.imageUrl, true)
      ensures products == old(products)[id := p]
    {
      p := Product(id, request.name, request.description, request.price,
                   request.stock, request.category, request.imageUrl, true);
      products := products[id := p];
    }

    /** findProductById: the stored product, or NotFound. */
    function FindProductById(id: PId): (r: Result<Product>)
      reads this
      ensures r.Ok? <==> id in products
      ensures r.Ok? ==> r.value == products[id]
      ensures r.Err? ==> r.error == NotFound("Product")
    {
      if id in products then Ok(products[id]) else Err(NotFound("Product"))
    }

    /** hasEnoughStock: a point-in-time check that reads nothing but `id`. */
    function HasEnoughStock(id: PId, required: int): (r: Result<bool>)
      reads this
      ensures r.Err? <==> id !in products
      ensures r.Err? ==> r.error == NotFound("Product")
      ensures r.Ok? ==> (r.value <==> products[id].stock >= required)
    {
      match FindProductById(id)
      case Err(e) => Err(e)
      case Ok(p) => Ok(p.stock >= required)
    }

    /** updateProduct: the fields the request supplies replace the stored
        ones, one by one; the absent ones are kept. */
    method UpdateProduct(id: PId, request: ProductUpdate) returns (r: Result<Product>)
      requires Valid()
      modifies this
      ensures Valid()
      ensures id !in old(products) ==> r == Err(NotFound("Product")) && products == old(products)
      ensures id in old(products) ==>
        r == Ok(Merge(old(products)[id], request)) && products == old(products)[id := r.value]
    {
      var found := FindProductById(id);
      if found.Err? {
        return Err(found.error);
      }
      var p := found.value;
      // `stored` is the record as read; after each step `p` is `stored` with
      // the fields handled so far merged in.
      ghost var stored := p;
      if request.name.Some? {
        p := p.(name := request.name.value);
      }
      if request.description.Some? {
        p := p.(description := request.description.value);
      }
      assert p == stored.(name := request.name.GetOr(stored.name),
                          description := request.description.GetOr(stored.description));
      if request.price.Some? {
        p := p.(price := request.price.value);
      }
      if request.stock.Some? {
        p := p.(stock := request.stock.value);
      }
      assert p == stored.(name := request.name.GetOr(stored.name),
                          description := request.description.GetOr(stored.description),
                          price := request.price.GetOr(stored.price),
                          stock := request.stock.GetOr(stored.stock));
      if request.category.Some? {
        p := p.(category := request.category.value);
      }
      if request.imageUrl.Some? {
        p := p.(imageUrl := request.imageUrl.value);
      }
      assert p == stored.(name := request.name.GetOr(stored.name),
                          description := request.description.GetOr(stored.description),
                          price := request.price.GetOr(stored.price),
                          stock := request.stock.GetOr(stored.stock),
                          category := request.category.GetOr(stored.category),
                          imageUrl := request.imageUrl.GetOr(stored.imageUrl));
      if request.active.Some? {
        p := p.(active := request.active.value);
      }
      assert p == stored.(name := request.name.GetOr(stored.name),
                          description := request.description.GetOr(stored.description),
                          price := request.price.GetOr(stored.price),
                          stock := request.stock.GetOr(stored.stock),
                          category := request.category.GetOr(stored.category),
                          imageUrl := request.imageUrl.GetOr(stored.imageUrl),
                          active := request.active.GetOr(stored.active));
      products := products[id := p];
      r := Ok(p);
    }

    /** deleteProduct: guarded by existence. */
    method DeleteProduct(id: PId) returns (r: Outcome)
      requires Valid()
      modifies this
      ensures Valid()
      ensures r.Fail? <==> id !in old(products)
      ensures r.Fail? ==> r.error == NotFound("Product") && products == old(products)
      ensures r.Pass? ==> products == old(products) - {id} && id !in products
    {
      if id !in products {
        return Fail(NotFound("Product"));
      }
      products := products - {id};
      r := Pass;
    }

    /** updateStock: stock becomes max(0, stock + delta); every other product
        and every other field is left alone. */
    method UpdateStock(id: PId, delta: int) returns (r: Outcome)
      requires Valid()
      modifies this
      ensures Valid()
      ensures r.Fail? <==> id !in old(products)
      ensures r.Fail? ==> r.error == NotFound("Product") && products == old(products)
      ensures r.Pass? ==> products == Adjusted(old(products), id, delta)
    {
      var found := FindProductById(id);
      if found.Err? {
        return Fail(found.error);
      }
      var p := found.value;
      var newStock := p.stock + delta;
      products := products[id := p.(stock := Max0(newStock))];
      r := Pass;
    }
  }
}
