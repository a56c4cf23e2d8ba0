/** The inventory ledger: ProductsService, its product table and the
    `products:*` entries it keeps in the shared cache. Prices are whole cents
    (the price column is numeric(10,2)). */
module Catalog {
  import opened Common

  datatype Product = Product(
    id: Id,
    name: string,
    description: string,
    price: int,        // cents
    stock: int,
    categoryId: string,
    isActive: bool)

  /** The fields a new product is created from. */
  datatype ProductDraft = ProductDraft(
    name: string,
    description: string,
    price: int,
    stock: int,
    categoryId: string,
    isActive: bool)

  /** A partial update: `None` leaves a field as it is. */
  datatype ProductPatch = ProductPatch(
    name: Option<string>,
    description: Option<string>,
    price: Option<int>,
    stock: Option<int>,
    categoryId: Option<string>,
    isActive: Option<bool>)

  function Pick<T>(supplied: Option<T>, current: T): T
  {
    if supplied.Some? then supplied.value else current
  }

  /** A product after `repository.update(id, patch)`: supplied fields are
      overwritten, the others and the id keep their values. */
  function Patched(p: Product, patch: ProductPatch): (r: Product)
    ensures r.id == p.id
    ensures patch.name.None? ==> r.name == p.name
    ensures patch.description.None? ==> r.description == p.description
    ensures patch.price.None? ==> r.price == p.price
    ensures patch.stock.None? ==> r.stock == p.stock
    ensures patch.categoryId.None? ==> r.categoryId == p.categoryId
    ensures patch.isActive.None? ==> r.isActive == p.isActive
    ensures patch.name.Some? ==> r.name == patch.name.value
    ensures patch.description.Some? ==> r.description == patch.description.value
    ensures patch.price.Some? ==> r.price == patch.price.value
    ensures patch.stock.Some? ==> r.stock == patch.stock.value
    ensures patch.categoryId.Some? ==> r.categoryId == patch.categoryId.value
    ensures patch.isActive.Some? ==> r.isActive == patch.isActive.value
  {
    Product(p.id, Pick(patch.name, p.name), Pick(patch.description, p.description),
            Pick(patch.price, p.price), Pick(patch.stock, p.stock),
            Pick(patch.categoryId, p.categoryId), Pick(patch.isActive, p.isActive))
  }

  /** The `{ stock }` patch checkout sends: it sets the stock and nothing else. */
  function StockPatch(stock: int): (patch: ProductPatch)
    ensures patch.stock == Some(stock)
    ensures patch.name.None? && patch.description.None? && patch.price.None?
    ensures patch.categoryId.None? && patch.isActive.None?
  {
    ProductPatch(None, None, None, Some(stock), None, None)
  }

  /** The store's products with id below `bound`. `repository.find()` asks for
      no order, so the database may return the rows in any order; the model
      lists them by id. */
  function Listing(products: map<Id, Product>, bound: nat): (r: seq<Product>)
    ensures forall p :: p in r ==> p in products.Values
    ensures forall k :: k in products && k < bound ==> products[k] in r
  {
    if bound == 0 then []
    else Listing(products, bound - 1)
         + (if bound - 1 in products then [products[bound - 1]] else [])
  }

  /** The cache key `findAll` uses. */
  const AllProductsKey: string := "products:all"

  /** Keys matched by the pattern `products:*`. */
  predicate IsProductsKey(key: string)
  {
    |key| >= 9 && key[..9] == "products:"
  }

  /** The cache after `delPattern('products:*')`: every `products:` entry is
      gone and every other entry is kept as it was. */
  function Invalidated(cache: map<string, seq<Product>>): (r: map<string, seq<Product>>)
    ensures forall key :: key in r <==> key in cache && !IsProductsKey(key)
    ensures forall key :: key in r ==> r[key] == cache[key]
  {
    map key | key in cache && !IsProductsKey(key) :: cache[key]
  }

  class ProductsService {
    var products: map<Id, Product>
    var nextId: Id
    var cache: map<string, seq<Product>>

    /** Each product is stored under its own id, below the next fresh id, and
        every cached `products:` list is the store's current listing: the
        writes below clear those entries, so no list goes stale. */
    ghost predicate Valid()
      reads this
    {
      && (forall k :: k in products ==> k < nextId && products[k].id == k)
      && (forall key :: key in cache && IsProductsKey(key) ==> cache[key] == Listing(products, nextId))
    }

    constructor ()
      ensures Valid() && products == map[] && cache == map[]
    {
      products, nextId, cache := map[], 0, map[];
    }

    /** The product with that id, or NotFound. */
    function FindOne(id: Id): (r: Result<Product>)
      reads this
      ensures r.Ok? <==> id in products
      ensures r.Ok? ==> r.value == products[id]
      ensures r.Err? ==> r.error == NotFound("Product")
    {
      if id in products then Ok(products[id]) else Err(NotFound("Product"))
    }

    /** Every product: the cached list under `products:all` when there is one,
        otherwise the store's list, which is then cached. */
    method FindAll() returns (r: seq<Product>)
      requires Valid()
      modifies this`cache
      ensures Valid()
      ensures r == Listing(products, nextId)
      ensures forall p :: p in r <==> p in products.Values
      ensures cache == if AllProductsKey in old(cache) then old(cache) else old(cache)[AllProductsKey := r]
    {
      assert IsProductsKey(AllProductsKey);
      if AllProductsKey in cache {
        return cache[AllProductsKey];
      }
      r := Listing(products, nextId);
      cache := cache[AllProductsKey := r];
    }

    /** Store a new product under a fresh id and clear the product lists. */
    method Create(draft: ProductDraft) returns (p: Product)
      requires Valid()
      modifies this
      ensures Valid() && nextId == old(nextId) + 1
      ensures p == Product(old(nextId), draft.name, draft.description, draft.price,
                           draft.stock, draft.categoryId, draft.isActive)
      ensures p.id !in old(products) && products == old(products)[p.id := p]
      ensures FindOne(p.id) == Ok(p)
      ensures cache == Invalidated(old(cache))
    {
      p := Product(nextId, draft.name, draft.description, draft.price,
                   draft.stock, draft.categoryId, draft.isActive);
      cache := Invalidated(cache);
      products := products[p.id := p];
      nextId := nextId + 1;
    }

    /** Overwrite the supplied fields of a product, clear the product lists and
        re-read it; NotFound when no product has that id. */
    method Update(id: Id, patch: ProductPatch) returns (r: Result<Product>)
      requires Valid()
      modifies this
      ensures Valid() && nextId == old(nextId)
      ensures products == if id in old(products) then old(products)[id := Patched(old(products)[id], patch)]
                          else old(products)
      ensures r == FindOne(id)
      ensures cache == Invalidated(old(cache))
    {
      if id in products {
        products := products[id := Patched(products[id], patch)];
      }
      cache := Invalidated(cache);
      r := FindOne(id);
    }

    /** Delete a product, if present, and clear the product lists. */
    method Remove(id: Id)
      requires Valid()
      modifies this
      ensures Valid() && nextId == old(nextId)
      ensures products == old(products) - {id}
      ensures FindOne(id).Err?
      ensures forall k :: k != id ==> FindOne(k) == old(FindOne(k))
      ensures cache == Invalidated(old(cache))
    {
      products := products - {id};
      cache := Invalidated(cache);
    }
  }

  /** Applying the stock patch to a product changes its stock and nothing else. */
  lemma {:induction false} StockPatchOnlyStock(p: Product, stock: int)
    ensures Patched(p, StockPatch(stock)) == p.(stock := stock)
  {
  }

  /** Clearing the product lists twice is clearing them once. */
  lemma {:induction false} InvalidatedTwice(cache: map<string, seq<Product>>)
    ensures Invalidated(Invalidated(cache)) == Invalidated(cache)
  {
  }

  /** After any write, a `findAll` misses the cache and reads the store. */
  lemma {:induction false} NoProductListAfterWrite(cache: map<string, seq<Product>>)
    ensures AllProductsKey !in Invalidated(cache)
  {
    assert IsProductsKey(AllProductsKey);
  }
}
