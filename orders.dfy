/** The order engine: OrdersService turns a user's cart into an order with
    frozen-price line items, lowers stock and clears the cart. The checkout's
    validation loop is PriceCart; the functions before it state what that
    loop, the stock writes and the item rows amount to. */
module Orders {
  import opened Common
  import opened Cart
  import opened Catalog

  /** `pending` and `confirmed` are the statuses the services write; every
      other value of the status enum is only ever set by an administrator.
      `Other` names one of those other values: it never carries "pending" or
      "confirmed", so each enum value has exactly one representation. */
  datatype OrderStatus = Pending | Confirmed | Other(name: string)

  datatype Order = Order(id: Id, userId: UserId, totalAmount: int, shippingAddress: string, status: OrderStatus)

  /** An order line: quantity and price (cents) frozen at checkout. */
  datatype OrderItem = OrderItem(id: Id, orderId: Id, productId: Id, quantity: int, price: int)

  /** A cart row with its `product` relation loaded; `None` when the row's
      product is not in the store. */
  datatype CartLine = CartLine(row: CartItem, product: Option<Product>)

  /** An entry of the checkout's item list before the order row exists. */
  datatype LineDraft = LineDraft(productId: Id, quantity: int, price: int)

  /** What the validation loop produces: the item list and the running total. */
  datatype Priced = Priced(drafts: seq<LineDraft>, total: int)

  /** The cart rows joined with the current products. */
  function Join(rows: seq<CartItem>, products: map<Id, Product>): seq<CartLine>
  {
    seq(|rows|, i requires 0 <= i < |rows| =>
      CartLine(rows[i], if rows[i].productId in products then Some(products[rows[i].productId]) else None))
  }

  /** Why one line cannot be bought: its product is missing (dereferencing the
      null relation throws) or it has less stock than the quantity. */
  function LineError(line: CartLine): Option<Error>
  {
    if line.product.None? then Some(ProductMissing)
    else if line.product.value.stock < line.row.quantity then Some(InsufficientStock(line.product.value.name))
    else None
  }

  predicate Joined(lines: seq<CartLine>)
  {
    forall i :: 0 <= i < |lines| ==> lines[i].product.Some?
  }

  /** The error the checkout stops at: that of the first line that fails. */
  function FirstError(lines: seq<CartLine>): (e: Option<Error>)
    ensures e.None? <==> forall i :: 0 <= i < |lines| ==> LineError(lines[i]).None?
    ensures e.None? ==> Joined(lines)
    ensures e.Some? ==> exists i :: 0 <= i < |lines| && e == LineError(lines[i])
                                    && forall j :: 0 <= j < i ==> LineError(lines[j]).None?
  {
    if lines == [] then None
    else
      var init := lines[..|lines| - 1];
      assert forall j :: 0 <= j < |init| ==> init[j] == lines[j];
      var e := FirstError(init);
      if e.Some? then e else LineError(lines[|lines| - 1])
  }

  /** The item entry of a line that passed the stock check. */
  function Draft(line: CartLine): LineDraft
    requires line.product.Some?
  {
    LineDraft(line.row.productId, line.row.quantity, line.product.value.price)
  }

  function Drafts(lines: seq<CartLine>): seq<LineDraft>
    requires Joined(lines)
  {
    seq(|lines|, i requires 0 <= i < |lines| => Draft(lines[i]))
  }

  /** Σ price × quantity over the entries. */
  function DraftTotal(drafts: seq<LineDraft>): int
  {
    if drafts == [] then 0
    else DraftTotal(drafts[..|drafts| - 1]) + drafts[|drafts| - 1].price * drafts[|drafts| - 1].quantity
  }

  /** The item rows saved for order `orderId`, ids from `firstId` on. */
  function MakeItems(drafts: seq<LineDraft>, orderId: Id, firstId: Id): seq<OrderItem>
  {
    seq(|drafts|, i requires 0 <= i < |drafts| =>
      OrderItem(firstId + i, orderId, drafts[i].productId, drafts[i].quantity, drafts[i].price))
  }

  function BelongsTo(orderId: Id): OrderItem -> bool
  {
    (item: OrderItem) => item.orderId == orderId
  }

  /** The items of one order: the `items` relation. */
  function ItemsOf(items: seq<OrderItem>, orderId: Id): seq<OrderItem>
  {
    Filter(items, BelongsTo(orderId))
  }

  /** Σ price × quantity over the item rows. */
  function ItemsTotal(items: seq<OrderItem>): int
  {
    if items == [] then 0
    else ItemsTotal(items[..|items| - 1]) + items[|items| - 1].price * items[|items| - 1].quantity
  }

  /** The saved items add up to the total computed while validating. */
  lemma {:induction false} ItemsTotalOfMade(drafts: seq<LineDraft>, orderId: Id, firstId: Id)
    ensures ItemsTotal(MakeItems(drafts, orderId, firstId)) == DraftTotal(drafts)
  {
    if drafts != [] {
      var n := |drafts|;
      var made := MakeItems(drafts, orderId, firstId);
      assert made[..n - 1] == MakeItems(drafts[..n - 1], orderId, firstId);
      ItemsTotalOfMade(drafts[..n - 1], orderId, firstId);
    }
  }

  /** The order table's invariant: ids are positions, every item belongs to an
      existing order, and every order's total is the sum of its items. */
  ghost predicate TablesOk(orders: seq<Order>, items: seq<OrderItem>)
  {
    OrderIdsOk(orders) && ItemRefsOk(items, |orders|) && TotalsOk(orders, items)
  }

  ghost predicate OrderIdsOk(orders: seq<Order>)
  {
    forall i :: 0 <= i < |orders| ==> orders[i].id == i
  }

  ghost predicate ItemRefsOk(items: seq<OrderItem>, orderCount: nat)
  {
    forall j :: 0 <= j < |items| ==> items[j].id == j && items[j].orderId < orderCount
  }

  ghost predicate TotalsOk(orders: seq<Order>, items: seq<OrderItem>)
  {
    forall i :: 0 <= i < |orders| ==> orders[i].totalAmount == ItemsTotal(ItemsOf(items, i))
  }

  /** Appending the items of a new order `orderId`, when every earlier item
      belongs to an older order, leaves each older order's items alone and gives
      the new order exactly the appended rows. */
  lemma {:induction false} ItemsOfAppended(items: seq<OrderItem>, made: seq<OrderItem>, orderId: Id, i: Id)
    requires forall j :: 0 <= j < |items| ==> items[j].orderId < orderId
    requires forall j :: 0 <= j < |made| ==> made[j].orderId == orderId
    requires i <= orderId
    ensures ItemsOf(items + made, i) == if i == orderId then made else ItemsOf(items, i)
  {
    FilterAppend(items, made, BelongsTo(i));
    if i == orderId {
      forall x | x in items ensures !BelongsTo(i)(x) {
        var j :| 0 <= j < |items| && items[j] == x;
      }
      FilterKeepsNone(items, BelongsTo(i));
      FilterKeepsAll(made, BelongsTo(i));
    } else {
      forall x | x in made ensures !BelongsTo(i)(x) {
        var j :| 0 <= j < |made| && made[j] == x;
      }
      FilterKeepsNone(made, BelongsTo(i));
    }
  }

  /** Saving a new order with the items built from its drafts keeps the
      invariant, and the new order's items are exactly those rows. */
  lemma {:induction false} PlaceOrderKeepsTables(orders: seq<Order>, items: seq<OrderItem>, order: Order, drafts: seq<LineDraft>)
    requires TablesOk(orders, items)
    requires order.id == |orders| && order.totalAmount == DraftTotal(drafts)
    ensures TablesOk(orders + [order], items + MakeItems(drafts, order.id, |items|))
    ensures ItemsOf(items + MakeItems(drafts, order.id, |items|), order.id) == MakeItems(drafts, order.id, |items|)
  {
    var made := MakeItems(drafts, order.id, |items|);
    var orders', items' := orders + [order], items + made;
    assert OrderIdsOk(orders') by {
      forall i | 0 <= i < |orders'| ensures orders'[i].id == i {
        if i < |orders| {
          assert orders'[i] == orders[i];
        }
      }
    }
    assert ItemRefsOk(items', |orders'|) by {
      forall j | 0 <= j < |items'| ensures items'[j].id == j && items'[j].orderId < |orders'| {
        if j < |items| {
          assert items'[j] == items[j];
        } else {
          assert items'[j] == made[j - |items|];
        }
      }
    }
    assert forall j :: 0 <= j < |items| ==> items[j].orderId < order.id;
    assert forall j :: 0 <= j < |made| ==> made[j].orderId == order.id;
    ItemsOfAppended(items, made, order.id, order.id);
    ItemsTotalOfMade(drafts, order.id, |items|);
    assert TotalsOk(orders', items') by {
      forall i | 0 <= i < |orders'| ensures orders'[i].totalAmount == ItemsTotal(ItemsOf(items', i)) {
        ItemsOfAppended(items, made, order.id, i);
        if i < |orders| {
          assert orders'[i] == orders[i];
          assert orders[i].totalAmount == ItemsTotal(ItemsOf(items, i));
        }
      }
    }
  }

  /** The product table after one stock write of checkout:
      `update(productId, { stock: snapshot stock - quantity })`, which does
      nothing when no product has that id. */
  function Restocked(products: map<Id, Product>, line: CartLine): map<Id, Product>
    requires line.product.Some?
  {
    var id := line.row.productId;
    if id in products then products[id := products[id].(stock := line.product.value.stock - line.row.quantity)]
    else products
  }

  /** The product table after all of checkout's stock writes, in cart order. */
  function Decremented(products: map<Id, Product>, lines: seq<CartLine>): map<Id, Product>
    requires Joined(lines)
  {
    if lines == [] then products
    else Restocked(Decremented(products, lines[..|lines| - 1]), lines[|lines| - 1])
  }

  /** The units of `productId` bought by the lines. */
  function Purchased(lines: seq<CartLine>, productId: Id): int
  {
    if lines == [] then 0
    else Purchased(lines[..|lines| - 1], productId)
         + (if lines[|lines| - 1].row.productId == productId then lines[|lines| - 1].row.quantity else 0)
  }

  /** The stock writes' outcome: the same products, each with its stock
      lowered by the units the lines buy and its other fields unchanged. */
  ghost predicate StockLowered(before: map<Id, Product>, after: map<Id, Product>, lines: seq<CartLine>)
  {
    && after.Keys == before.Keys
    && forall k :: k in before ==> after[k] == before[k].(stock := before[k].stock - Purchased(lines, k))
  }

  predicate DifferentProduct(a: CartLine, b: CartLine)
  {
    a.row.productId != b.row.productId
  }

  /** With one line per product, each line's product is bought exactly in that
      line's quantity, and a product on no line is not bought at all. */
  lemma {:induction false} PurchasedPerLine(lines: seq<CartLine>, productId: Id)
    requires Pairwise(lines, DifferentProduct)
    ensures forall i :: 0 <= i < |lines| && lines[i].row.productId == productId ==>
              Purchased(lines, productId) == lines[i].row.quantity
    ensures (forall i :: 0 <= i < |lines| ==> lines[i].row.productId != productId) ==>
              Purchased(lines, productId) == 0
  {
    if lines != [] {
      var n := |lines|;
      var init := lines[..n - 1];
      assert Pairwise(init, DifferentProduct) by {
        forall a, b | 0 <= a < b < |init| ensures DifferentProduct(init[a], init[b]) {
          assert init[a] == lines[a] && init[b] == lines[b];
        }
      }
      PurchasedPerLine(init, productId);
      if lines[n - 1].row.productId == productId {
        forall i | 0 <= i < n - 1 ensures init[i].row.productId != productId {
          assert DifferentProduct(lines[i], lines[n - 1]);
        }
      }
    }
  }

  /** The stock writes add and remove no product. */
  lemma {:induction false} DecrementedKeys(products: map<Id, Product>, lines: seq<CartLine>)
    requires Joined(lines)
    ensures Decremented(products, lines).Keys == products.Keys
  {
    if lines != [] {
      var init := lines[..|lines| - 1];
      assert Joined(init) by {
        forall i | 0 <= i < |init| ensures init[i].product.Some? {
          assert init[i] == lines[i];
        }
      }
      DecrementedKeys(products, init);
    }
  }

  /** One stock write changes only the written product, and sets its stock to
      the line's snapshot stock minus the line's quantity. */
  lemma {:induction false} RestockedAt(products: map<Id, Product>, line: CartLine, k: Id)
    requires line.product.Some? && k in products
    ensures k in Restocked(products, line)
    ensures Restocked(products, line)[k] ==
              if line.row.productId == k then products[k].(stock := line.product.value.stock - line.row.quantity)
              else products[k]
  {
  }

  /** What checkout's lines promise of every line holds of the lines before the last. */
  lemma {:induction false} CheckoutPrefix(products: map<Id, Product>, lines: seq<CartLine>, init: seq<CartLine>)
    requires lines != [] && init == lines[..|lines| - 1] && Joined(lines)
    requires forall i :: 0 <= i < |lines| ==> Snapshot(products, lines[i])
    requires Pairwise(lines, DifferentProduct)
    ensures Joined(init)
    ensures forall i :: 0 <= i < |init| ==> Snapshot(products, init[i])
    ensures Pairwise(init, DifferentProduct)
    ensures forall i :: 0 <= i < |init| ==> init[i].row.productId != lines[|lines| - 1].row.productId
  {
    forall i | 0 <= i < |init| ensures init[i] == lines[i] && DifferentProduct(init[i], lines[|lines| - 1]) {
    }
    forall a, b | 0 <= a < b < |init| ensures DifferentProduct(init[a], init[b]) {
      assert DifferentProduct(lines[a], lines[b]);
    }
  }

  /** Stock conservation: when every line carries the product as stored and no
      product is on two lines, the writes leave product `k`'s stock lowered by
      exactly the units bought and its other fields as they were. */
  lemma {:induction false} CheckoutStock(products: map<Id, Product>, lines: seq<CartLine>, k: Id)
    requires Joined(lines)
    requires forall i :: 0 <= i < |lines| ==> Snapshot(products, lines[i])
    requires Pairwise(lines, DifferentProduct)
    requires k in products
    ensures k in Decremented(products, lines)
    ensures Decremented(products, lines)[k] == products[k].(stock := products[k].stock - Purchased(lines, k))
  {
    DecrementedKeys(products, lines);
    if lines != [] {
      var n := |lines|;
      var init, last := lines[..n - 1], lines[n - 1];
      CheckoutPrefix(products, lines, init);
      CheckoutStock(products, init, k);
      DecrementedKeys(products, init);
      var before := Decremented(products, init);
      RestockedAt(before, last, k);
      if last.row.productId == k {
        PurchasedPerLine(init, k);
        assert Snapshot(products, last);
      }
    }
  }

  /** The line carries its product as the store holds it. */
  predicate Snapshot(products: map<Id, Product>, line: CartLine)
  {
    line.row.productId in products && line.product == Some(products[line.row.productId])
  }

  predicate Older(a: Order, b: Order)
  {
    a.id < b.id
  }

  function OwnedBy(userId: UserId): Order -> bool
  {
    (o: Order) => o.userId == userId
  }

  /** `findOne` scopes by owner only when a user id is given and non-empty. */
  predicate Scoped(userId: Option<UserId>)
  {
    userId.Some? && userId.value != ""
  }

  /** PriceCart is the loop of createOrder: it checks every line's stock in
      cart order, stops at the first line that fails, and otherwise collects the
      item entries at current prices and sums price × quantity. */
  method PriceCart(lines: seq<CartLine>) returns (r: Result<Priced>)
    ensures r.Err? <==> FirstError(lines).Some?
    ensures r.Err? ==> r.error == FirstError(lines).value
    ensures r.Ok? ==> Joined(lines) && r.value.drafts == Drafts(lines)
    ensures r.Ok? ==> r.value.total == DraftTotal(r.value.drafts)
  {
    var drafts: seq<LineDraft> := [];
    var total := 0;
    var i := 0;
    while i < |lines|
      invariant 0 <= i <= |lines|
      invariant FirstError(lines[..i]).None?
      invariant Joined(lines[..i]) && drafts == Drafts(lines[..i])
      invariant total == DraftTotal(drafts)
    {
      var line := lines[i];
      assert lines[..i + 1][..i] == lines[..i] && lines[..i + 1][i] == line;
      if line.product.None? || line.product.value.stock < line.row.quantity {
        FirstErrorStops(lines, i);
        if line.product.None? {
          return Err(ProductMissing);
        }
        return Err(InsufficientStock(line.product.value.name));
      }
      var product := line.product.value;
      var entry := LineDraft(line.row.productId, line.row.quantity, product.price);
      assert (drafts + [entry])[..|drafts|] == drafts;
      drafts := drafts + [entry];
      total := total + product.price * line.row.quantity;
      i := i + 1;
    }
    assert lines[..i] == lines;
    return Ok(Priced(drafts, total));
  }

  /** A failing line after a clean prefix is the checkout's error. */
  lemma {:induction false} FirstErrorStops(lines: seq<CartLine>, i: nat)
    requires i < |lines| && FirstError(lines[..i]).None? && LineError(lines[i]).Some?
    ensures FirstError(lines) == LineError(lines[i])
  {
    assert forall j :: 0 <= j < i ==> lines[..i][j] == lines[j];
    var e := FirstError(lines);
    var k :| 0 <= k < |lines| && e == LineError(lines[k]) && forall j :: 0 <= j < k ==> LineError(lines[j]).None?;
    assert !(k < i) && !(i < k);
  }

  class OrdersService {
    var orders: seq<Order>
    var items: seq<OrderItem>
    const cart: CartService
    const catalog: ProductsService

    ghost predicate Valid()
      reads this, cart, catalog
    {
      TablesOk(orders, items) && cart.Valid() && catalog.Valid()
    }

    constructor (cart: CartService, catalog: ProductsService)
      requires cart.Valid() && catalog.Valid()
      ensures Valid() && orders == [] && items == []
      ensures this.cart == cart && this.catalog == catalog
    {
      orders, items := [], [];
      this.cart, this.catalog := cart, catalog;
    }

    /** The user's cart as checkout reads it: rows joined with their products. */
    function CartLines(userId: UserId): seq<CartLine>
      reads cart, catalog
    {
      Join(cart.FindByUser(userId), catalog.products)
    }

    /** The order with that id, scoped to the owner when a user is given.
        An order that exists but belongs to someone else is NotFound too. */
    function FindOne(id: Id, userId: Option<UserId>): (r: Result<Order>)
      reads this
      ensures r.Ok? <==> id < |orders| && (Scoped(userId) ==> orders[id].userId == userId.value)
      ensures r.Ok? ==> r.value == orders[id]
      ensures r.Err? ==> r.error == NotFound("Order")
    {
      if id < |orders| && (!Scoped(userId) || orders[id].userId == userId.value) then Ok(orders[id])
      else Err(NotFound("Order"))
    }

    /** The user's orders, newest first. */
    function FindByUser(userId: UserId): (r: seq<Order>)
      reads this
      requires TablesOk(orders, items)
      ensures forall o :: o in r <==> o in orders && o.userId == userId
      ensures forall i, j :: 0 <= i < j < |r| ==> r[i].id > r[j].id
    {
      assert Pairwise(orders, Older);
      FilterKeepsPairwise(orders, OwnedBy(userId), Older);
      Reverse(Filter(orders, OwnedBy(userId)))
    }

    /** Overwrite an order's status with any value; NotFound when absent. */
    method UpdateStatus(orderId: Id, status: OrderStatus) returns (r: Result<Order>)
      requires Valid()
      modifies this
      ensures Valid() && items == old(items)
      ensures orderId < old(|orders|) ==>
                && orders == old(orders)[orderId := old(orders)[orderId].(status := status)]
                && r == Ok(orders[orderId])
      ensures orderId >= old(|orders|) ==> orders == old(orders) && r == Err(NotFound("Order"))
    {
      r := FindOne(orderId, None);
      if r.Ok? {
        var order := r.value.(status := status);
        orders := orders[orderId := order];
        assert ItemsTotal(ItemsOf(items, orderId)) == order.totalAmount;
        r := Ok(order);
      }
    }

    /** The stock writes of checkout: for each line, in cart order, set the
        product's stock to the line's snapshot stock minus its quantity. */
    method WriteStock(lines: seq<CartLine>)
      requires catalog.Valid()
      requires Joined(lines)
      requires forall i :: 0 <= i < |lines| ==> Snapshot(catalog.products, lines[i])
      requires Pairwise(lines, DifferentProduct)
      modifies catalog
      ensures catalog.Valid() && catalog.nextId == old(catalog.nextId)
      ensures catalog.products == Decremented(old(catalog.products), lines)
      ensures StockLowered(old(catalog.products), catalog.products, lines)
      ensures forall i :: 0 <= i < |lines| ==> Purchased(lines, lines[i].row.productId) == lines[i].row.quantity
      ensures catalog.cache == if lines == [] then old(catalog.cache) else Invalidated(old(catalog.cache))
    {
      ghost var stock := catalog.products;
      ghost var cache := catalog.cache;
      var i := 0;
      while i < |lines|
        invariant 0 <= i <= |lines|
        invariant catalog.Valid() && catalog.nextId == old(catalog.nextId)
        invariant catalog.products == Decremented(stock, lines[..i])
        invariant catalog.cache == if i == 0 then cache else Invalidated(cache)
      {
        var line := lines[i];
        assert lines[..i + 1][..i] == lines[..i] && lines[..i + 1][i] == line;
        InvalidatedTwice(cache);
        if line.row.productId in catalog.products {
          StockPatchOnlyStock(catalog.products[line.row.productId], line.product.value.stock - line.row.quantity);
        }
        var _ := catalog.Update(line.row.productId, StockPatch(line.product.value.stock - line.row.quantity));
        i := i + 1;
      }
      assert lines[..i] == lines;
      DecrementedKeys(stock, lines);
      forall k | k in stock
        ensures catalog.products[k] == stock[k].(stock := stock[k].stock - Purchased(lines, k))
      {
        CheckoutStock(stock, lines, k);
      }
      forall j | 0 <= j < |lines| ensures Purchased(lines, lines[j].row.productId) == lines[j].row.quantity {
        PurchasedPerLine(lines, lines[j].row.productId);
      }
    }

    /** Place an order from the user's cart: reject an empty cart, check every
        line's stock before writing anything, save a pending order with the
        frozen-price items, lower each product's stock and clear the cart. */
    method CreateOrder(userId: UserId, shippingAddress: string) returns (r: Result<Order>)
      requires Valid()
      requires shippingAddress != ""
      modifies this, cart, catalog
      ensures Valid()
      ensures r.Ok? <==> old(CartLines(userId)) != [] && FirstError(old(CartLines(userId))).None?
      ensures old(CartLines(userId)) == [] ==> r == Err(CartEmpty)
      ensures old(CartLines(userId)) != [] && FirstError(old(CartLines(userId))).Some? ==>
                r == Err(FirstError(old(CartLines(userId))).value)
      ensures r.Err? ==> unchanged(this, cart, catalog)
      ensures r.Ok? ==>
                var lines := old(CartLines(userId));
                var drafts := Drafts(lines);
                && r.value == Order(old(|orders|), userId, DraftTotal(drafts), shippingAddress, Pending)
                && orders == old(orders) + [r.value]
                && items == old(items) + MakeItems(drafts, r.value.id, old(|items|))
                && ItemsOf(items, r.value.id) == MakeItems(drafts, r.value.id, old(|items|))
                && StockLowered(old(catalog.products), catalog.products, lines)
                && (forall i :: 0 <= i < |lines| ==> Purchased(lines, lines[i].row.productId) == lines[i].row.quantity)
                && catalog.cache == Invalidated(old(catalog.cache))
                && catalog.nextId == old(catalog.nextId) && cart.nextId == old(cart.nextId)
                && cart.FindByUser(userId) == []
                && (forall u :: u != userId ==> cart.FindByUser(u) == old(cart.FindByUser(u)))
    {
      var lines := Join(cart.FindByUser(userId), catalog.products);
      if |lines| == 0 {
        return Err(CartEmpty);
      }
      var priced := PriceCart(lines);
      if priced.Err? {
        return Err(priced.error);
      }
      var drafts := priced.value.drafts;

      var order := Order(|orders|, userId, priced.value.total, shippingAddress, Pending);
      PlaceOrderKeepsTables(orders, items, order, drafts);
      orders := orders + [order];
      items := items + MakeItems(drafts, order.id, |items|);

      OneLinePerProduct(cart.rows, userId, catalog.products);
      WriteStock(lines);

      cart.ClearCart(userId);
      r := FindOne(order.id, None);
    }
  }

  /** The user's cart lines name each product at most once and carry the
      product as stored. */
  lemma {:induction false} OneLinePerProduct(rows: seq<CartItem>, userId: UserId, products: map<Id, Product>)
    requires Pairwise(rows, DifferentPair)
    ensures Pairwise(Join(RowsOf(rows, userId), products), DifferentProduct)
  {
    OneRowPerProduct(rows, userId);
  }
}
