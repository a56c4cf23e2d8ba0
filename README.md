# Checkout and payment services of a NestJS shop, in Dafny

This project models the four services at the core of the shop:

- **CartService** keeps one row per (user, product) pair. Adding a product that is already in the cart raises that row's quantity.
- **ProductsService** keeps the product table. It also keeps the `products:*` lists in a shared cache and clears them on every write.
- **OrdersService** turns a user's cart into an order:
  - it checks every line's stock before writing anything;
  - it saves a pending order with frozen-price items;
  - it lowers each product's stock and clears the cart.
- **PaymentsService** records a pending payment against an order's total. When the payment provider reports the intent as succeeded, it completes the payment and confirms the order.

Each service is a class whose fields are its tables:

| service | tables |
|---|---|
| cart | `seq<CartItem>` |
| products | `map<Id, Product>` and the cache map |
| orders | `seq<Order>` and `seq<OrderItem>` |
| payments | `seq<Payment>` |

Services hold references to the services they call: orders holds the cart and the catalog, and payments holds orders. Every state-changing method is specified twice:

- its `ensures` ties the new state to a specification function of the old one (`Added`, `WithoutUser`, `Decremented`, `Settled`, …);
- lemmas prove what the source promises of those functions.

Each service's `Valid()` invariant is kept by every method:

| service | invariant |
|---|---|
| cart | one row per pair, distinct ids |
| products | every cached product list is the current listing |
| orders | every order's total is the sum of its items |
| payments | every payment names an existing order and carries its total |

The orders invariant holds in the model because removing a product leaves the order items alone. The schema declares `order_items.productId` with `ON DELETE CASCADE` (src/database/migrations/initialMigration.ts:103-104). So in the source, removing a product that was ordered deletes those line items, and the order's total then no longer equals the sum of its items. The model omits that cascade; see "## Left out".

Checkout's validation loop is `Orders.PriceCart`, and its stock loop is `Orders.OrdersService.WriteStock`. Both are proved against specification functions: the prefix-recursive `FirstError`, `DraftTotal` and `Decremented`, and the sequence comprehension `Drafts`.

Money is whole cents, because the price and amount columns are `numeric(10,2)`. Database uuids become natural-number ids handed out in order. The payment provider is an oracle:

- intent creation is a function parameter of `CreatePayment`;
- the status the provider reports is a parameter of `ConfirmPayment`.

Two points of the code's behaviour are modelled as written:

- `confirmPayment` has no guard against a repeated confirmation. Confirming an already completed payment again rewrites the payment as completed and the order as confirmed, whatever status an administrator had given the order in between. `Payments.SettledTwice` shows that the payment table itself does not change.
- The checkout writes `snapshot stock - quantity` for each line. With one row per product, which the cart keeps, this is stock minus units bought.

## Model

| member | source | states |
|---|---|---|
| Cart.CartService.FindByUser | src/modules/cart/cart.service.ts:13-17 | the result holds exactly the rows whose userId is the given user |
| Cart.CartService.AddItem | src/modules/cart/cart.service.ts:20-31 | merges into the pair's existing row when there is one: no new row, and the quantity becomes the pair's old units plus `quantity`; otherwise it appends one row with exactly `quantity`; every other pair's units are unchanged; the one-row-per-pair invariant is kept |
| Cart.AddItemAccumulates | src/modules/cart/cart.service.ts:20-31 | after an add, the pair named holds its old units plus `quantity`, and every other (user, product) pair holds what it held |
| Cart.AddItemKeepsOneRowPerPair | src/modules/cart/cart.service.ts:20-31 | adding keeps the table well formed: no pair twice, distinct ids below the next fresh id (the fresh id is used only on insert) |
| Cart.OnlyRowOfPair | src/modules/cart/cart.service.ts:21-27 | in a table with one row per pair, the row that `findOne` finds holds all of the pair's units |
| Cart.NoRowOfPair | src/modules/cart/cart.service.ts:21-23 | a pair with no row has no units |
| Cart.CartService.RemoveItem | src/modules/cart/cart.service.ts:33-35 | exactly the rows with that id are gone, and every other row stays |
| Cart.FilterKeepsWellFormed | src/modules/cart/cart.service.ts:33-39 | deleting rows keeps one row per pair and distinct ids |
| Cart.CartService.ClearCart | src/modules/cart/cart.service.ts:37-39 | the user's cart is empty afterwards, and every other user's cart is unchanged |
| Cart.ClearCartOnlyThatUser | src/modules/cart/cart.service.ts:37-39 | deleting a user's rows leaves that user with none and another user with exactly the rows it had |
| Cart.OneRowPerProduct | src/modules/cart/cart.service.ts:13-31 | with one row per pair, no product appears twice in one user's cart |
| Catalog.Patched | src/modules/products/products.service.ts:53 | a partial update overwrites the supplied fields, and keeps the id and every field not supplied |
| Catalog.StockPatchOnlyStock | src/modules/orders/orders.service.ts:72-74 | the `{ stock }` patch changes a product's stock and nothing else |
| Catalog.Listing | src/modules/products/products.service.ts:22-24 | the listing holds only stored products, and every stored product is in it |
| Catalog.Invalidated | src/modules/products/products.service.ts:45 | after `delPattern('products:*')`, no key with the `products:` prefix remains; every other entry is kept with its value |
| Catalog.InvalidatedTwice | src/modules/products/products.service.ts:54 | clearing the product lists twice is clearing them once |
| Catalog.NoProductListAfterWrite | src/modules/products/products.service.ts:17-20 | after any clear, the `products:all` key misses, so the next `findAll` reads the store |
| Catalog.ProductsService.FindOne | src/modules/products/products.service.ts:30-41 | the product when the id is stored; otherwise NotFound("Product") |
| Catalog.ProductsService.FindAll | src/modules/products/products.service.ts:16-28 | returns exactly the stored products (listed by id, the model's choice; see "## Left out"); on a miss it caches that list under `products:all`, and on a hit the cache is unchanged; under the invariant a cached list is never stale |
| Catalog.ProductsService.Create | src/modules/products/products.service.ts:43-47 | stores the draft under a fresh id, after which FindOne returns it; clears the product lists |
| Catalog.ProductsService.Update | src/modules/products/products.service.ts:49-56 | patches the product when present and changes nothing when absent; returns the re-read product, or NotFound; clears the product lists in both cases |
| Catalog.ProductsService.Remove | src/modules/products/products.service.ts:58-61 | afterwards FindOne(id) fails, every other product is unchanged, and the product lists are cleared |
| Orders.FirstError | src/modules/orders/orders.service.ts:35-40 | no error exactly when every line has its product and enough stock; otherwise the error is that of a line all of whose predecessors pass |
| Orders.FirstErrorStops | src/modules/orders/orders.service.ts:35-40 | the first failing line after a clean prefix decides checkout's error |
| Orders.PriceCart | src/modules/orders/orders.service.ts:32-49 | fails exactly when some line fails, with the first failing line's error (missing product or insufficient stock, naming the product); on success, one entry per line in cart order (the model's row order, see `Cart.CartService.FindByUser` under "## Left out") copies productId and quantity at the current price, and the total is the sum of price × quantity |
| Orders.ItemsTotalOfMade | src/modules/orders/orders.service.ts:48-68 | the saved item rows add up to the total accumulated by the validation loop |
| Orders.ItemsOfAppended | src/modules/orders/orders.service.ts:62-68 | appending a new order's items gives that order exactly those rows and leaves every older order's items unchanged |
| Orders.PlaceOrderKeepsTables | src/modules/orders/orders.service.ts:52-68 | saving the order and its items keeps the invariants: ids are positions, every item names an existing order, and every order's total equals the sum of its items; the new order's items are exactly the rows made |
| Orders.PurchasedPerLine | src/modules/orders/orders.service.ts:71-75 | with one line per product, each line's product is bought in exactly that line's quantity, and a product on no line is not bought |
| Orders.DecrementedKeys | src/modules/orders/orders.service.ts:71-75 | the stock writes add no product and remove none |
| Orders.RestockedAt | src/modules/orders/orders.service.ts:72-74 | one stock write sets the written product's stock to the snapshot stock minus the quantity, and leaves every other product as it is |
| Orders.CheckoutStock | src/modules/orders/orders.service.ts:71-75 | stock conservation: each product's stock ends at its pre-checkout stock minus the units bought, and its other fields are unchanged |
| Orders.OneLinePerProduct | src/modules/orders/orders.service.ts:26 | the lines checkout reads for a user name each product at most once |
| Orders.OrdersService.FindOne | src/modules/orders/orders.service.ts:92-108 | found exactly when the order exists and, if a non-empty user id is given, belongs to that user; otherwise NotFound("Order") |
| Orders.OrdersService.FindByUser | src/modules/orders/orders.service.ts:84-90 | exactly the user's orders, newest first |
| Orders.OrdersService.UpdateStatus | src/modules/orders/orders.service.ts:110-114 | overwrites the status of an existing order with any value and changes no other field and no other order; NotFound with no change when the order is absent |
| Orders.OrdersService.WriteStock | src/modules/orders/orders.service.ts:71-75 | the loop's product table is the specification `Decremented`; the keys are unchanged and each product loses exactly the units bought (`StockLowered`); the product lists are cleared when there is at least one write |
| Orders.OrdersService.CreateOrder | src/modules/orders/orders.service.ts:25-82 | see below |
| Payments.FindByIntent | src/modules/payments/payments.service.ts:48-50 | the first payment with that intent id, or none exactly when no payment has it |
| Payments.Settled | src/modules/payments/payments.service.ts:61-62 | the payment becomes completed, its other fields are unchanged, and every other payment is unchanged |
| Payments.RecordKeepsLedger | src/modules/payments/payments.service.ts:33-38 | recording a payment for an existing order at that order's total keeps the ledger invariant |
| Payments.ConfirmKeepsLedger | src/modules/payments/payments.service.ts:60-67 | completing a payment and overwriting its order's status keeps the ledger invariant |
| Payments.SettledTwice | src/modules/payments/payments.service.ts:60-67 | completing an already completed payment leaves the payment table as it is |
| Payments.PaymentsService.CreatePayment | src/modules/payments/payments.service.ts:25-44 | NotFound, with no payment recorded, exactly when the order is absent or belongs to someone else; otherwise see below |
| Payments.PaymentsService.ConfirmPayment | src/modules/payments/payments.service.ts:47-71 | an unknown intent gives PaymentNotFound and changes nothing; any status but `succeeded` gives PaymentFailed and changes nothing; on success see below |

Orders.OrdersService.CreateOrder, by outcome:

- **Empty cart:** the call fails with CartEmpty.
- **Failing line:** the call fails with the first failing line's error. "First" and "cart order" refer to the model's row order; see `Cart.CartService.FindByUser` under "## Left out".
- **Either failure:** no order, item, product, cache or cart state changes.
- **Success:** the call returns a pending order with the caller's user id, the given address and the sum of price × quantity. One item per cart line is appended, in cart order, at the current price. Each product's stock drops by the units bought. The product lists are cleared. The user's cart is emptied and every other user's cart is left unchanged.

Payments.PaymentsService.CreatePayment on success appends one pending payment. The payment holds:

- the order's id;
- the order's total in cents, which is also the intent amount;
- the intent's id;
- the payment method `stripe`.

The call returns the client secret and the intent id. Repeated calls each append a row.

Payments.PaymentsService.ConfirmPayment on success returns true and completes that payment only. It confirms that payment's order only, and leaves the order items unchanged.

## Left out

- Cart.CartService.FindByUser: the source's row order is unspecified. `find({ where: { userId } })` has no `order` option, so the database may return a user's cart rows in any order, and an update may move a row in a scan. The model fixes one order: table order, with a merged row kept in place by `Cart.Added` and a new row appended. Two results of checkout depend on this choice:
  - which line is "first" when several lines fail, and so which product `InsufficientStock` names;
  - the order of the saved order items.
- Catalog.ProductsService.FindAll: the source's row order is unspecified. `find({ relations: ['category'] })` has no `order` option, so the database may return the products in any order, and a join or an update may change it. The model lists products by id (`Catalog.Listing`), and the list cached under `products:all` is that one. The contract fixes the set of products returned and the cache behaviour; the order is the model's choice.
- Payments.FindByIntent: `findOne({ where: { stripePaymentIntentId } })` has no `order` option, and the model does not assume that intent ids are distinct. The provider hands out a fresh id per intent, so in practice at most one payment matches. When several payments share an id, the model picks the first in table order, where the database may return any of them.
- HTTP controllers, Nest modules, dependency injection and authentication are left out. They route requests and sign tokens, and hold no shop logic.
- The payment provider's calls are oracles. Intent creation is a pure function parameter, and the retrieved status is a parameter. A provider call that throws is not modelled.
- Floating-point arithmetic is not modelled. This covers `Number(price) * quantity` and `Math.round(totalAmount * 100)`. Money is exact integer cents, so the intent amount is the order total in cents.
- Column bounds are not modelled: every number is an unbounded integer.
  - The `numeric(10,2)` columns (prices, totals, amounts) cannot overflow in the model.
  - `stock`, `cart_items.quantity` and `order_items.quantity` are 32-bit `integer` columns (src/database/migrations/initialMigration.ts:46, 65, 98). In the source, a value past 2³¹−1 fails with a database error. In the model, an `addItem` merge or a stock write past that bound succeeds.
- Concurrency is not modelled: there are no interleaved requests and no stock race between the snapshot read and the write. Execution is sequential.
- A database error partway through checkout is not modelled. The source does not run checkout in a transaction. The model covers the run in which every write succeeds.
- The 300-second cache time-to-live and the Redis client are not modelled. The cache is a map from key to product list.
- Loading relations (`items`, `items.product`, `category`) is not modelled: an order's items are given by `Orders.ItemsOf`.
- Creation timestamps are not modelled. Ids increase with creation, so "newest first" orders by id.
- Uuids are not modelled: ids are natural numbers handed out in order.
- Foreign-key constraints and their cascades are not modelled:
  - `Cart.CartService.AddItem` accepts a product id that names no product, where the database would reject the insert.
  - `Catalog.ProductsService.Remove` does not delete the product's cart rows, as `ON DELETE CASCADE` on `cart_items.productId` does (src/database/migrations/initialMigration.ts:71-72). In the source, a cart row therefore never outlives its product: checkout goes ahead without that row, or fails with "Cart is empty" when no other row is left. The model instead keeps the row, and checkout fails with `ProductMissing` on it. `ProductMissing` is what the model does in place of the omitted cascade, not a behaviour of the source.
  - `Catalog.ProductsService.Remove` does not delete the product's order items, as `ON DELETE CASCADE` on `order_items.productId` does (src/database/migrations/initialMigration.ts:103-104). The orders invariant (every order's total equals the sum of its items) relies on this omission: with the cascade, removing an ordered product breaks it.
- Input validation of request bodies is not modelled. Quantities are any integer. A non-empty shipping address is a precondition of `Orders.OrdersService.CreateOrder`.
- The order-status and payment-status enum files are not part of this model:
  - orders have `Pending`, `Confirmed`, and `Other(name)` for the values only an administrator sets;
  - payments have only the two statuses the service writes.
- Catalog.Product: the `imageUrl` and `slug` columns are not modelled. No service reads them, so `Catalog.ProductsService.Update` and `Catalog.ProductsService.Create` say nothing about them.
- Column defaults are not modelled. `repository.create` only copies the DTO's fields into an entity. When the DTO omits `stock` or `isActive`, the database fills them with `0` and `true` on insert (src/database/migrations/initialMigration.ts:46, 49). The model's draft carries every field.
- Categories and reviews services are not modelled: they pass straight through to their repositories.
- Orders.CheckoutStock: stock conservation is stated for carts with at most one line per product. `Cart.OneRowPerProduct` shows the cart keeps that. For a cart with two rows of one product, which cannot arise, the model says only what `Orders.Decremented` computes.
