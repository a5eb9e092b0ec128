# Order lifecycle over an in-memory store — a Dafny model

This project models the service layer of a small commerce back end: an
in-memory store of users, products and orders (`DatabaseAdapter`), and the
three services that drive it.

- **`OrderService`** places an order in a fixed sequence. It computes the total
  from the caller's items, writes the order as `pending` and asks the payment
  adapter. A decline writes the compensating `cancelled` status and fails. An
  approval sets `processing` and then takes each item's quantity off its
  product's stock. The service also reads orders and sets their status.
- **`AuthService`** registers users, with a check that the email is unused, and
  signs them in and out.
- **`ProductService`** lists, reads and searches products.

Each service keeps a context record. For `OrderService` and `ProductService` it
holds the last result, a busy flag and the last error. For `AuthService` it
holds the signed-in user, an `isAuthenticated` flag and a token, with no busy
flag and no error. A service changes its context only by merging a partial
record into it. The order and product services merge at the start and end of
every call. `AuthService` merges only on a successful `login`, `register` and
on `logout`. A failed `login`, `getCurrentUser` and `isAuthenticated` merge
nothing.

Layout, one module per source file:

| file | module | source |
|---|---|---|
| `wrappers.dfy` | `Wrappers`, `Errors` | `null` returns and the services' thrown errors |
| `keyed.dfy` | `Keyed` | ids, instants, insertion-ordered `Map`s |
| `order_model.dfy` | `OrderModel` | `src/models/order.model.ts` |
| `product_model.dfy` | `ProductModel` | `src/models/product.model.ts` |
| `user_model.dfy` | `UserModel` | `src/models/user.model.ts` |
| `db_adapter.dfy` | `Db` | `src/adapters/db.adapter.ts` |
| `order_service.dfy` | `Orders` | `src/services/order.service.ts`, `src/contexts/order.context.ts` |
| `auth_service.dfy` | `Auth` | `src/services/auth.service.ts`, `src/contexts/auth.context.ts` |
| `product_service.dfy` | `Catalog` | `src/services/product.service.ts`, `src/contexts/product.context.ts` |

How the model represents the source:

- **Store.** `Db.Store` is a class. Its fields are the three maps and, for each
  map, the sequence of its keys in insertion order. That sequence is the order
  in which a JavaScript `Map` iterates. `Valid()` ties each sequence to its map
  and says every record is stored under its own id.
- **Ids.** A UUID is modelled as an id the store has never issued. The store
  draws ids from a counter, `nextId`.
- **Services.** Each service is a class with a `const db: Store` (the shared
  `db` singleton) and a `context` field. Its methods modify `context` and, where
  the source writes to the store, `db`.
- **Errors.** A thrown error is an `Err` result carrying an `Errors.Error`.
- **Partial records.** `Partial<…Context>` is a `…Patch` datatype with `Option`
  fields. The spread `{ ...c, ...u }` is `Merge`.
- **Payment.** The payment adapter's answer is the `paymentApproved` parameter.
  The shipping adapter is a log: `shipments` lists every order passed to
  `notifyShipping`.
- **Clock.** `new Date()` and `Date.now()` are a `now` parameter.
- **Tokens.** A session token is `Token(userId, issuedAt)`: the two parts the
  source base64-encodes.
- **Numbers.** Prices and totals are integers (cents), so `price × quantity` is
  exact.

Three things the code does not check, which the model keeps as they are:

- `createOrder` decrements stock with no check, so stock can go below zero (see Findings).
- `updateOrderStatus` writes any status. It has no transition check.
- `createOrder` accepts an empty or malformed item list. It does not validate the items against `OrderItemSchema`.

`Orders.OrderService.CreateOrderChecked` is a separate, hardened variant that
adds the input and stock checks. The as-written `CreateOrder` is unchanged.

## Model

| member | source | states |
|---|---|---|
| `Keyed.ValuesOfOrdered` | src/adapters/db.adapter.ts:23-25 | listing a map's values in insertion order gives each stored value, and only those, one per key |
| `Keyed.OrderedSize` | src/adapters/db.adapter.ts:7-9 | a map's key sequence (insertion order) is as long as the map has entries |
| `OrderModel.ValidItem` | src/models/order.model.ts:2 | `OrderItemSchema`: quantity and price above zero; so a valid item's line amount `price × quantity` is positive |
| `OrderModel.ValidOrder` | src/models/order.model.ts:3 | `OrderSchema`: a positive total and valid items; so a valid order whose total is computed from its items has at least one item |
| `OrderModel.Total` | src/services/order.service.ts:19 | the `reduce` sum of `price × quantity`; it is never negative over valid items |
| `OrderModel.TotalAppend` | src/services/order.service.ts:19 | the left-to-right sum of `price × quantity` over a concatenation is the sum of the two totals |
| `OrderModel.TotalOfValidItems` | src/models/order.model.ts:2-3 | items that pass `OrderItemSchema` (quantity and price above zero) give a non-negative total, positive once there is one item |
| `OrderModel.ComputedOrderValid` | src/models/order.model.ts:3 | an order whose total is computed from its items passes `OrderSchema` iff it has an item and every item passes `OrderItemSchema`; an empty order fails on its total |
| `ProductModel.ValidProduct` | src/models/product.model.ts:2 | `ProductSchema`: a non-empty name, a positive price and a non-negative stock; so a valid product's name is non-empty |
| `Db.FirstWithEmail` | src/adapters/db.adapter.ts:10-13 | the result is a listed user with that email; it is `None` iff no listed user has that email |
| `Db.OrdersOf` | src/adapters/db.adapter.ts:51-53 | the filter keeps exactly the orders with that `userId` and never lengthens the list |
| `Db.Store.constructor` | src/adapters/db.adapter.ts:7-9 | the store starts with three empty maps and is valid |
| `Db.Store.FindUserByEmail` | src/adapters/db.adapter.ts:10-13 | the loop returns the first user in insertion order with that email; the user is stored under its id; `None` iff no stored user has that email |
| `Db.Store.CreateUser` | src/adapters/db.adapter.ts:14-19 | the new user gets an id not already in the map, the supplied fields and `createdAt == updatedAt == now`; it is added at the end; `GetUser` then returns it; the other maps are unchanged |
| `Db.Store.GetUser` | src/adapters/db.adapter.ts:20-22 | `None` exactly when the id is not a key; otherwise the stored user |
| `Db.Store.ListProducts` | src/adapters/db.adapter.ts:23-25 | one entry per stored product, holding exactly the stored products |
| `Db.Store.GetProduct` | src/adapters/db.adapter.ts:26-28 | `None` exactly when the id is not a key; otherwise the stored product |
| `Db.Store.CreateProduct` | src/adapters/db.adapter.ts:29-34 | the new product gets a new id and the supplied fields; it is added at the end; `GetProduct` then returns it; users and orders are unchanged |
| `Db.Store.UpdateProductStock` | src/adapters/db.adapter.ts:35-41 | an absent id gives `None` and changes nothing; otherwise only that product changes, to its old record with the given stock (any sign) and `updatedAt = now`; key order is kept |
| `Db.Store.CreateOrder` | src/adapters/db.adapter.ts:42-47 | the new order gets a new id and the supplied fields; it is added at the end; `GetOrder` then returns it; users and products are unchanged |
| `Db.Store.GetOrder` | src/adapters/db.adapter.ts:48-50 | `None` exactly when the id is not a key; otherwise the stored order |
| `Db.Store.GetUserOrders` | src/adapters/db.adapter.ts:51-53 | exactly the stored orders whose `userId` matches; empty iff there are none |
| `Db.Store.UpdateOrderStatus` | src/adapters/db.adapter.ts:54-60 | an absent id gives `None` and changes nothing; otherwise only that order changes, to its old record with the given status and `updatedAt = now` |
| `Db.Store.Seed` | src/adapters/db.adapter.ts:61-86 | appends exactly two users, `admin@example.com` ("Admin User", admin) then `customer@example.com` ("Test Customer", customer), and exactly three products, "Product 1", "Product 2", "Product 3" with their descriptions, prices 1999, 2999, 3999 cents and stock 100, 50, 25, each under a fresh id; existing users and products and their order are kept; every added product passes `ProductSchema`; orders are unchanged |
| `Db.Store.SeedUsers` | src/adapters/db.adapter.ts:62-67 | the user half of `seed`: the two users above are appended; nothing else changes |
| `Db.Store.SeedProducts` | src/adapters/db.adapter.ts:68-85 | the product half of `seed`: the three products above are appended and pass `ProductSchema`; nothing else changes |
| `Orders.Merge` | src/services/order.service.ts:10 | the spread `{ ...c, ...u }`: an empty patch changes nothing, a field the patch sets takes the patch's value, a field it leaves out keeps the old value |
| `Orders.MergeLaws` | src/services/order.service.ts:9-12 | merging an empty patch changes nothing; merging the same patch twice equals merging it once; two merges equal one merge of the composed patch |
| `Orders.Decremented` | src/services/order.service.ts:27-30 | the products after the stock loop, item by item; the loop adds and removes no product |
| `Orders.DecrementedStock` | src/services/order.service.ts:27-30 | after the stock loop, each product named by some item has stock = old stock − total quantity ordered of it, duplicates included, and a new `updatedAt`; all other products are untouched; no product is added or removed |
| `Orders.StockStaysValid` | src/services/order.service.ts:28-29 | if all products were valid, all are valid after the loop iff each product's stock covers the total quantity ordered of it |
| `Orders.OversoldStockGoesNegative` | src/services/order.service.ts:29 | a valid product with stock 1, ordered twice in one call, ends at stock −1 and no longer passes `ProductSchema` |
| `Orders.OrderService.constructor` | src/services/order.service.ts:8 | the context starts as `createDefaultOrderContext()` |
| `Orders.OrderService.UpdateContext` | src/services/order.service.ts:9-12 | the context becomes the merge of the old context with the patch, and is returned |
| `Orders.OrderService.CreateOrder` | src/services/order.service.ts:16-42 | fails iff payment is declined. On decline: a new order with the computed total is stored as `cancelled`; stock is unchanged; the context error is set and the busy flag cleared. On approval: the returned order is the stored one, in status `processing`, with the computed total; stock is decremented as `Decremented` describes; `currentOrder` is the order. Users and order history are unchanged |
| `Orders.OrderService.Decline` | src/services/order.service.ts:21-23 | on a declined payment, the stored order becomes `cancelled` with `updatedAt = now`; stock, users and key order are unchanged; the error is `PaymentFailed` for that order and the context records it with the busy flag cleared |
| `Orders.OrderService.Fulfil` | src/services/order.service.ts:25-32 | on an approved payment, the stored order becomes `processing` and is returned; stock becomes `Decremented` of the old stock; the order becomes `currentOrder` with the busy flag cleared |
| `Orders.OrderService.DecrementStock` | src/services/order.service.ts:27-30 | the loop leaves the products equal to `Decremented` of the old products; key order, users and orders are unchanged |
| `Orders.OrderService.GetOrder` | src/services/order.service.ts:43-58 | returns `None` for an unknown id (no failure) and the stored order otherwise; `currentOrder` becomes the result, even `None` |
| `Orders.OrderService.GetUserOrders` | src/services/order.service.ts:59-74 | returns exactly the user's stored orders, empty iff none; they become `orderHistory` |
| `Orders.OrderService.UpdateOrderStatus` | src/services/order.service.ts:75-94 | an unknown id fails with `OrderNotFound`; orders, shipments and `currentOrder` are unchanged. Otherwise any requested status is written, with no transition check; shipping is notified iff the status is `shipped`; `currentOrder` is the updated order |
| `Orders.OrderService.CreateOrderChecked` | src/services/order.service.ts:16-42 | hardened variant: rejects empty or invalid items (`InvalidInput`), and any order a product's stock cannot cover (`InsufficientStock` naming that product), before writing anything; every failure leaves stock unchanged and records the error in the context. For valid, covered items it behaves as `CreateOrder`: a decline stores the order as `cancelled` under a fresh id at the end and fails with `PaymentFailed`; an approval stores and returns the order in `processing` with the computed total and makes it `currentOrder`. A successful order passes `OrderSchema`, and valid products stay valid |
| `Auth.Merge` | src/services/auth.service.ts:8 | the spread `{ ...c, ...u }`: an empty patch changes nothing, a field the patch sets takes the patch's value, a field it leaves out keeps the old value |
| `Auth.SessionPatches` | src/services/auth.service.ts:17-21 | signing in sets user, `isAuthenticated` and a token for that user, whatever the old context held; signing out restores the default context |
| `Auth.AuthService.constructor` | src/services/auth.service.ts:6 | the context starts as `createDefaultAuthContext()` |
| `Auth.AuthService.UpdateContext` | src/services/auth.service.ts:7-10 | the context becomes the merge of the old context with the patch, and is returned |
| `Auth.AuthService.Login` | src/services/auth.service.ts:14-19 | fails iff no stored user has the email, and then leaves the context unchanged. Otherwise signs in as the first user with that email, with a non-null token for that user; the resulting context is returned |
| `Auth.AuthService.Logout` | src/services/auth.service.ts:20-22 | the context becomes the default: no user, not authenticated, no token |
| `Auth.AuthService.Register` | src/services/auth.service.ts:23-28 | fails iff the email is already stored, and then changes neither the users nor the context. Otherwise adds exactly one user, a `customer` with a new id, and signs in as them, leaving the session coherent. Email uniqueness is preserved |
| `Auth.AuthService.CurrentUser` | src/services/auth.service.ts:29-31 | returns the context's user, present exactly when authenticated (coherent context); reads only |
| `Auth.AuthService.IsAuthenticated` | src/services/auth.service.ts:32-34 | returns the context's flag, which on a coherent context holds exactly when a token is held; reads only |
| `Catalog.ToLower` | src/services/product.service.ts:46 | lower-casing keeps the length and leaves no upper-case ASCII letter |
| `Catalog.Includes` | src/services/product.service.ts:46 | `String.prototype.includes`: the empty query and the text itself are included; an included query is no longer than the text |
| `Catalog.IncludesAt` | src/services/product.service.ts:46 | `includes` holds iff the query occurs at some position of the text |
| `Catalog.Matches` | src/services/product.service.ts:46 | the filter's test: the lower-cased name or description includes the query; the empty query matches every product, and a matching query is no longer than the name or the description |
| `Catalog.Merge` | src/services/product.service.ts:9 | the spread `{ ...c, ...u }`: an empty patch changes nothing, a field the patch sets takes the patch's value, a field it leaves out keeps the old value |
| `Catalog.Search` | src/services/product.service.ts:45-47 | the filter keeps exactly the products whose lower-cased name or description includes the query, and never lengthens the list |
| `Catalog.SearchAppend` | src/services/product.service.ts:45-47 | searching a concatenation is concatenating the searches, so store order is kept |
| `Catalog.EmptyQueryFindsAll` | src/services/product.service.ts:46 | the empty query returns every product, in order |
| `Catalog.UpperCaseQueryFindsNothing` | src/services/product.service.ts:46 | a query with an upper-case letter returns nothing, because the query itself is not lower-cased |
| `Catalog.ProductService.constructor` | src/services/product.service.ts:7 | the context starts as `createDefaultProductContext()` |
| `Catalog.ProductService.UpdateContext` | src/services/product.service.ts:8-11 | the context becomes the merge of the old context with the patch, and is returned |
| `Catalog.ProductService.ListProducts` | src/services/product.service.ts:15-27 | returns every stored product once, in insertion order; they become `availableProducts`, with `isLoading` false |
| `Catalog.ProductService.GetProduct` | src/services/product.service.ts:28-40 | returns `None` for an unknown id and the stored product otherwise; `currentProduct` becomes the result, even `None` |
| `Catalog.ProductService.SearchProducts` | src/services/product.service.ts:41-56 | returns exactly the stored products that match, in insertion order; they become `availableProducts`, with `isLoading` false |

## Left out

- Persistence, HTTP and MCP transport, logging and startup wiring are not part of this model.
- `getContext`: a plain read of the `context` field, which Dafny exposes directly.
- Catch blocks that cannot run. The store's reads and writes never throw, and
  the payment adapter turns its own exceptions into `false`. So the wrapping
  `catch` blocks of `getOrder`, `getUserOrders` and the three `ProductService`
  methods cannot run. The same holds for the non-`Error` branch of each
  `catch`. None of these is modelled.
- Orders.OrderService.CreateOrder: the failure branch at `order.service.ts:26`
  is not modelled. It checks that the order written at line 20 still exists,
  which the store's contract guarantees, and the method asserts this.
- Orders.OrderService.CreateOrder: the payment adapter's random 95% approval
  and delay are a free boolean parameter. The model does not state that the
  adapter received the order id and total.
- Orders.OrderService.UpdateOrderStatus: the shipping adapter is a log of the
  orders passed to it. Its delay and its return value (always `true`) are not
  modelled. A failing notification is not modelled either: the source would
  then fail after the status write.
- Timestamps. Each service call reads the clock once, as its `now` parameter,
  and every store write in that call uses it. The source reads the clock
  separately for each write.
- UUID generation, the `uuid` and `email` formats of the schemas, and base64
  token encoding are abstracted away. Ids are never-before-issued numbers, and
  a token keeps its user id and issue time.
- Catalog.ToLower folds only the ASCII letters A–Z. JavaScript's full Unicode
  case mapping is not modelled. `Catalog.UpperCaseQueryFindsNothing` therefore
  speaks only of ASCII upper-case letters.
- Floating-point prices and totals are exact integers (cents).
- Quantities and stock are integers (`int`), while the source types them as
  `number`. The `.int()` checks of `OrderItemSchema` and `ProductSchema` hold by
  type. `createOrder` does not validate its items, so it accepts a fractional
  quantity, and line 29 of `order.service.ts` would then write a fractional
  stock. That path cannot be expressed in the model.
- Concurrency is not modelled. Each operation is one sequential method, so the
  race between two interleaved `createOrder` calls on the same product is not
  modelled.
- `UserSchema` is not applied anywhere by the services (`register` does not
  check the name). The user record is modelled without a validity predicate.
- Status-transition validation does not exist in the source and is not
  modelled.

## Findings

| source | as written | input that shows it | evidently intended | confidence | as-written member | corrected member |
|---|---|---|---|---|---|---|
| src/services/order.service.ts:27-30 | each item writes back `p.stock - i.quantity` with no check, after payment has already succeeded | a product with stock 1 and two items for it, quantity 1 each, with payment approved: its stock becomes −1 | stock stays ≥ 0, as `ProductSchema` requires (`src/models/product.model.ts:2`) | not executed; high | `Orders.OversoldStockGoesNegative` | `Orders.OrderService.CreateOrderChecked` |
