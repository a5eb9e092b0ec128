/**
 * `OrderService`: places orders (pending write, payment, compensation or
 * processing, stock decrement), reads them back and sets their status, keeping
 * an observability context that every call replaces by a record merge.
 */
module Orders {
  import opened Wrappers
  import opened Keyed
  import opened Errors
  import opened OrderModel
  import opened ProductModel
  import opened Db

  /** `OrderContext`: the last order seen, the last history read, the busy flag and the last error. */
  datatype OrderContext = OrderContext(
    currentOrder: Option<Order>,
    orderHistory: seq<Order>,
    isProcessing: bool,
    error: Option<Error>)

  /** `createDefaultOrderContext()`. */
  const DefaultContext := OrderContext(None, [], false, None)

  /** A `Partial<OrderContext>`: a field that is `None` is absent from the object literal. */
  datatype OrderPatch = OrderPatch(
    currentOrder: Option<Option<Order>>,
    orderHistory: Option<seq<Order>>,
    isProcessing: Option<bool>,
    error: Option<Option<Error>>)

  /** The empty object literal `{}`. */
  const NoChange := OrderPatch(None, None, None, None)

  /** `{ ...c, ...u }`: each field present in `u` replaces the one in `c`. */
  function Merge(c: OrderContext, u: OrderPatch): (r: OrderContext)
    ensures u == NoChange ==> r == c
    // a field the patch sets takes the patch's value
    ensures
      && (u.currentOrder.Some? ==> r.currentOrder == u.currentOrder.value)
      && (u.orderHistory.Some? ==> r.orderHistory == u.orderHistory.value)
      && (u.isProcessing.Some? ==> r.isProcessing == u.isProcessing.value)
      && (u.error.Some? ==> r.error == u.error.value)
    // a field the patch leaves out keeps the old value
    ensures
      && (u.currentOrder.None? ==> r.currentOrder == c.currentOrder)
      && (u.orderHistory.None? ==> r.orderHistory == c.orderHistory)
      && (u.isProcessing.None? ==> r.isProcessing == c.isProcessing)
      && (u.error.None? ==> r.error == c.error)
  {
    OrderContext(
      u.currentOrder.GetOr(c.currentOrder),
      u.orderHistory.GetOr(c.orderHistory),
      u.isProcessing.GetOr(c.isProcessing),
      u.error.GetOr(c.error))
  }

  /** `{ ...p, ...q }`: the patch that merging `p` and then `q` amounts to. */
  function Then(p: OrderPatch, q: OrderPatch): OrderPatch {
    OrderPatch(
      if q.currentOrder.Some? then q.currentOrder else p.currentOrder,
      if q.orderHistory.Some? then q.orderHistory else p.orderHistory,
      if q.isProcessing.Some? then q.isProcessing else p.isProcessing,
      if q.error.Some? then q.error else p.error)
  }

  /**
   * Merging an empty patch changes nothing, merging a patch twice is merging it
   * once, and two merges in a row are one merge of the composed patch.
   */
  lemma MergeLaws(c: OrderContext, p: OrderPatch, q: OrderPatch)
    ensures Merge(c, NoChange) == c
    ensures Merge(Merge(c, p), p) == Merge(c, p)
    ensures Merge(Merge(c, p), q) == Merge(c, Then(p, q))
  {
  }

  /** The record `createOrder` hands to the store: the computed total, status `pending`. */
  function Placed(id: Id, uid: Id, items: seq<OrderItem>, now: Time): Order {
    Order(id, uid, items, Total(items), Pending, now, now)
  }

  /** Σ quantity over the items that name product `id`. */
  function QuantityOf(items: seq<OrderItem>, id: Id): int {
    if items == [] then 0
    else
      var last := items[|items| - 1];
      QuantityOf(items[..|items| - 1], id) + (if last.productId == id then last.quantity else 0)
  }

  /** Some item names product `id`. */
  ghost predicate Names(items: seq<OrderItem>, id: Id) {
    exists i | i in items :: i.productId == id
  }

  /**
   * The products after the stock loop of `createOrder`: item by item, a product
   * that exists is re-read and written back with its stock less the item's
   * quantity; an item whose product is missing is skipped.
   */
  function Decremented(ps: map<Id, Product>, items: seq<OrderItem>, now: Time): (r: map<Id, Product>)
    ensures r.Keys == ps.Keys
  {
    if items == [] then ps
    else
      var rest := Decremented(ps, items[..|items| - 1], now);
      var i := items[|items| - 1];
      if i.productId in rest
      then rest[i.productId := rest[i.productId].(stock := rest[i.productId].stock - i.quantity, updatedAt := now)]
      else rest
  }

  /**
   * After the stock loop, exactly the products some item names have changed,
   * each by the total quantity ordered of it (duplicates accumulate); no
   * product is added or removed and no field but stock and updatedAt changes.
   */
  lemma {:induction false} DecrementedStock(ps: map<Id, Product>, items: seq<OrderItem>, now: Time)
    ensures Decremented(ps, items, now).Keys == ps.Keys
    ensures forall id | id in ps ::
      Decremented(ps, items, now)[id] ==
        if Names(items, id)
        then ps[id].(stock := ps[id].stock - QuantityOf(items, id), updatedAt := now)
        else ps[id]
  {
    if items != [] {
      var init := items[..|items| - 1];
      var last := items[|items| - 1];
      DecrementedStock(ps, init, now);
      assert items == init + [last];
      var rest := Decremented(ps, init, now);
      forall id | id in ps
        ensures Decremented(ps, items, now)[id] ==
          if Names(items, id)
          then ps[id].(stock := ps[id].stock - QuantityOf(items, id), updatedAt := now)
          else ps[id]
      {
        NamesSnoc(init, last, id);
        assert QuantityOf(items, id) == QuantityOf(init, id) + (if last.productId == id then last.quantity else 0);
        if id == last.productId {
          if !Names(init, id) {
            NotNamedNoQuantity(init, id);
          }
          assert Decremented(ps, items, now)[id] == rest[id].(stock := rest[id].stock - last.quantity, updatedAt := now);
        } else {
          assert Decremented(ps, items, now)[id] == rest[id];
        }
      }
    }
  }

  lemma NamesSnoc(init: seq<OrderItem>, last: OrderItem, id: Id)
    ensures Names(init + [last], id) <==> Names(init, id) || last.productId == id
  {
    var items := init + [last];
    if Names(items, id) {
      var i :| i in items && i.productId == id;
      if i != last {
        assert i in init;
      }
    }
    if Names(init, id) {
      var i :| i in init && i.productId == id;
      assert i in items;
    }
    if last.productId == id {
      assert last in items;
    }
  }

  /**
   * Starting from valid products, the stock loop leaves every product valid
   * exactly when no product is ordered beyond its stock; otherwise some stock
   * goes below zero, because the decrement is unguarded.
   */
  lemma StockStaysValid(ps: map<Id, Product>, items: seq<OrderItem>, now: Time)
    requires AllValid(ps)
    ensures AllValid(Decremented(ps, items, now)) <==> Covers(ps, items)
  {
    DecrementedStock(ps, items, now);
    var after := Decremented(ps, items, now);
    forall id | id in ps && !Names(items, id) ensures QuantityOf(items, id) == 0 {
      NotNamedNoQuantity(items, id);
    }
    if AllValid(after) {
      forall id | id in ps ensures ps[id].stock >= QuantityOf(items, id) {
        assert ValidProduct(after[id]);
      }
    }
  }

  lemma {:induction false} NotNamedNoQuantity(items: seq<OrderItem>, id: Id)
    requires !Names(items, id)
    ensures QuantityOf(items, id) == 0
  {
    if items != [] {
      var init := items[..|items| - 1];
      assert items[|items| - 1] in items;
      assert !Names(init, id) by {
        forall i | i in init ensures i.productId != id {
          assert i in items;
        }
      }
      NotNamedNoQuantity(init, id);
    }
  }

  /** Every stored product has at least the stock the items order of it. */
  predicate Covers(ps: map<Id, Product>, items: seq<OrderItem>) {
    forall id | id in ps :: ps[id].stock >= QuantityOf(items, id)
  }

  /** A product with stock 1, ordered twice in one call (1 + 1), ends at stock -1. */
  lemma OversoldStockGoesNegative()
    ensures var ps := map[7 := Product(7, "Product 1", "", 1999, 1, 0, 0)];
            var items := [OrderItem(7, 1, 1999), OrderItem(7, 1, 1999)];
            && AllValid(ps)
            && 7 in Decremented(ps, items, 0)
            && Decremented(ps, items, 0)[7].stock == -1
            && !AllValid(Decremented(ps, items, 0))
  {
    var ps := map[7 := Product(7, "Product 1", "", 1999, 1, 0, 0)];
    var items := [OrderItem(7, 1, 1999), OrderItem(7, 1, 1999)];
    assert items[..1][..0] == [];
    assert items[0] in items;
    DecrementedStock(ps, items, 0);
  }

  class OrderService {
    /** The shared store (`db`). */
    const db: Store
    var context: OrderContext
    /** The orders handed to the shipping adapter's `notifyShipping`, in call order. */
    var shipments: seq<Order>

    constructor (db: Store)
      ensures this.db == db && context == DefaultContext && shipments == []
    {
      this.db := db;
      context := DefaultContext;
      shipments := [];
    }

    method UpdateContext(u: OrderPatch) returns (c: OrderContext)
      modifies this`context
      ensures context == Merge(old(context), u) && c == context
    {
      context := Merge(context, u);
      c := context;
    }

    /**
     * Places an order. `paymentApproved` is the payment adapter's answer for
     * this order id and total. On a decline the order stays in the store as
     * `cancelled`, no stock moves and the call fails; on approval the order is
     * `processing` and every named product that exists loses the ordered quantity.
     */
    method CreateOrder(uid: Id, items: seq<OrderItem>, paymentApproved: bool, now: Time)
      returns (r: Result<Order, Error>)
      requires db.Valid()
      modifies this, db
      ensures db.Valid()
      ensures db.users == old(db.users) && db.userKeys == old(db.userKeys)
      ensures db.productKeys == old(db.productKeys)
      ensures shipments == old(shipments)
      ensures r.Ok? <==> paymentApproved
      ensures !paymentApproved ==>
        r.Err? && r.error.PaymentFailed? &&
        var id := r.error.orderId;
        && id !in old(db.orders)
        && db.orders == old(db.orders)[id := Placed(id, uid, items, now).(status := Cancelled)]
        && db.orderKeys == old(db.orderKeys) + [id]
        && db.products == old(db.products)
        && context == old(context).(isProcessing := false, error := Some(r.error))
      ensures paymentApproved ==>
        r.Ok? &&
        var id := r.value.id;
        && id !in old(db.orders)
        && r.value == Placed(id, uid, items, now).(status := Processing)
        && db.orders == old(db.orders)[id := r.value]
        && db.orderKeys == old(db.orderKeys) + [id]
        && db.products == Decremented(old(db.products), items, now)
        && context == old(context).(currentOrder := Some(r.value), isProcessing := false, error := None)
    {
      var _ := UpdateContext(NoChange.(isProcessing := Some(true), error := Some(None)));
      assert context == old(context).(isProcessing := true, error := None);
      var total := Total(items);
      var o := db.CreateOrder(uid, items, total, Pending, now);
      if !paymentApproved {
        var err := Decline(o.id, now);
        return Err(err);
      }
      var p := Fulfil(o.id, items, now);
      return Ok(p);
    }

    /**
     * The decline half of `createOrder`: mark the stored order `cancelled` and
     * record the payment failure in the context.
     */
    method Decline(id: Id, now: Time) returns (err: Error)
      requires db.Valid() && id in db.orders
      modifies this, db
      ensures db.Valid()
      ensures err == PaymentFailed(id)
      ensures db.orders == old(db.orders)[id := old(db.orders[id]).(status := Cancelled, updatedAt := now)]
      ensures db.orderKeys == old(db.orderKeys)
      ensures db.products == old(db.products) && db.productKeys == old(db.productKeys)
      ensures db.users == old(db.users) && db.userKeys == old(db.userKeys)
      ensures shipments == old(shipments)
      ensures context == old(context).(isProcessing := false, error := Some(err))
    {
      var _ := db.UpdateOrderStatus(id, Cancelled, now);
      err := PaymentFailed(id);
      var _ := UpdateContext(NoChange.(isProcessing := Some(false), error := Some(Some(err))));
    }

    /**
     * The approval half of `createOrder`: mark the stored order `processing`,
     * take its items out of stock and make it the current order.
     */
    method Fulfil(id: Id, items: seq<OrderItem>, now: Time) returns (o: Order)
      requires db.Valid() && id in db.orders
      modifies this, db
      ensures db.Valid()
      ensures o == old(db.orders[id]).(status := Processing, updatedAt := now)
      ensures db.orders == old(db.orders)[id := o] && db.orderKeys == old(db.orderKeys)
      ensures db.products == Decremented(old(db.products), items, now)
      ensures db.productKeys == old(db.productKeys)
      ensures db.users == old(db.users) && db.userKeys == old(db.userKeys)
      ensures shipments == old(shipments)
      ensures context == old(context).(currentOrder := Some(o), isProcessing := false)
    {
      var uo := db.UpdateOrderStatus(id, Processing, now);
      // The order is stored, so the "failed to update" branch cannot fire.
      assert uo.Some?;
      DecrementStock(items, now);
      var _ := UpdateContext(NoChange.(currentOrder := Some(uo), isProcessing := Some(false)));
      return uo.value;
    }

    /**
     * The stock loop of `createOrder`: for each item, re-read its product and,
     * if it exists, write back its stock less the item's quantity.
     */
    method DecrementStock(items: seq<OrderItem>, now: Time)
      requires db.Valid()
      modifies db
      ensures db.Valid()
      ensures db.products == Decremented(old(db.products), items, now)
      ensures db.productKeys == old(db.productKeys)
      ensures db.users == old(db.users) && db.userKeys == old(db.userKeys)
      ensures db.orders == old(db.orders) && db.orderKeys == old(db.orderKeys)
    {
      var k := 0;
      while k < |items|
        invariant 0 <= k <= |items|
        invariant db.Valid()
        invariant db.products == Decremented(old(db.products), items[..k], now)
        invariant db.productKeys == old(db.productKeys)
        invariant db.users == old(db.users) && db.userKeys == old(db.userKeys)
        invariant db.orders == old(db.orders) && db.orderKeys == old(db.orderKeys)
      {
        var item := items[k];
        assert items[..k + 1][..k] == items[..k];
        var p := db.GetProduct(item.productId);
        if p.Some? {
          var _ := db.UpdateProductStock(p.value.id, p.value.stock - item.quantity, now);
        }
        k := k + 1;
      }
      assert items[..k] == items;
    }

    /** Reads one order; an unknown id gives `None` and also clears `currentOrder`. */
    method GetOrder(id: Id) returns (r: Option<Order>)
      modifies this`context
      ensures r.None? <==> id !in db.orders
      ensures r.Some? ==> r.value == db.orders[id]
      ensures context == old(context).(currentOrder := r, isProcessing := false, error := None)
    {
      var _ := UpdateContext(NoChange.(isProcessing := Some(true), error := Some(None)));
      var o := db.GetOrder(id);
      var _ := UpdateContext(NoChange.(currentOrder := Some(o), isProcessing := Some(false)));
      return o;
    }

    /** Reads a user's orders and records them as the order history. */
    method GetUserOrders(uid: Id) returns (r: seq<Order>)
      requires db.Valid()
      modifies this`context
      ensures forall o :: o in r <==> o in db.orders.Values && o.userId == uid
      ensures r == [] <==> forall k | k in db.orders :: db.orders[k].userId != uid
      ensures r == db.GetUserOrders(uid)
      ensures context == old(context).(orderHistory := r, isProcessing := false, error := None)
    {
      var _ := UpdateContext(NoChange.(isProcessing := Some(true), error := Some(None)));
      var os := db.GetUserOrders(uid);
      var _ := UpdateContext(NoChange.(orderHistory := Some(os), isProcessing := Some(false)));
      return os;
    }

    /**
     * Sets an order's status to whatever is asked, with no transition check; an
     * unknown id fails. A `shipped` status is reported to the shipping adapter.
     */
    method UpdateOrderStatus(id: Id, status: Status, now: Time) returns (r: Result<Order, Error>)
      requires db.Valid()
      modifies this, db
      ensures db.Valid()
      ensures db.users == old(db.users) && db.userKeys == old(db.userKeys)
      ensures db.products == old(db.products) && db.productKeys == old(db.productKeys)
      ensures db.orderKeys == old(db.orderKeys)
      ensures id !in old(db.orders) ==>
        && r == Err(OrderNotFound(id))
        && db.orders == old(db.orders)
        && shipments == old(shipments)
        && context == old(context).(isProcessing := false, error := Some(r.error))
      ensures id in old(db.orders) ==>
        && r == Ok(old(db.orders)[id].(status := status, updatedAt := now))
        && db.orders == old(db.orders)[id := r.value]
        && shipments == old(shipments) + (if status == Shipped then [r.value] else [])
        && context == old(context).(currentOrder := Some(r.value), isProcessing := false, error := None)
    {
      var _ := UpdateContext(NoChange.(isProcessing := Some(true), error := Some(None)));
      var uo := db.UpdateOrderStatus(id, status, now);
      if uo.None? {
        var err := OrderNotFound(id);
        var _ := UpdateContext(NoChange.(isProcessing := Some(false), error := Some(Some(err))));
        return Err(err);
      }
      if status == Shipped {
        shipments := shipments + [uo.value];
      }
      var _ := UpdateContext(NoChange.(currentOrder := Some(uo), isProcessing := Some(false)));
      assert context == old(context).(currentOrder := uo, isProcessing := false, error := None);
      return Ok(uo.value);
    }

    /**
     * A hardened `createOrder`, not in the source: it rejects an empty or
     * malformed item list and an order that would oversell some product before
     * anything is written, and otherwise runs `CreateOrder`. It keeps every
     * product valid and only ever stores a valid order.
     */
    method CreateOrderChecked(uid: Id, items: seq<OrderItem>, paymentApproved: bool, now: Time)
      returns (r: Result<Order, Error>)
      requires db.Valid()
      modifies this, db
      ensures db.Valid()
      ensures db.users == old(db.users) && db.userKeys == old(db.userKeys)
      ensures db.productKeys == old(db.productKeys)
      ensures shipments == old(shipments)
      ensures r.Err? ==> context == old(context).(isProcessing := false, error := Some(r.error))
      ensures r.Err? && !r.error.PaymentFailed? ==>
        db.orders == old(db.orders) && db.orderKeys == old(db.orderKeys) && db.products == old(db.products)
      ensures (items == [] || !ValidItems(items)) ==> r == Err(InvalidInput)
      ensures items != [] && ValidItems(items) && !Covers(old(db.products), items) ==>
        r.Err? && r.error.InsufficientStock? &&
        var pid := r.error.productId;
        pid in old(db.products) && old(db.products)[pid].stock < QuantityOf(items, pid)
      ensures r.Err? ==> db.products == old(db.products)
      ensures items != [] && ValidItems(items) && Covers(old(db.products), items) && !paymentApproved ==>
        r.Err? && r.error.PaymentFailed? &&
        var id := r.error.orderId;
        && id !in old(db.orders)
        && db.orders == old(db.orders)[id := Placed(id, uid, items, now).(status := Cancelled)]
        && db.orderKeys == old(db.orderKeys) + [id]
      ensures items != [] && ValidItems(items) && Covers(old(db.products), items) && paymentApproved ==>
        r.Ok? &&
        var id := r.value.id;
        && id !in old(db.orders)
        && r.value == Placed(id, uid, items, now).(status := Processing)
        && db.orders == old(db.orders)[id := r.value]
        && db.orderKeys == old(db.orderKeys) + [id]
        && context == old(context).(currentOrder := Some(r.value), isProcessing := false, error := None)
      ensures r.Ok? ==>
        && ValidOrder(r.value)
        && r.value.status == Processing
        && db.products == Decremented(old(db.products), items, now)
        && (AllValid(old(db.products)) ==> AllValid(db.products))
    {
      var _ := UpdateContext(NoChange.(isProcessing := Some(true), error := Some(None)));
      if items == [] || !ValidItems(items) {
        var _ := UpdateContext(NoChange.(isProcessing := Some(false), error := Some(Some(InvalidInput))));
        return Err(InvalidInput);
      }
      if !Covers(db.products, items) {
        var pid :| pid in db.products && db.products[pid].stock < QuantityOf(items, pid);
        var err := InsufficientStock(pid);
        var _ := UpdateContext(NoChange.(isProcessing := Some(false), error := Some(Some(err))));
        return Err(err);
      }
      ghost var ps0 := db.products;
      r := CreateOrder(uid, items, paymentApproved, now);
      if r.Ok? {
        ComputedOrderValid(r.value);
        if AllValid(ps0) {
          StockStaysValid(ps0, items, now);
        }
      }
    }
  }

  /**
   * Product P1 at 10.00 with stock 5, and one order of two units at 10.00. With
   * the payment approved the order is processing, its total is 20.00 and P1 has
   * 3 left; with it declined the order is cancelled and P1 keeps all 5.
   */
  method PlaceOrderScenario(approved: bool) {
    var db := new Store();
    var p1 := db.CreateProduct("P1", "", 1000, 5, 0);
    var service := new OrderService(db);
    var items := [OrderItem(p1.id, 2, 1000)];
    var r := service.CreateOrder(0, items, approved, 1);
    assert items[..0] == [] && items[0] in items;
    assert Total(items) == 2000;
    DecrementedStock(map[p1.id := p1], items, 1);
    if approved {
      assert r.value.status == Processing && r.value.total == 2000;
      assert db.products[p1.id].stock == 3;
    } else {
      assert db.orders[r.error.orderId].status == Cancelled;
      assert db.products[p1.id].stock == 5;
    }
  }
}
