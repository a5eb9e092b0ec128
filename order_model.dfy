/** Orders and their items, and the checks `OrderItemSchema` and `OrderSchema` make of them. */
module OrderModel {
  import opened Keyed

  /** The five values of the status enum; no other status can be written. */
  datatype Status = Pending | Processing | Shipped | Delivered | Cancelled

  /** One line of an order. `price` is the unit price (in cents) the caller supplied. */
  datatype OrderItem = OrderItem(productId: Id, quantity: int, price: int)

  datatype Order = Order(
    id: Id,
    userId: Id,
    items: seq<OrderItem>,
    total: int,
    status: Status,
    createdAt: Time,
    updatedAt: Time)

  /** `OrderItemSchema`: an integer quantity above zero and a price above zero. */
  predicate ValidItem(i: OrderItem): (b: bool)
    ensures b ==> i.price * i.quantity > 0
  {
    i.quantity > 0 && i.price > 0
  }

  predicate ValidItems(items: seq<OrderItem>) {
    forall i | i in items :: ValidItem(i)
  }

  /** `OrderSchema`: a positive total and valid items (the status is one of five by its type). */
  predicate ValidOrder(o: Order): (b: bool)
    ensures b && o.total == Total(o.items) ==> o.items != []
  {
    o.total > 0 && ValidItems(o.items)
  }

  /** The sum of `price * quantity` over `items`, added up from the first item to the last. */
  function Total(items: seq<OrderItem>): (r: int)
    ensures ValidItems(items) ==> r >= 0
  {
    if items == [] then 0
    else
      var last := items[|items| - 1];
      assert last in items;
      Total(items[..|items| - 1]) + last.price * last.quantity
  }

  /** The total of a concatenation is the sum of the totals: the order of summing does not matter. */
  lemma {:induction false} TotalAppend(a: seq<OrderItem>, b: seq<OrderItem>)
    ensures Total(a + b) == Total(a) + Total(b)
  {
    if b == [] {
      assert a + b == a;
    } else {
      assert (a + b)[..|a + b| - 1] == a + b[..|b| - 1];
      TotalAppend(a, b[..|b| - 1]);
    }
  }

  /** Valid items never contribute a negative amount, and any one of them makes the total positive. */
  lemma {:induction false} TotalOfValidItems(items: seq<OrderItem>)
    requires ValidItems(items)
    ensures Total(items) >= 0
    ensures items != [] ==> Total(items) > 0
  {
    if items != [] {
      var last := items[|items| - 1];
      assert last in items;
      LinePositive(last);
      assert ValidItems(items[..|items| - 1]) by {
        forall i | i in items[..|items| - 1] ensures ValidItem(i) {
          assert i in items;
        }
      }
      TotalOfValidItems(items[..|items| - 1]);
    }
  }

  lemma LinePositive(i: OrderItem)
    requires ValidItem(i)
    ensures i.price * i.quantity > 0
  {
    assert i.price * i.quantity >= i.price * 1;
  }

  /**
   * An order whose total is computed from its items passes `OrderSchema` exactly
   * when it has at least one item and every item is valid: an empty order has
   * total 0 and fails the positive-total check.
   */
  lemma ComputedOrderValid(o: Order)
    requires o.total == Total(o.items)
    ensures ValidOrder(o) <==> o.items != [] && ValidItems(o.items)
  {
    if ValidItems(o.items) {
      TotalOfValidItems(o.items);
    }
  }
}
