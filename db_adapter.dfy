/**
 * The in-memory store (`DatabaseAdapter`): three insertion-ordered maps of
 * users, products and orders, read by id and written by `create*` and `update*`.
 */
module Db {
  import opened Wrappers
  import opened Keyed
  import opened UserModel
  import opened ProductModel
  import opened OrderModel

  /** The first user of `us` whose email is `email`, if there is one. */
  function FirstWithEmail(us: seq<User>, email: string): (r: Option<User>)
    ensures r.Some? ==> r.value in us && r.value.email == email
    ensures r.None? <==> forall u | u in us :: u.email != email
  {
    if us == [] then None
    else if us[0].email == email then Some(us[0])
    else FirstWithEmail(us[1..], email)
  }

  /** The orders of `os` placed by user `uid`, kept in the order of `os`. */
  function OrdersOf(os: seq<Order>, uid: Id): (r: seq<Order>)
    ensures |r| <= |os|
    ensures forall o :: o in r <==> o in os && o.userId == uid
  {
    if os == [] then []
    else (if os[0].userId == uid then [os[0]] else []) + OrdersOf(os[1..], uid)
  }

  class Store {
    var users: map<Id, User>
    var userKeys: seq<Id>
    var products: map<Id, Product>
    var productKeys: seq<Id>
    var orders: map<Id, Order>
    var orderKeys: seq<Id>
    /** Every id issued so far lies below this one, so it has never been issued. */
    var nextId: Id

    /** Each map is listed by its key sequence, and each record is stored under its own id. */
    ghost predicate Valid()
      reads this
    {
      && Ordered(users, userKeys)
      && Ordered(products, productKeys)
      && Ordered(orders, orderKeys)
      && (forall k | k in users :: users[k].id == k && k < nextId)
      && (forall k | k in products :: products[k].id == k && k < nextId)
      && (forall k | k in orders :: orders[k].id == k && k < nextId)
    }

    /** No two users share an email address. */
    ghost predicate EmailsUnique()
      reads this
    {
      forall j, k | j in users && k in users && j != k :: users[j].email != users[k].email
    }

    constructor ()
      ensures Valid()
      ensures users == map[] && products == map[] && orders == map[]
    {
      users, userKeys := map[], [];
      products, productKeys := map[], [];
      orders, orderKeys := map[], [];
      nextId := 0;
    }

    /** The users in insertion order: what `this.users.values()` iterates over. */
    function UserList(): seq<User>
      reads this
      requires Valid()
    {
      Values(users, userKeys)
    }

    /** Scans the users in insertion order and returns the first with this email. */
    method FindUserByEmail(email: string) returns (r: Option<User>)
      requires Valid()
      ensures r == FirstWithEmail(UserList(), email)
      ensures r.Some? ==> r.value.id in users && users[r.value.id] == r.value && r.value.email == email
      ensures r.None? <==> forall k | k in users :: users[k].email != email
    {
      ghost var us := UserList();
      var i := 0;
      while i < |userKeys|
        invariant 0 <= i <= |userKeys|
        invariant FirstWithEmail(us[i..], email) == FirstWithEmail(us, email)
      {
        var u := users[userKeys[i]];
        if u.email == email {
          r := Some(u);
          ValuesOfOrdered(users, userKeys);
          return;
        }
        assert us[i..][1..] == us[i + 1..];
        i := i + 1;
      }
      r := None;
      ValuesOfOrdered(users, userKeys);
    }

    method CreateUser(email: string, name: string, role: Role, now: Time) returns (u: User)
      requires Valid()
      modifies this
      ensures Valid()
      ensures u.id !in old(users)
      ensures u == User(u.id, email, name, role, now, now)
      ensures users == old(users)[u.id := u] && userKeys == old(userKeys) + [u.id]
      ensures GetUser(u.id) == Some(u)
      ensures products == old(products) && productKeys == old(productKeys)
      ensures orders == old(orders) && orderKeys == old(orderKeys)
    {
      u := User(nextId, email, name, role, now, now);
      OrderedInsert(users, userKeys, u.id, u);
      users, userKeys := users[u.id := u], userKeys + [u.id];
      nextId := nextId + 1;
    }

    function GetUser(id: Id): (r: Option<User>)
      reads this
      ensures r.None? <==> id !in users
      ensures r.Some? ==> r.value == users[id]
    {
      if id in users then Some(users[id]) else None
    }

    /** Every stored product, once each, in insertion order. */
    function ListProducts(): (r: seq<Product>)
      reads this
      requires Valid()
      ensures |r| == |products|
      ensures forall p :: p in r <==> p in products.Values
    {
      ValuesOfOrdered(products, productKeys);
      Values(products, productKeys)
    }

    function GetProduct(id: Id): (r: Option<Product>)
      reads this
      ensures r.None? <==> id !in products
      ensures r.Some? ==> r.value == products[id]
    {
      if id in products then Some(products[id]) else None
    }

    method CreateProduct(name: string, description: string, price: int, stock: int, now: Time)
      returns (p: Product)
      requires Valid()
      modifies this
      ensures Valid()
      ensures p.id !in old(products)
      ensures p == Product(p.id, name, description, price, stock, now, now)
      ensures products == old(products)[p.id := p] && productKeys == old(productKeys) + [p.id]
      ensures GetProduct(p.id) == Some(p)
      ensures users == old(users) && userKeys == old(userKeys)
      ensures orders == old(orders) && orderKeys == old(orderKeys)
    {
      p := Product(nextId, name, description, price, stock, now, now);
      OrderedInsert(products, productKeys, p.id, p);
      products, productKeys := products[p.id := p], productKeys + [p.id];
      nextId := nextId + 1;
    }

    /** Overwrites one product's stock as given, with no check on its sign. */
    method UpdateProductStock(id: Id, stock: int, now: Time) returns (r: Option<Product>)
      requires Valid()
      modifies this
      ensures Valid()
      ensures id !in old(products) ==> r.None? && products == old(products)
      ensures id in old(products) ==>
        && r == Some(old(products[id]).(stock := stock, updatedAt := now))
        && products == old(products)[id := r.value]
      ensures productKeys == old(productKeys)
      ensures users == old(users) && userKeys == old(userKeys)
      ensures orders == old(orders) && orderKeys == old(orderKeys)
    {
      if id !in products {
        return None;
      }
      var up := products[id].(stock := stock, updatedAt := now);
      products := products[id := up];
      return Some(up);
    }

    method CreateOrder(userId: Id, items: seq<OrderItem>, total: int, status: Status, now: Time)
      returns (o: Order)
      requires Valid()
      modifies this
      ensures Valid()
      ensures o.id !in old(orders)
      ensures o == Order(o.id, userId, items, total, status, now, now)
      ensures orders == old(orders)[o.id := o] && orderKeys == old(orderKeys) + [o.id]
      ensures GetOrder(o.id) == Some(o)
      ensures users == old(users) && userKeys == old(userKeys)
      ensures products == old(products) && productKeys == old(productKeys)
    {
      o := Order(nextId, userId, items, total, status, now, now);
      OrderedInsert(orders, orderKeys, o.id, o);
      orders, orderKeys := orders[o.id := o], orderKeys + [o.id];
      nextId := nextId + 1;
    }

    function GetOrder(id: Id): (r: Option<Order>)
      reads this
      ensures r.None? <==> id !in orders
      ensures r.Some? ==> r.value == orders[id]
    {
      if id in orders then Some(orders[id]) else None
    }

    /** The stored orders of one user, in insertion order; empty when there are none. */
    function GetUserOrders(uid: Id): (r: seq<Order>)
      reads this
      requires Valid()
      ensures forall o :: o in r <==> o in orders.Values && o.userId == uid
      ensures r == [] <==> forall k | k in orders :: orders[k].userId != uid
    {
      ValuesOfOrdered(orders, orderKeys);
      var r := OrdersOf(Values(orders, orderKeys), uid);
      assert r != [] ==> r[0] in r;
      r
    }

    /** Overwrites one order's status as given, with no check on the transition. */
    method UpdateOrderStatus(id: Id, status: Status, now: Time) returns (r: Option<Order>)
      requires Valid()
      modifies this
      ensures Valid()
      ensures id !in old(orders) ==> r.None? && orders == old(orders)
      ensures id in old(orders) ==>
        && r == Some(old(orders[id]).(status := status, updatedAt := now))
        && orders == old(orders)[id := r.value]
      ensures orderKeys == old(orderKeys)
      ensures users == old(users) && userKeys == old(userKeys)
      ensures products == old(products) && productKeys == old(productKeys)
    {
      if id !in orders {
        return None;
      }
      var up := orders[id].(status := status, updatedAt := now);
      orders := orders[id := up];
      return Some(up);
    }

    /** Adds the two demo users and three demo products (prices in cents). */
    method Seed(now: Time)
      requires Valid()
      modifies this
      ensures Valid()
      ensures var n := |old(userKeys)|;
        && |userKeys| == n + 2 && userKeys[..n] == old(userKeys)
        && users == old(users)
             [userKeys[n] := User(userKeys[n], "admin@example.com", "Admin User", Admin, now, now)]
             [userKeys[n + 1] := User(userKeys[n + 1], "customer@example.com", "Test Customer", Customer, now, now)]
      ensures var n := |old(productKeys)|;
        && |productKeys| == n + 3 && productKeys[..n] == old(productKeys)
        && products == old(products)
             [productKeys[n] := Product(productKeys[n], "Product 1", "This is the first product", 1999, 100, now, now)]
             [productKeys[n + 1] := Product(productKeys[n + 1], "Product 2", "This is the second product", 2999, 50, now, now)]
             [productKeys[n + 2] := Product(productKeys[n + 2], "Product 3", "This is the third product", 3999, 25, now, now)]
      ensures forall k | k in products && k !in old(products) :: ValidProduct(products[k])
      ensures orders == old(orders) && orderKeys == old(orderKeys)
    {
      SeedUsers(now);
      SeedProducts(now);
    }

    /** The user half of Seed. */
    method SeedUsers(now: Time)
      requires Valid()
      modifies this
      ensures Valid()
      ensures var n := |old(userKeys)|;
        && |userKeys| == n + 2 && userKeys[..n] == old(userKeys)
        && users == old(users)
             [userKeys[n] := User(userKeys[n], "admin@example.com", "Admin User", Admin, now, now)]
             [userKeys[n + 1] := User(userKeys[n + 1], "customer@example.com", "Test Customer", Customer, now, now)]
      ensures products == old(products) && productKeys == old(productKeys)
      ensures orders == old(orders) && orderKeys == old(orderKeys)
    {
      ghost var us := userKeys;
      var admin := CreateUser("admin@example.com", "Admin User", Admin, now);
      var customer := CreateUser("customer@example.com", "Test Customer", Customer, now);
      assert userKeys == us + [admin.id, customer.id];
    }

    /** The product half of Seed. */
    method SeedProducts(now: Time)
      requires Valid()
      modifies this
      ensures Valid()
      ensures var n := |old(productKeys)|;
        && |productKeys| == n + 3 && productKeys[..n] == old(productKeys)
        && products == old(products)
             [productKeys[n] := Product(productKeys[n], "Product 1", "This is the first product", 1999, 100, now, now)]
             [productKeys[n + 1] := Product(productKeys[n + 1], "Product 2", "This is the second product", 2999, 50, now, now)]
             [productKeys[n + 2] := Product(productKeys[n + 2], "Product 3", "This is the third product", 3999, 25, now, now)]
      ensures forall k | k in products && k !in old(products) :: ValidProduct(products[k])
      ensures users == old(users) && userKeys == old(userKeys)
      ensures orders == old(orders) && orderKeys == old(orderKeys)
    {
      ghost var ps := productKeys;
      ghost var m: map<Id, Product> := products;
      var p1 := CreateProduct("Product 1", "This is the first product", 1999, 100, now);
      var p2 := CreateProduct("Product 2", "This is the second product", 2999, 50, now);
      var p3 := CreateProduct("Product 3", "This is the third product", 3999, 25, now);
      assert productKeys == ps + [p1.id, p2.id, p3.id];
      assert products == m[p1.id := p1][p2.id := p2][p3.id := p3];
      assert ValidProduct(p1) && ValidProduct(p2) && ValidProduct(p3);
    }
  }
}
