/** Products and the checks `ProductSchema` makes of them. */
module ProductModel {
  import opened Keyed

  /** `price` is in cents; `stock` is an `int` because the order flow can drive it below zero. */
  datatype Product = Product(
    id: Id,
    name: string,
    description: string,
    price: int,
    stock: int,
    createdAt: Time,
    updatedAt: Time)

  /**
   * `ProductSchema`: a non-empty name, a positive price and a stock of at least
   * zero. The description may be any string.
   */
  predicate ValidProduct(p: Product): (b: bool)
    ensures b ==> p.name != []
  {
    |p.name| >= 1 && p.price > 0 && p.stock >= 0
  }

  /** Every product of a store map passes `ProductSchema`. */
  predicate AllValid(ps: map<Id, Product>) {
    forall id | id in ps :: ValidProduct(ps[id])
  }
}
