/**
 * `ProductService`: lists, reads and searches the store's products, keeping the
 * last results in a context replaced by record merge. The search lower-cases
 * each product's name and description but not the query.
 */
module Catalog {
  import opened Wrappers
  import opened Keyed
  import opened Errors
  import opened ProductModel
  import opened Db

  predicate IsUpper(c: char) {
    'A' <= c <= 'Z'
  }

  function LowerChar(c: char): char {
    if IsUpper(c) then (c as int + 32) as char else c
  }

  /** `toLowerCase()`, on the ASCII letters. */
  function ToLower(s: string): (r: string)
    ensures |r| == |s|
    ensures forall i | 0 <= i < |r| :: !IsUpper(r[i])
  {
    seq(|s|, i requires 0 <= i < |s| => LowerChar(s[i]))
  }

  /** `s.includes(q)`: `q` occurs in `s` as a contiguous run; the empty string occurs in every string. */
  function Includes(s: string, q: string): (r: bool)
    ensures q == [] ==> r
    ensures r ==> |q| <= |s|
    ensures s == q ==> r
    decreases |s|
  {
    if |q| > |s| then false
    else s[..|q|] == q || Includes(s[1..], q)
  }

  /** `q` starts at position `i` of `s`. */
  predicate OccursAt(s: string, q: string, i: int) {
    0 <= i <= |s| - |q| && s[i..i + |q|] == q
  }

  /** `Includes` agrees with the direct definition: some position of `s` starts a copy of `q`. */
  lemma {:induction false} IncludesAt(s: string, q: string)
    ensures Includes(s, q) <==> exists i :: OccursAt(s, q, i)
    decreases |s|
  {
    if |q| <= |s| && s[..|q|] != q {
      IncludesAt(s[1..], q);
      if Includes(s[1..], q) {
        var i :| OccursAt(s[1..], q, i);
        assert s[i + 1..i + 1 + |q|] == s[1..][i..i + |q|];
        assert OccursAt(s, q, i + 1);
      }
      if exists i :: OccursAt(s, q, i) {
        var i :| OccursAt(s, q, i);
        assert i != 0;
        assert s[1..][i - 1..i - 1 + |q|] == s[i..i + |q|];
        assert OccursAt(s[1..], q, i - 1);
      }
    } else if |q| <= |s| {
      assert OccursAt(s, q, 0);
    }
  }

  /** The filter of `searchProducts`: the lower-cased name or description includes `q`. */
  predicate Matches(p: Product, q: string): (b: bool)
    ensures q == [] ==> b
    ensures b ==> |q| <= |p.name| || |q| <= |p.description|
  {
    Includes(ToLower(p.name), q) || Includes(ToLower(p.description), q)
  }

  /** `ps.filter(p => Matches(p, q))`: the matching products, in the order of `ps`. */
  function Search(ps: seq<Product>, q: string): (r: seq<Product>)
    ensures |r| <= |ps|
    ensures forall p :: p in r <==> p in ps && Matches(p, q)
  {
    if ps == [] then []
    else (if Matches(ps[0], q) then [ps[0]] else []) + Search(ps[1..], q)
  }

  /** Filtering distributes over concatenation, so the result keeps the order of the input. */
  lemma {:induction false} SearchAppend(a: seq<Product>, b: seq<Product>, q: string)
    ensures Search(a + b, q) == Search(a, q) + Search(b, q)
  {
    if a != [] {
      assert (a + b)[1..] == a[1..] + b;
      SearchAppend(a[1..], b, q);
    } else {
      assert a + b == b;
    }
  }

  /** The empty query matches every product. */
  lemma {:induction false} EmptyQueryFindsAll(ps: seq<Product>)
    ensures Search(ps, "") == ps
  {
    if ps != [] {
      assert ToLower(ps[0].name)[..0] == "";
      EmptyQueryFindsAll(ps[1..]);
    }
  }

  /** A lower-case text includes no query with an upper-case letter. */
  lemma {:induction false} NoUpperNoMatch(t: string, q: string, j: nat)
    requires forall i | 0 <= i < |t| :: !IsUpper(t[i])
    requires j < |q| && IsUpper(q[j])
    ensures !Includes(t, q)
    decreases |t|
  {
    if |q| <= |t| {
      assert t[..|q|][j] == t[j];
      NoUpperNoMatch(t[1..], q, j);
    }
  }

  /** The query is not lower-cased, so one holding an upper-case letter matches nothing. */
  lemma {:induction false} UpperCaseQueryFindsNothing(ps: seq<Product>, q: string, j: nat)
    requires j < |q| && IsUpper(q[j])
    ensures Search(ps, q) == []
  {
    if ps != [] {
      NoUpperNoMatch(ToLower(ps[0].name), q, j);
      NoUpperNoMatch(ToLower(ps[0].description), q, j);
      UpperCaseQueryFindsNothing(ps[1..], q, j);
    }
  }

  /** `ProductContext`: the last list shown, the last product read, the busy flag and the last error. */
  datatype ProductContext = ProductContext(
    availableProducts: seq<Product>,
    currentProduct: Option<Product>,
    isLoading: bool,
    error: Option<Error>)

  /** `createDefaultProductContext()`. */
  const DefaultContext := ProductContext([], None, false, None)

  /** A `Partial<ProductContext>`: a field that is `None` is absent from the object literal. */
  datatype ProductPatch = ProductPatch(
    availableProducts: Option<seq<Product>>,
    currentProduct: Option<Option<Product>>,
    isLoading: Option<bool>,
    error: Option<Option<Error>>)

  /** The empty object literal `{}`. */
  const NoChange := ProductPatch(None, None, None, None)

  /** `{ ...c, ...u }`: each field present in `u` replaces the one in `c`. */
  function Merge(c: ProductContext, u: ProductPatch): (r: ProductContext)
    ensures u == NoChange ==> r == c
    // a field the patch sets takes the patch's value
    ensures
      && (u.availableProducts.Some? ==> r.availableProducts == u.availableProducts.value)
      && (u.currentProduct.Some? ==> r.currentProduct == u.currentProduct.value)
      && (u.isLoading.Some? ==> r.isLoading == u.isLoading.value)
      && (u.error.Some? ==> r.error == u.error.value)
    // a field the patch leaves out keeps the old value
    ensures
      && (u.availableProducts.None? ==> r.availableProducts == c.availableProducts)
      && (u.currentProduct.None? ==> r.currentProduct == c.currentProduct)
      && (u.isLoading.None? ==> r.isLoading == c.isLoading)
      && (u.error.None? ==> r.error == c.error)
  {
    ProductContext(
      u.availableProducts.GetOr(c.availableProducts),
      u.currentProduct.GetOr(c.currentProduct),
      u.isLoading.GetOr(c.isLoading),
      u.error.GetOr(c.error))
  }

  class ProductService {
    /** The shared store (`db`). */
    const db: Store
    var context: ProductContext

    constructor (db: Store)
      ensures this.db == db && context == DefaultContext
    {
      this.db := db;
      context := DefaultContext;
    }

    method UpdateContext(u: ProductPatch) returns (c: ProductContext)
      modifies this`context
      ensures context == Merge(old(context), u) && c == context
    {
      context := Merge(context, u);
      c := context;
    }

    /** Every stored product, in insertion order, also shown as the available products. */
    method ListProducts() returns (r: seq<Product>)
      requires db.Valid()
      modifies this`context
      ensures r == db.ListProducts()
      ensures |r| == |db.products| && forall p :: p in r <==> p in db.products.Values
      ensures context == old(context).(availableProducts := r, isLoading := false, error := None)
    {
      var _ := UpdateContext(NoChange.(isLoading := Some(true), error := Some(None)));
      var p := db.ListProducts();
      var _ := UpdateContext(NoChange.(availableProducts := Some(p), isLoading := Some(false)));
      return p;
    }

    /** Reads one product; an unknown id gives `None`, which also becomes the current product. */
    method GetProduct(id: Id) returns (r: Option<Product>)
      modifies this`context
      ensures r.None? <==> id !in db.products
      ensures r.Some? ==> r.value == db.products[id]
      ensures context == old(context).(currentProduct := r, isLoading := false, error := None)
    {
      var _ := UpdateContext(NoChange.(isLoading := Some(true), error := Some(None)));
      var p := db.GetProduct(id);
      var _ := UpdateContext(NoChange.(currentProduct := Some(p), isLoading := Some(false)));
      return p;
    }

    /** The stored products matching `q`, in insertion order, also shown as the available products. */
    method SearchProducts(q: string) returns (r: seq<Product>)
      requires db.Valid()
      modifies this`context
      ensures r == Search(db.ListProducts(), q)
      ensures forall p :: p in r <==> p in db.products.Values && Matches(p, q)
      ensures context == old(context).(availableProducts := r, isLoading := false, error := None)
    {
      var _ := UpdateContext(NoChange.(isLoading := Some(true), error := Some(None)));
      var a := db.ListProducts();
      var r' := Search(a, q);
      var _ := UpdateContext(NoChange.(availableProducts := Some(r'), isLoading := Some(false)));
      return r';
    }
  }
}
