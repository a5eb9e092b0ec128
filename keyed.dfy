/**
 * Keys and the insertion-ordered maps of the store. A JavaScript `Map` iterates
 * in insertion order and keeps a key's position when `set` overwrites it; the
 * model pairs each `map` with the sequence of its keys in that order.
 */
module Keyed {

  /** Record identifiers. The store issues them; the source draws them as UUIDs. */
  type Id = nat

  /** An opaque instant read from the clock (`new Date()`, `Date.now()`). */
  type Time = nat

  /** `ks` lists every key of `m`, each exactly once. */
  ghost predicate Ordered<V>(m: map<Id, V>, ks: seq<Id>) {
    && (forall i, j | 0 <= i < j < |ks| :: ks[i] != ks[j])
    && (forall k :: k in ks <==> k in m)
  }

  /** The values of `m` in the order of `ks`: `Array.from(m.values())`. */
  function Values<V>(m: map<Id, V>, ks: seq<Id>): seq<V>
    requires forall k | k in ks :: k in m
  {
    seq(|ks|, i requires 0 <= i < |ks| => m[ks[i]])
  }

  /** Listing the values of an ordered map yields exactly the map's values, one per key. */
  lemma ValuesOfOrdered<V>(m: map<Id, V>, ks: seq<Id>)
    requires Ordered(m, ks)
    ensures |Values(m, ks)| == |m|
    ensures forall v :: v in Values(m, ks) <==> v in m.Values
    ensures forall k | k in m :: m[k] in Values(m, ks)
  {
    OrderedSize(m, ks);
    forall k | k in m ensures m[k] in Values(m, ks) {
      var i :| 0 <= i < |ks| && ks[i] == k;
      assert Values(m, ks)[i] == m[k];
    }
    forall v | v in m.Values ensures v in Values(m, ks) {
      var k :| k in m && m[k] == v;
      var i :| 0 <= i < |ks| && ks[i] == k;
      assert Values(m, ks)[i] == v;
    }
  }

  /** A duplicate-free key sequence is as long as the map is large. */
  lemma {:induction false} OrderedSize<V>(m: map<Id, V>, ks: seq<Id>)
    requires Ordered(m, ks)
    ensures |m| == |ks|
  {
    if ks == [] {
      assert m.Keys == {};
    } else {
      var last := ks[|ks| - 1];
      var m' := map k | k in m && k != last :: m[k];
      assert Ordered(m', ks[..|ks| - 1]) by {
        forall k ensures k in ks[..|ks| - 1] <==> k in m' {
          if k in ks[..|ks| - 1] {
            var i :| 0 <= i < |ks| - 1 && ks[i] == k;
            assert ks[i] != ks[|ks| - 1];
          }
          if k in m' {
            var i :| 0 <= i < |ks| && ks[i] == k;
            assert i != |ks| - 1;
            assert ks[..|ks| - 1][i] == k;
          }
        }
      }
      OrderedSize(m', ks[..|ks| - 1]);
      assert m.Keys == m'.Keys + {last};
    }
  }

  /** Inserting a new key appends it to the key sequence. */
  lemma OrderedInsert<V>(m: map<Id, V>, ks: seq<Id>, k: Id, v: V)
    requires Ordered(m, ks) && k !in m
    ensures Ordered(m[k := v], ks + [k])
  {
    forall j | 0 <= j < |ks| ensures (ks + [k])[j] != k {
      assert ks[j] in m;
    }
  }
}
