/**
 * Bookkeeping for sequences and for iterations over sets: associativity of
 * concatenation, distinctness, and the order in which a Java iterator can
 * visit the elements of a HashSet or the keys of a HashMap (every element
 * exactly once, in some order the model leaves open).
 */
module Iteration {
  /** Concatenation of sequences is associative. */
  lemma AppendAssoc<T>(a: seq<T>, b: seq<T>, c: seq<T>)
    ensures (a + b) + c == a + (b + c)
  {
  }

  /** No element occurs twice. */
  predicate Distinct<T(==)>(xs: seq<T>) {
    forall m, n | 0 <= m < n < |xs| :: xs[m] != xs[n]
  }

  /** An order in which an iteration over a set can visit it: every element exactly once. */
  predicate Enumerates<K(==)>(order: seq<K>, keys: set<K>) {
    && |order| == |keys|
    && (forall k | k in order :: k in keys)
    && (forall k | k in keys :: k in order)
    && Distinct(order)
  }

  /** Part way through an iteration over a set: order holds the elements visited, each once, remaining the rest. */
  predicate Visiting<K(==)>(keys: set<K>, order: seq<K>, remaining: set<K>) {
    && remaining <= keys
    && (forall k | k in order :: k in keys && k !in remaining)
    && (forall k | k in keys :: k in order || k in remaining)
    && Distinct(order)
    && |order| + |remaining| == |keys|
  }

  /** Visiting one more element keeps the iteration's bookkeeping and shrinks what remains. */
  lemma VisitStep<K>(keys: set<K>, order: seq<K>, remaining: set<K>, k: K)
    requires Visiting(keys, order, remaining) && k in remaining
    ensures Visiting(keys, order + [k], remaining - {k})
    ensures |remaining - {k}| < |remaining|
  {
    var next := order + [k];
    forall m, n | 0 <= m < n < |next|
      ensures next[m] != next[n]
    {
      if n == |order| {
        assert next[m] == order[m];
      }
    }
  }

  /** An iteration with nothing remaining has visited every element exactly once. */
  lemma VisitDone<K>(keys: set<K>, order: seq<K>)
    requires Visiting(keys, order, {})
    ensures Enumerates(order, keys)
  {
  }
}
