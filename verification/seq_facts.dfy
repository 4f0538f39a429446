/** Regrouping of appends to a sequence: appending elements one at a time,
    or in small groups, is appending them all at once in the same order;
    and removing the keys of one part of a map union. */
module SeqFacts {
  lemma AppendTwo<T>(a: seq<T>, x: T, y: T)
    ensures a + [x] + [y] == a + [x, y]
  {
  }

  lemma AppendThree<T>(a: seq<T>, x: T, y: T, z: T)
    ensures a + [x] + [y] + [z] == a + [x, y, z]
    ensures a + [x] + [y, z] == a + [x, y, z]
  {
  }

  lemma AppendFour<T>(a: seq<T>, x: T, y: T, z: T, u: T)
    ensures a + [x] + [y] + [z] + [u] == a + [x, y, z, u]
    ensures a + [x, y] + [z] + [u] == a + [x, y, z, u]
  {
  }

  lemma AppendFive<T>(a: seq<T>, x: T, y: T, z: T, u: T, v: T)
    ensures a + [x] + [y] + [z] + [u] + [v] == a + [x, y, z, u, v]
  {
  }

  lemma AppendThreeThenFour<T>(a: seq<T>, x: T, y: T, z: T, p: T, q: T, u: T, v: T)
    ensures a + [x, y, z] + [p, q, u, v] == a + [x, y, z, p, q, u, v]
  {
  }

  /** The head and the tail of a concatenation whose first part is non-empty. */
  lemma AppendTail<T>(a: seq<T>, b: seq<T>)
    requires |a| > 0
    ensures (a + b)[0] == a[0]
    ensures (a + b)[1..] == a[1..] + b
  {
  }

  /** Removing the keys of `extra` from `base + extra` leaves `base`, when
      the two have no key in common. */
  lemma UnionMinus<K, V>(base: map<K, V>, extra: map<K, V>)
    requires base.Keys !! extra.Keys
    ensures (base + extra) - extra.Keys == base
    ensures base - extra.Keys == base
  {
  }
}
