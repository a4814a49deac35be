// Option and Result, as used by every component of the model.
module Wrappers {
  datatype Option<+T> = None | Some(value: T)

  // A computation that returns a value or raises the error E.
  datatype Result<+T, +E> = Ok(value: T) | Err(error: E)

  ghost predicate MapExtends<K, V>(larger: map<K, V>, smaller: map<K, V>) {
    forall k :: k in smaller ==> k in larger && larger[k] == smaller[k]
  }

  lemma ExtendsByKey<K, V>(m: map<K, V>, k: K, v: V)
    requires k !in m
    ensures MapExtends(m[k := v], m)
  {
  }

  lemma ExtendsTransitively<K, V>(larger: map<K, V>, middle: map<K, V>, smaller: map<K, V>)
    requires MapExtends(larger, middle) && MapExtends(middle, smaller)
    ensures MapExtends(larger, smaller)
  {
  }

  lemma SameExtends<K, V>(m: map<K, V>)
    ensures MapExtends(m, m)
  {
  }

  lemma ExtendsAt<K, V>(larger: map<K, V>, smaller: map<K, V>, k: K)
    requires MapExtends(larger, smaller) && k in smaller
    ensures k in larger && larger[k] == smaller[k]
  {
  }
}
