/**
  Insertion-ordered dictionaries, as the script's dicts behave: `keys` lists the
  keys in iteration order, `entries` holds the value of each key.
 */
module Dicts {

  /** No element occurs twice in `s`. */
  ghost predicate Distinct<T>(s: seq<T>) {
    forall i, j :: 0 <= i < j < |s| ==> s[i] != s[j]
  }

  datatype Dict<K(!new), V> = Dict(keys: seq<K>, entries: map<K, V>) {

    /** Each key is listed once, and exactly the listed keys have a value. */
    ghost predicate Valid() {
      && Distinct(keys)
      && (forall k :: k in keys <==> k in entries)
    }
  }
}
