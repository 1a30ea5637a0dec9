/** An index that lists values under their keys. */
module Buckets {
  predicate Distinct<V(==)>(s: seq<V>) {
    forall i, j | 0 <= i < j < |s| :: s[i] != s[j]
  }

  function Without<V(==)>(s: seq<V>, v: V): seq<V> {
    if s == [] then [] else (if s[0] == v then [] else [s[0]]) + Without(s[1..], v)
  }

  function Listed<K, V>(index: map<K, seq<V>>, key: K): seq<V> {
    if key in index then index[key] else []
  }

  /** The index lists every value once, under its own key, and nothing else; no list is empty. */
  ghost predicate Indexes<K(!new), V(!new)>(index: map<K, seq<V>>, keyOf: map<V, K>) {
    && (forall key | key in index :: index[key] != [] && Distinct(index[key]))
    && (forall key, v :: v in Listed(index, key) <==> v in keyOf && keyOf[v] == key)
  }

  function Pushed<K, V>(index: map<K, seq<V>>, key: K, v: V): map<K, seq<V>> {
    index[key := Listed(index, key) + [v]]
  }

  /** Drops the value, and its list when that is left empty. */
  function Dropped<K, V(==)>(index: map<K, seq<V>>, key: K, v: V): map<K, seq<V>>
    requires key in index
  {
    var rest := Without(index[key], v);
    if rest == [] then index - {key} else index[key := rest]
  }

  lemma {:induction false} WithoutMembers<V>(s: seq<V>, v: V)
    ensures forall x :: x in Without(s, v) <==> x in s && x != v
    ensures Distinct(s) ==> Distinct(Without(s, v))
  {
    if s != [] {
      WithoutMembers(s[1..], v);
      if Distinct(s) {
        assert Distinct(s[1..]) && s[0] !in s[1..];
      }
    }
  }

  lemma {:induction false} WithoutLast<V>(s: seq<V>)
    requires s != [] && Distinct(s)
    ensures Without(s, s[|s| - 1]) == s[..|s| - 1]
  {
    if |s| > 1 {
      WithoutLast(s[1..]);
      assert s[..|s| - 1] == [s[0]] + s[1..][..|s| - 2];
    } else {
      assert s[1..] == [];
    }
  }

  lemma IndexesPush<K(!new), V(!new)>(index: map<K, seq<V>>, keyOf: map<V, K>, key: K, v: V)
    requires Indexes(index, keyOf) && v !in keyOf
    ensures Indexes(Pushed(index, key, v), keyOf[v := key])
  {
    assert v !in Listed(index, key);
    var index', keyOf' := Pushed(index, key, v), keyOf[v := key];
    forall k, x ensures x in Listed(index', k) <==> x in keyOf' && keyOf'[x] == k {
      assert x in Listed(index, k) <==> x in keyOf && keyOf[x] == k;
    }
  }

  lemma IndexesDrop<K(!new), V(!new)>(index: map<K, seq<V>>, keyOf: map<V, K>, v: V)
    requires Indexes(index, keyOf) && v in keyOf
    ensures keyOf[v] in index && v in index[keyOf[v]]
    ensures Indexes(Dropped(index, keyOf[v], v), keyOf - {v})
  {
    hide Without, Distinct;
    var key := keyOf[v];
    assert v in Listed(index, key);
    WithoutMembers(index[key], v);
    var index', keyOf' := Dropped(index, key, v), keyOf - {v};
    forall k, x ensures x in Listed(index', k) <==> x in keyOf' && keyOf'[x] == k {
      assert Listed(index', k) == if k == key then Without(index[key], v) else Listed(index, k);
      assert x in Listed(index, k) <==> x in keyOf && keyOf[x] == k;
    }
  }

  ghost function ValuesAt<K, V>(keyOf: map<V, K>, key: K): set<V> {
    set v | v in keyOf && keyOf[v] == key
  }

  /** The length of a list is the number of values with its key. */
  lemma IndexCounts<K(!new), V(!new)>(index: map<K, seq<V>>, keyOf: map<V, K>, key: K)
    requires Indexes(index, keyOf)
    ensures |Listed(index, key)| == |ValuesAt(keyOf, key)|
  {
    var list := Listed(index, key);
    DistinctCount(list);
    assert ValuesAt(keyOf, key) == set v | v in list;
  }

  lemma {:induction false} DistinctCount<V>(s: seq<V>)
    requires Distinct(s)
    ensures |set v | v in s| == |s|
  {
    if s != [] {
      DistinctCount(s[1..]);
      assert s[0] !in s[1..];
      assert (set v | v in s) == {s[0]} + set v | v in s[1..];
    }
  }

  ghost function AnyOf<T>(s: set<T>): (x: T)
    requires s != {}
    ensures x in s
  {
    var x :| x in s;
    x
  }

  lemma {:induction false} Least(s: set<int>) returns (first: int)
    requires s != {}
    ensures first in s && forall e | e in s :: first <= e
    decreases |s|
  {
    var x := AnyOf(s);
    var rest := s - {x};
    first := x;
    if rest != {} {
      var y := Least(rest);
      first := if y < x then y else x;
      forall e | e in s ensures first <= e {
        assert e == x || e in rest;
      }
    } else {
      assert forall e | e in s :: e == x || e in rest;
    }
  }
}
