/** Representative weights: a table of weights, and an in-memory cache of the weights that are large enough. */
module RepWeights {
  import opened KeySpace

  const MODULUS: nat := 0x1_0000000000000000_0000000000000000 // amounts are 128 bits wide

  type Amount = a: nat | a < MODULUS

  type Weights = map<Key, Amount>

  function WrappingAdd(a: Amount, b: Amount): Amount {
    if a + b < MODULUS then a + b else a + b - MODULUS
  }

  function Weight(weights: Weights, rep: Key): Amount {
    if rep in weights then weights[rep] else 0
  }

  /** Writing a weight to the table, where zero means that the row is deleted. */
  function Stored(table: Weights, rep: Key, weight: Amount): Weights {
    if weight == 0 then table - {rep} else table[rep := weight]
  }

  /** Writing a weight to the cache, where a weight that is too small means that the entry is deleted. */
  function Cached(cache: Weights, rep: Key, weight: Amount, min: Amount): Weights {
    if weight < min || weight == 0 then cache - {rep} else cache[rep := weight]
  }

  /** The table after `amount` has been added to the weight of `rep`; a weight of zero is not stored. */
  function Added(table: Weights, rep: Key, amount: Amount): Weights {
    Stored(table, rep, WrappingAdd(Weight(table, rep), amount))
  }

  /** What a weight looks like in the cache: weights below the minimum count as zero. */
  function Filter(min: Amount, weight: nat): nat {
    if weight < min then 0 else weight
  }

  ghost predicate NoZero(table: Weights) {
    forall rep | rep in table :: table[rep] != 0
  }

  /** The cache is exactly the table restricted to the nonzero weights at or above the minimum. */
  ghost predicate Agrees(cache: Weights, table: Weights, min: Amount) {
    && NoZero(table)
    && cache == map rep | rep in table && table[rep] >= min :: table[rep]
  }

  /** Writing the same weight to both keeps them in agreement. */
  lemma AgreesPut(cache: Weights, table: Weights, min: Amount, rep: Key, weight: Amount)
    requires Agrees(cache, table, min)
    ensures Agrees(Cached(cache, rep, weight, min), Stored(table, rep, weight), min)
  {
  }

  lemma AgreesNoZero(cache: Weights, table: Weights, min: Amount)
    requires Agrees(cache, table, min)
    ensures NoZero(table)
  {
  }

  ghost predicate CacheOk(cache: Weights, min: Amount) {
    forall rep | rep in cache :: cache[rep] != 0 && cache[rep] >= min
  }

  // ----- the total weight --------------------------------------------------------------------------------------------

  ghost function Numbers(weights: Weights): map<nat, nat> {
    map rep: Key | rep in weights :: weights[rep] as nat
  }

  ghost function Total(table: Weights): nat {
    SumKeys(Numbers(table), 0, KEYS)
  }

  /** Equal up to a multiple of the modulus. */
  ghost predicate Congruent(x: int, y: int) {
    exists k: int :: Apart(x, y, k)
  }

  ghost predicate Apart(x: int, y: int, k: int) {
    x == y + k * MODULUS
  }

  /** Adding to one representative adds the same amount to the total, up to one wrap-around. */
  lemma AddedTotal(table: Weights, rep: Key, amount: Amount)
    ensures var total := Total(Added(table, rep, amount));
            total == Total(table) + amount || total == Total(table) + amount - MODULUS
  {
    var weight := WrappingAdd(Weight(table, rep), amount);
    if weight == 0 {
      assert Numbers(Added(table, rep, amount)) == Numbers(table) - {rep as nat};
      SumKeysRemove(Numbers(table), rep, KEYS);
    } else {
      assert Numbers(Added(table, rep, amount)) == Numbers(table)[rep as nat := weight];
      SumKeysUpdate(Numbers(table), rep, weight, KEYS);
    }
  }

  /** Moving weight between representatives, equal or not, conserves the total modulo the width of an amount. */
  lemma OppositeAmountsConserve(table: Weights, rep1: Key, amount1: Amount, rep2: Key, amount2: Amount)
    requires WrappingAdd(amount1, amount2) == 0
    ensures Congruent(Total(Added(Added(table, rep1, amount1), rep2, amount2)), Total(table))
  {
    var t1 := Added(table, rep1, amount1);
    AddedTotal(table, rep1, amount1);
    AddedTotal(t1, rep2, amount2);
    var t2 := Added(t1, rep2, amount2);
    var d := Total(t2) - Total(table);
    assert d == MODULUS || d == 0 || d + MODULUS == 0 || d + 2 * MODULUS == 0;
    assert Apart(Total(t2), Total(table),
                 if d == MODULUS then 1 else if d == 0 then 0 else if d + MODULUS == 0 then -1 else -2);
  }

  /** Adding twice to one representative is adding the wrapped sum once. */
  lemma AddedTwice(table: Weights, rep: Key, amount1: Amount, amount2: Amount)
    requires NoZero(table)
    ensures Added(Added(table, rep, amount1), rep, amount2) == Added(table, rep, WrappingAdd(amount1, amount2))
  {
  }

  /** Updates of different representatives do not interact. */
  lemma AddedElsewhere(table: Weights, rep1: Key, amount1: Amount, rep2: Key, amount2: Amount)
    requires rep1 != rep2
    ensures Weight(Added(table, rep1, amount1), rep2) == Weight(table, rep2)
    ensures Added(Added(table, rep1, amount1), rep2, amount2) == Added(Added(table, rep2, amount2), rep1, amount1)
  {
  }

  // ----- the updater ---------------------------------------------------------------------------------------------------

  datatype Update = Add(rep: Key, amount: Amount) | AddDual(rep1: Key, amount1: Amount, rep2: Key, amount2: Amount)

  function Updated(table: Weights, update: Update): Weights {
    match update
    case Add(rep, amount) => Added(table, rep, amount)
    case AddDual(rep1, amount1, rep2, amount2) => Added(Added(table, rep1, amount1), rep2, amount2)
  }

  function UpdatedAll(table: Weights, updates: seq<Update>): Weights {
    if updates == [] then table else Updated(UpdatedAll(table, updates[..|updates| - 1]), updates[|updates| - 1])
  }

  class RepWeightsUpdater {
    var cache: Weights
    var table: Weights
    const minWeight: Amount

    constructor (table: Weights, minWeight: Amount)
      ensures this.table == table && this.minWeight == minWeight && cache == map[]
    {
      this.table, this.minWeight, this.cache := table, minWeight, map[];
    }

    method PutCache(rep: Key, weight: Amount)
      modifies `cache
      ensures cache == Cached(old(cache), rep, weight, minWeight)
    {
      if weight < minWeight || weight == 0 {
        cache := cache - {rep};
      } else {
        cache := cache[rep := weight];
      }
    }

    method PutStore(rep: Key, previous: Amount, weight: Amount)
      requires previous == Weight(table, rep) && NoZero(table)
      modifies `table
      ensures table == Stored(old(table), rep, weight)
    {
      if weight == 0 {
        if previous != 0 {
          table := table - {rep};
        }
      } else {
        table := table[rep := weight];
      }
    }

    method RepresentationAdd(rep: Key, amount: Amount)
      requires Agrees(cache, table, minWeight)
      modifies `cache, `table
      ensures Agrees(cache, table, minWeight)
      ensures table == Added(old(table), rep, amount)
    {
      hide Agrees, Cached;
      AgreesNoZero(cache, table, minWeight);
      var previous := Weight(table, rep);
      var weight := WrappingAdd(previous, amount);
      AgreesPut(cache, table, minWeight, rep, weight);
      PutStore(rep, previous, weight);
      PutCache(rep, weight);
    }

    method RepresentationAddDual(rep1: Key, amount1: Amount, rep2: Key, amount2: Amount)
      requires Agrees(cache, table, minWeight)
      modifies `cache, `table
      ensures Agrees(cache, table, minWeight)
      ensures table == Added(Added(old(table), rep1, amount1), rep2, amount2)
    {
      hide Agrees, Cached, WrappingAdd;
      AgreesNoZero(cache, table, minWeight);
      if rep1 != rep2 {
        var previous1 := Weight(table, rep1);
        var previous2 := Weight(table, rep2);
        var weight1 := WrappingAdd(previous1, amount1);
        var weight2 := WrappingAdd(previous2, amount2);
        AgreesPut(cache, table, minWeight, rep1, weight1);
        AgreesPut(Cached(cache, rep1, weight1, minWeight), Stored(table, rep1, weight1), minWeight, rep2, weight2);
        PutStore(rep1, previous1, weight1);
        PutStore(rep2, previous2, weight2);
        PutCache(rep1, weight1);
        PutCache(rep2, weight2);
      } else {
        AddedTwice(table, rep1, amount1, amount2);
        RepresentationAdd(rep1, WrappingAdd(amount1, amount2));
      }
    }

    /** Any sequence of updates: the cache never drifts away from the table. */
    method UpdateAll(updates: seq<Update>)
      requires Agrees(cache, table, minWeight)
      modifies `cache, `table
      ensures Agrees(cache, table, minWeight)
      ensures table == UpdatedAll(old(table), updates)
    {
      var i := 0;
      while i < |updates|
        invariant i <= |updates|
        invariant Agrees(cache, table, minWeight)
        invariant table == UpdatedAll(old(table), updates[..i])
      {
        assert updates[..i + 1][..i] == updates[..i];
        match updates[i] {
          case Add(rep, amount) => RepresentationAdd(rep, amount);
          case AddDual(rep1, amount1, rep2, amount2) => RepresentationAddDual(rep1, amount1, rep2, amount2);
        }
        i := i + 1;
      }
      assert updates[..|updates|] == updates;
    }

    /** Merges the weights that one thread has collected.  The rows of a hash map come in no particular order. */
    method CopyFrom(other: Weights)
      modifies `cache
      requires CacheOk(cache, minWeight)
      ensures CacheOk(cache, minWeight)
      ensures forall rep: Key :: Weight(cache, rep) ==
                if rep in other then Filter(minWeight, WrappingAdd(Weight(old(cache), rep), other[rep]))
                else Weight(old(cache), rep)
    {
      var rest := other.Keys;
      while rest != {}
        invariant rest <= other.Keys && CacheOk(cache, minWeight)
        invariant forall rep: Key :: Weight(cache, rep) ==
                    if rep in other && rep !in rest then Filter(minWeight, WrappingAdd(Weight(old(cache), rep), other[rep]))
                    else Weight(old(cache), rep)
        decreases |rest|
      {
        var account :| account in rest;
        var previous := Weight(cache, account);
        PutCache(account, WrappingAdd(previous, other[account]));
        rest := rest - {account};
      }
    }
  }
}
