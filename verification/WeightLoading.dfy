/** Where the representative weights come from: the weight of a representative is the sum of the balances of the accounts
    that have chosen it.  Inserting blocks keeps the weight table equal to that sum; a starting node adds it up again. */
module WeightLoading {
  import opened KeySpace
  import opened RepWeights
  import opened Loading

  datatype AccountInfo = AccountInfo(rep: Key, balance: Amount)

  type Accounts = map<Key, AccountInfo>

  ghost function Balances(accounts: Accounts): map<nat, nat> {
    map a: Key | a in accounts :: accounts[a].balance as nat
  }

  /** The balances that count towards `rep`; every other account counts as zero. */
  ghost function Delegating(accounts: Accounts, rep: Key): map<nat, nat> {
    map a: Key | a in accounts :: if accounts[a].rep == rep then accounts[a].balance as nat else 0
  }

  ghost function Delegated(accounts: Accounts, rep: Key): nat {
    SumKeys(Delegating(accounts, rep), 0, KEYS)
  }

  /** All balances together fit into an amount, as the total supply does. */
  ghost predicate Supply(accounts: Accounts) {
    SumKeys(Balances(accounts), 0, KEYS) < MODULUS
  }

  lemma {:induction false} DelegatedBelow(accounts: Accounts, rep: Key, lo: nat, hi: nat)
    ensures SumKeys(Delegating(accounts, rep), lo, hi) <= SumKeys(Balances(accounts), lo, hi)
    decreases hi - lo
  {
    if lo < hi {
      DelegatedBelow(accounts, rep, lo + 1, hi);
    }
  }

  lemma DelegatedFits(accounts: Accounts, rep: Key)
    requires Supply(accounts)
    ensures Delegated(accounts, rep) < MODULUS
  {
    DelegatedBelow(accounts, rep, 0, KEYS);
  }

  // ----- inserting blocks ----------------------------------------------------------------------------------------------

  /** The weight table holds for every representative what has been delegated to it. */
  ghost predicate TableOk(accounts: Accounts, table: Weights) {
    NoZero(table) && forall rep: Key :: Weight(table, rep) == Delegated(accounts, rep)
  }

  function Negated(amount: Amount): Amount {
    if amount == 0 then 0 else MODULUS - amount
  }

  /** The update of the weights when a block changes the account's entry to `info`. */
  function WeightUpdate(accounts: Accounts, account: Key, info: AccountInfo): Update {
    if account in accounts
    then AddDual(accounts[account].rep, Negated(accounts[account].balance), info.rep, info.balance)
    else Add(info.rep, info.balance)
  }

  function Contribution(accounts: Accounts, account: Key, rep: Key): nat {
    if account in accounts && accounts[account].rep == rep then accounts[account].balance else 0
  }

  lemma DelegatedChanges(accounts: Accounts, account: Key, info: AccountInfo, rep: Key)
    ensures Delegated(accounts[account := info], rep) ==
              Delegated(accounts, rep) - Contribution(accounts, account, rep) + (if info.rep == rep then info.balance else 0)
    ensures Contribution(accounts, account, rep) <= Delegated(accounts, rep)
  {
    var m := Delegating(accounts, rep);
    assert Delegating(accounts[account := info], rep) ==
             m[account as nat := if info.rep == rep then info.balance as nat else 0];
    SumKeysUpdate(m, account, if info.rep == rep then info.balance else 0, KEYS);
    SumKeysRemove(m, account, KEYS);
  }

  /** Block insertion keeps the weight table equal to the delegated balances. */
  lemma InsertKeepsTable(accounts: Accounts, table: Weights, account: Key, info: AccountInfo)
    requires TableOk(accounts, table)
    requires Supply(accounts) && Supply(accounts[account := info])
    ensures TableOk(accounts[account := info], Updated(table, WeightUpdate(accounts, account, info)))
  {
    hide Supply, Delegated;
    var update := WeightUpdate(accounts, account, info);
    forall rep: Key ensures Weight(Updated(table, update), rep) == Delegated(accounts[account := info], rep) {
      DelegatedChanges(accounts, account, info, rep);
      DelegatedFits(accounts, rep);
      DelegatedFits(accounts[account := info], rep);
      if account in accounts {
        WeightAdded(table, accounts[account].rep, Negated(accounts[account].balance), rep);
        WeightAdded(Added(table, accounts[account].rep, Negated(accounts[account].balance)), info.rep, info.balance, rep);
      } else {
        WeightAdded(table, info.rep, info.balance, rep);
      }
    }
  }

  lemma WeightAdded(table: Weights, rep: Key, amount: Amount, other: Key)
    requires NoZero(table)
    ensures NoZero(Added(table, rep, amount))
    ensures Weight(Added(table, rep, amount), other) ==
              if other == rep then WrappingAdd(Weight(table, rep), amount) else Weight(table, other)
  {
  }

  // ----- loading -------------------------------------------------------------------------------------------------------

  ghost function RowWeight(rows: seq<AccountInfo>, rep: Key): nat {
    if rows == [] then 0
    else RowWeight(rows[..|rows| - 1], rep) + (if rows[|rows| - 1].rep == rep then rows[|rows| - 1].balance else 0)
  }

  lemma {:induction false} RowWeightConcat(a: seq<AccountInfo>, b: seq<AccountInfo>, rep: Key)
    ensures RowWeight(a + b, rep) == RowWeight(a, rep) + RowWeight(b, rep)
  {
    if b == [] {
      assert a + b == a;
    } else {
      assert (a + b)[..|a + b| - 1] == a + b[..|b| - 1];
      RowWeightConcat(a, b[..|b| - 1], rep);
    }
  }

  lemma {:induction false} RowWeightSum(accounts: Accounts, lo: nat, hi: nat, rep: Key)
    requires hi <= KEYS
    ensures RowWeight(Rows(accounts, lo, hi), rep) == SumKeys(Delegating(accounts, rep), lo, hi)
    decreases hi - lo
  {
    if lo < hi {
      RowWeightSum(accounts, lo + 1, hi, rep);
      var first := if lo in accounts then [accounts[lo]] else [];
      RowWeightConcat(first, Rows(accounts, lo + 1, hi), rep);
      if lo in accounts {
        assert first[..0] == [];
      }
    }
  }

  /** What one thread does: it adds up the balances per representative. */
  method Collect(rows: seq<AccountInfo>) returns (weights: Weights)
    requires forall n, rep: Key | 0 <= n <= |rows| :: RowWeight(rows[..n], rep) < MODULUS
    ensures forall rep: Key :: Weight(weights, rep) == RowWeight(rows, rep)
  {
    weights := map[];
    var i := 0;
    while i < |rows|
      invariant i <= |rows|
      invariant forall rep: Key :: Weight(weights, rep) == RowWeight(rows[..i], rep)
    {
      assert rows[..i + 1][..i] == rows[..i];
      if rows[i].balance != 0 {
        assert RowWeight(rows[..i + 1], rows[i].rep) < MODULUS;
        weights := weights[rows[i].rep := Weight(weights, rows[i].rep) + rows[i].balance];
      }
      i := i + 1;
    }
    assert rows[..|rows|] == rows;
  }

  lemma {:induction false} RowWeightPrefix(rows: seq<AccountInfo>, n: nat, rep: Key)
    requires n <= |rows|
    ensures RowWeight(rows[..n], rep) <= RowWeight(rows, rep)
  {
    if n < |rows| {
      RowWeightPrefix(rows[..|rows| - 1], n, rep);
      assert rows[..|rows| - 1][..n] == rows[..n];
    } else {
      assert rows[..n] == rows;
    }
  }

  /** The weight in the cache after the parts `ps` have been merged one after the other: whenever the sum so far is below
      the minimum, it is forgotten. */
  ghost function Merged(min: Amount, ps: seq<nat>): nat {
    if ps == [] then 0 else Filter(min, Merged(min, ps[..|ps| - 1]) + ps[|ps| - 1])
  }

  ghost function FirstNonzero(ps: seq<nat>): nat {
    if ps == [] then 0
    else if FirstNonzero(ps[..|ps| - 1]) != 0 then FirstNonzero(ps[..|ps| - 1])
    else ps[|ps| - 1]
  }

  /** The loaded weight never exceeds what has been delegated; nothing is lost if and only if the first part already
      reaches the minimum, or everything together does not. */
  lemma {:induction false} MergedExact(min: Amount, ps: seq<nat>)
    ensures Merged(min, ps) <= Sum(ps)
    ensures FirstNonzero(ps) <= Sum(ps) && (FirstNonzero(ps) == 0 <==> Sum(ps) == 0)
    ensures FirstNonzero(ps) != 0 && FirstNonzero(ps) < min ==> Merged(min, ps) < Sum(ps)
    ensures Sum(ps) < min ==> Merged(min, ps) == 0
    ensures Merged(min, ps) == Filter(min, Sum(ps)) <==> Sum(ps) < min || FirstNonzero(ps) >= min
  {
    if ps != [] {
      MergedExact(min, ps[..|ps| - 1]);
    }
  }

  /** With any minimum above 1 a weight that reaches it can be lost: the first and the last account delegate half of it
      each, and two threads load one account each. */
  lemma SplitWeightIsLost(min: Amount, rep: Key) returns (accounts: Accounts, order: seq<nat>)
    requires 2 <= min
    ensures Supply(accounts) && IsOrder(order, 2) && Delegated(accounts, rep) == min
    ensures Merged(min, LoadedParts(accounts, 2, order, rep)) == 0
  {
    hide KeySpace.SumKeys;
    var p, q := min / 2, min - min / 2;
    accounts, order := map[0 := AccountInfo(rep, p), KEYS - 1 := AccountInfo(rep, q)], [0, 1];
    var m := Delegating(accounts, rep);
    assert m == map[0 := p, KEYS - 1 := q] && Balances(accounts) == m;
    SplitsContiguous(2, 0);
    SplitsContiguous(2, 1);
    EndsApart(m, p, q, SplitAt(2, 1).start);
    assert LoadedParts(accounts, 2, order, rep) == [p, q];
    BothForgotten(min, p, q);
  }

  lemma EndsApart(m: map<nat, nat>, p: nat, q: nat, middle: nat)
    requires m == map[0 := p, KEYS - 1 := q] && middle == SplitAt(2, 1).start
    ensures SumKeys(m, 0, middle) == p && SumKeys(m, middle, KEYS) == q && SumKeys(m, 0, KEYS) == p + q
  {
    hide KeySpace.SumKeys;
    MiddleInside();
    SumKeysOne(m, 0, middle, 0);
    SumKeysOne(m, middle, KEYS, KEYS - 1);
    SumKeysSplit(m, 0, middle, KEYS);
  }

  lemma BothForgotten(min: Amount, p: nat, q: nat)
    requires p < min && q < min
    ensures Merged(min, [p, q]) == 0
  {
    assert [p, q][..1] == [p] && [p][..0] == [];
    assert Merged(min, [p]) == 0;
  }

  lemma MiddleInside()
    ensures 0 < SplitAt(2, 1).start < KEYS - 1
  {
  }

  /** One thread: collects the weights of its key range and merges them into the cache. */
  method LoadPart(updater: RepWeightsUpdater, accounts: Accounts, threads: nat, i: nat)
    requires i < threads && Supply(accounts) && CacheOk(updater.cache, updater.minWeight)
    requires forall rep: Key :: Weight(updater.cache, rep) + Part(Delegating(accounts, rep), threads, i) < MODULUS
    modifies updater`cache
    ensures CacheOk(updater.cache, updater.minWeight)
    ensures forall rep: Key :: Weight(updater.cache, rep) ==
              Filter(updater.minWeight, Weight(old(updater.cache), rep) + Part(Delegating(accounts, rep), threads, i))
  {
    hide Supply, Delegating, SumKeys, Rows, RowWeight;
    var split := SplitAt(threads, i);
    SplitsContiguous(threads, i);
    var rows := Rows(accounts, split.start, End(split));
    forall k, rep: Key | 0 <= k <= |rows| ensures RowWeight(rows[..k], rep) < MODULUS {
      RowWeightPrefix(rows, k, rep);
      PartFits(accounts, threads, i, rep);
    }
    var weights := Collect(rows);
    updater.CopyFrom(weights);
    forall rep: Key ensures Weight(weights, rep) == Part(Delegating(accounts, rep), threads, i) {
      RowWeightSum(accounts, split.start, End(split), rep);
    }
  }

  ghost function LoadedParts(accounts: Accounts, threads: nat, order: seq<nat>, rep: Key): (ps: seq<nat>)
    requires IsOrder(order, threads)
    ensures |ps| == threads
  {
    Reordered(Parts(Delegating(accounts, rep), threads), order)
  }

  /** Loads the cache.  A node starts with an empty cache. */
  method LoadWeights(updater: RepWeightsUpdater, accounts: Accounts, threads: nat, order: seq<nat>)
    requires threads > 0 && IsOrder(order, threads)
    requires Supply(accounts) && updater.cache == map[]
    modifies updater`cache
    ensures CacheOk(updater.cache, updater.minWeight)
    ensures forall rep: Key :: Weight(updater.cache, rep) ==
              Merged(updater.minWeight, LoadedParts(accounts, threads, order, rep))
    // Without a minimum, the loaded cache is the one that the running node had.
    ensures updater.minWeight == 0 && TableOk(accounts, updater.table) ==> Agrees(updater.cache, updater.table, 0)
  {
    hide Supply, Delegating, SumKeys, Delegated, Part, LoadedParts;
    var min := updater.minWeight;
    var n := 0;
    while n < threads
      invariant n <= threads && CacheOk(updater.cache, min)
      invariant forall rep: Key :: Weight(updater.cache, rep) ==
                  Merged(min, LoadedParts(accounts, threads, order, rep)[..n])
    {
      forall rep: Key {
        MergeStep(accounts, threads, order, min, n, rep);
      }
      LoadPart(updater, accounts, threads, order[n]);
      n := n + 1;
    }
    forall rep: Key
      ensures Weight(updater.cache, rep) == Merged(min, LoadedParts(accounts, threads, order, rep))
      ensures min == 0 ==> Weight(updater.cache, rep) == Delegated(accounts, rep)
    {
      var ps := LoadedParts(accounts, threads, order, rep);
      assert ps[..threads] == ps;
      LoadedExact(accounts, threads, order, min, rep);
    }
    if min == 0 && TableOk(accounts, updater.table) {
      SameWeights(updater.cache, updater.table);
    }
  }

  /** When the loaded weight of a representative is the right one. */
  lemma LoadedExact(accounts: Accounts, threads: nat, order: seq<nat>, min: Amount, rep: Key)
    requires threads > 0 && IsOrder(order, threads)
    ensures var ps := LoadedParts(accounts, threads, order, rep);
            && Merged(min, ps) <= Delegated(accounts, rep)
            && (min == 0 ==> Merged(min, ps) == Delegated(accounts, rep))
            && (Merged(min, ps) == Filter(min, Delegated(accounts, rep)) <==>
                  Delegated(accounts, rep) < min || FirstNonzero(ps) >= min)
  {
    MergedExact(min, LoadedParts(accounts, threads, order, rep));
    MergedCount(Delegating(accounts, rep), threads, order);
  }

  lemma PartFits(accounts: Accounts, threads: nat, i: nat, rep: Key)
    requires i < threads && Supply(accounts)
    ensures RowWeight(Rows(accounts, SplitAt(threads, i).start, UpperEnd(threads, i)), rep) < MODULUS
  {
    var lo, hi := SplitAt(threads, i).start, UpperEnd(threads, i);
    SplitsContiguous(threads, i);
    RowWeightSum(accounts, lo, hi, rep);
    DelegatedFits(accounts, rep);
    SumKeysSplit(Delegating(accounts, rep), 0, lo, KEYS);
    SumKeysSplit(Delegating(accounts, rep), lo, hi, KEYS);
  }

  ghost function UpperEnd(threads: nat, i: nat): (hi: nat)
    requires i < threads
    ensures hi <= KEYS
  {
    SplitsContiguous(threads, i);
    End(SplitAt(threads, i))
  }

  /** Merging one more part. */
  lemma MergeStep(accounts: Accounts, threads: nat, order: seq<nat>, min: Amount, n: nat, rep: Key)
    requires n < threads && IsOrder(order, threads) && Supply(accounts)
    ensures var ps := LoadedParts(accounts, threads, order, rep);
            var p := Part(Delegating(accounts, rep), threads, order[n]);
            && Merged(min, ps[..n + 1]) == Filter(min, Merged(min, ps[..n]) + p)
            && Merged(min, ps[..n]) + p < MODULUS
  {
    hide Supply, Delegating, SumKeys;
    var ps := LoadedParts(accounts, threads, order, rep);
    assert ps[..n + 1][..n] == ps[..n];
    MergedExact(min, ps[..n]);
    SumPrefix(ps, n + 1);
    MergedCount(Delegating(accounts, rep), threads, order);
    DelegatedFits(accounts, rep);
  }

  lemma {:induction false} SumPrefix(s: seq<nat>, n: nat)
    requires n <= |s|
    ensures Sum(s[..n]) <= Sum(s)
  {
    if n < |s| {
      SumPrefix(s[..|s| - 1], n);
      assert s[..|s| - 1][..n] == s[..n];
    } else {
      assert s[..n] == s;
    }
  }

  lemma SameWeights(cache: Weights, table: Weights)
    requires CacheOk(cache, 0) && NoZero(table)
    requires forall rep: Key :: Weight(cache, rep) == Weight(table, rep)
    ensures Agrees(cache, table, 0)
  {
    forall rep: Key ensures rep in cache <==> rep in table {
      assert Weight(cache, rep) == Weight(table, rep);
    }
    forall rep: Key | rep in cache ensures cache[rep] == table[rep] {
      assert Weight(cache, rep) == Weight(table, rep);
    }
  }
}
