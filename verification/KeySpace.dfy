/** The 256-bit key space of the account tables, and sums over ranges of it.

    Tables are maps from keys to values.  A cursor walks a table in key order, so the sum over a range of
    rows is defined by walking the keys themselves. */
module KeySpace {
  // 2^256: one more than the largest account number
  const KEYS: nat := 0x1_0000000000000000_0000000000000000_0000000000000000_0000000000000000

  type Key = k: nat | k < KEYS

  /** The sum of the rows of `m` whose key lies in `lo..hi`. */
  ghost function SumKeys(m: map<nat, nat>, lo: nat, hi: nat): nat
    decreases hi - lo
  {
    if hi <= lo then 0 else (if lo in m then m[lo] else 0) + SumKeys(m, lo + 1, hi)
  }

  lemma {:induction false} SumKeysSplit(m: map<nat, nat>, lo: nat, mid: nat, hi: nat)
    requires lo <= mid <= hi
    ensures SumKeys(m, lo, hi) == SumKeys(m, lo, mid) + SumKeys(m, mid, hi)
    decreases mid - lo
  {
    if lo < mid {
      SumKeysSplit(m, lo + 1, mid, hi);
    }
  }

  /** Two tables that agree on a range have the same sum over it. */
  lemma {:induction false} SumKeysAgree(m: map<nat, nat>, m': map<nat, nat>, lo: nat, hi: nat)
    requires forall k | lo <= k < hi :: (k in m <==> k in m') && (k in m ==> m[k] == m'[k])
    ensures SumKeys(m, lo, hi) == SumKeys(m', lo, hi)
    decreases hi - lo
  {
    if lo < hi {
      assert lo in m <==> lo in m';
      SumKeysAgree(m, m', lo + 1, hi);
    }
  }

  lemma {:induction false} SumKeysNone(m: map<nat, nat>, lo: nat, hi: nat)
    requires forall k | k in m && lo <= k < hi :: m[k] == 0
    ensures SumKeys(m, lo, hi) == 0
    decreases hi - lo
  {
    if lo < hi {
      SumKeysNone(m, lo + 1, hi);
    }
  }

  /** A range in which only one row is not zero. */
  lemma SumKeysOne(m: map<nat, nat>, lo: nat, hi: nat, k: nat)
    requires lo <= k < hi && k in m && forall j | j in m && lo <= j < hi && j != k :: m[j] == 0
    ensures SumKeys(m, lo, hi) == m[k]
  {
    SumKeysSplit(m, lo, k, hi);
    SumKeysNone(m, lo, k);
    SumKeysNone(m, k + 1, hi);
  }

  /** Writing one row changes the sum by the difference of the two values. */
  lemma SumKeysUpdate(m: map<nat, nat>, k: nat, v: nat, hi: nat)
    requires k < hi
    ensures SumKeys(m[k := v], 0, hi) == SumKeys(m, 0, hi) - (if k in m then m[k] else 0) + v
  {
    var m' := m[k := v];
    SumKeysSplit(m, 0, k, hi);
    SumKeysSplit(m', 0, k, hi);
    SumKeysAgree(m, m', 0, k);
    SumKeysAgree(m, m', k + 1, hi);
  }

  /** Deleting one row takes its value out of the sum. */
  lemma SumKeysRemove(m: map<nat, nat>, k: nat, hi: nat)
    requires k < hi
    ensures SumKeys(m - {k}, 0, hi) == SumKeys(m, 0, hi) - (if k in m then m[k] else 0)
  {
    var m' := m - {k};
    SumKeysSplit(m, 0, k, hi);
    SumKeysSplit(m', 0, k, hi);
    SumKeysAgree(m, m', 0, k);
    SumKeysAgree(m, m', k + 1, hi);
  }
}
