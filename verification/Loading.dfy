/** Loading the in-memory counters and weights when the node starts: the account table is split into one key range per
    thread, and the threads merge what they have collected in whatever order they finish. */
module Loading {
  import opened KeySpace
  import opened LedgerState

  // ----- splitting the key space ---------------------------------------------------------------------------------------

  datatype Split = Split(start: nat, end: nat, isLast: bool)

  function Width(threads: nat): nat
    requires threads > 0
  {
    (KEYS - 1) / threads
  }

  function SplitAt(threads: nat, i: nat): Split
    requires i < threads
  {
    var split := Width(threads);
    Split(split * i, split * (i + 1), i == threads - 1)
  }

  lemma WidthFits(threads: nat)
    requires threads > 0
    ensures Width(threads) * threads <= KEYS - 1
  {
    DivMul(KEYS - 1, threads);
  }

  lemma DivMul(n: nat, d: nat)
    requires d > 0
    ensures n / d * d <= n
  {
    assert n == n / d * d + n % d;
  }

  lemma {:induction false} MulMonotone(a: nat, i: nat, j: nat)
    requires i <= j
    ensures a * i <= a * j
    decreases j - i
  {
    if i < j {
      MulMonotone(a, i, j - 1);
      assert a * j == a * (j - 1) + a;
    }
  }

  /** The last range has no upper bound. */
  function End(split: Split): nat {
    if split.isLast then KEYS else split.end
  }

  /** The ranges are contiguous, from the first key to the last. */
  lemma SplitsContiguous(threads: nat, i: nat)
    requires i < threads
    ensures SplitAt(threads, 0).start == 0
    ensures SplitAt(threads, i).start <= End(SplitAt(threads, i)) <= KEYS
    ensures if i + 1 < threads then End(SplitAt(threads, i)) == SplitAt(threads, i + 1).start
            else End(SplitAt(threads, i)) == KEYS
  {
    hide Width;
    var split := Width(threads);
    WidthFits(threads);
    MulMonotone(split, i, i + 1);
    MulMonotone(split, i + 1, threads);
    assert split * 0 == 0;
  }

  ghost predicate InSplit(threads: nat, i: nat, k: Key)
    requires i < threads
  {
    SplitAt(threads, i).start <= k < End(SplitAt(threads, i))
  }

  lemma SplitsOrdered(threads: nat, i: nat, j: nat)
    requires i < j < threads
    ensures End(SplitAt(threads, i)) <= SplitAt(threads, j).start
    decreases j - i
  {
  }

  /** Every key is visited by exactly one thread. */
  lemma SplitsPartition(threads: nat, k: Key) returns (i: nat)
    requires threads > 0
    ensures i < threads && InSplit(threads, i, k)
    ensures forall j: nat | j < threads && j != i :: !InSplit(threads, j, k)
  {
    i := 0;
    SplitsContiguous(threads, 0);
    while End(SplitAt(threads, i)) <= k
      invariant i < threads && SplitAt(threads, i).start <= k
      decreases threads - i
    {
      SplitsContiguous(threads, i);
      i := i + 1;
    }
    forall j: nat | j < threads && j != i ensures !InSplit(threads, j, k) {
      if j < i { SplitsOrdered(threads, j, i); } else { SplitsOrdered(threads, i, j); }
    }
  }

  // ----- sums that threads compute -------------------------------------------------------------------------------------

  /** What thread `i` collects when it sums up the rows of its range. */
  ghost function Part(m: map<nat, nat>, threads: nat, i: nat): nat
    requires i < threads
  {
    SumKeys(m, SplitAt(threads, i).start, End(SplitAt(threads, i)))
  }

  ghost function Parts(m: map<nat, nat>, threads: nat): seq<nat> {
    seq(threads, i requires 0 <= i < threads => Part(m, threads, i))
  }

  function Sum(s: seq<nat>): nat {
    if s == [] then 0 else Sum(s[..|s| - 1]) + s[|s| - 1]
  }

  lemma {:induction false} SumParts(m: map<nat, nat>, threads: nat, n: nat)
    requires n < threads
    ensures Sum(Parts(m, threads)[..n + 1]) == SumKeys(m, 0, End(SplitAt(threads, n)))
  {
    var parts := Parts(m, threads);
    assert parts[..n + 1][..n] == parts[..n];
    SplitsContiguous(threads, n);
    if n > 0 {
      SumParts(m, threads, n - 1);
      SplitsContiguous(threads, n - 1);
      SumKeysSplit(m, 0, SplitAt(threads, n).start, End(SplitAt(threads, n)));
    }
  }

  /** The parts of all threads add up to the whole table. */
  lemma SumAllParts(m: map<nat, nat>, threads: nat)
    requires threads > 0
    ensures Sum(Parts(m, threads)) == SumKeys(m, 0, KEYS)
  {
    SumParts(m, threads, threads - 1);
    SplitsContiguous(threads, threads - 1);
    assert Parts(m, threads)[..threads] == Parts(m, threads);
  }

  function Without(s: seq<nat>, p: nat): (r: seq<nat>)
    requires p < |s|
    ensures |r| == |s| - 1
    ensures forall i | 0 <= i < |r| :: r[i] == s[if i < p then i else i + 1]
  {
    s[..p] + s[p + 1..]
  }

  lemma {:induction false} SumWithout(s: seq<nat>, p: nat)
    requires p < |s|
    ensures Sum(s) == Sum(Without(s, p)) + s[p]
  {
    var k := |s| - 1;
    if p == k {
      assert Without(s, p) == s[..k];
    } else {
      SumWithout(s[..k], p);
      assert Without(s, p)[..k - 1] == Without(s[..k], p);
    }
  }

  /** `order` lists the threads in the order in which they finish. */
  ghost predicate IsOrder(order: seq<nat>, threads: nat) {
    && |order| == threads
    && (forall i | 0 <= i < threads :: order[i] < threads)
    && (forall i, j | 0 <= i < j < threads :: order[i] != order[j])
  }

  ghost function Reordered(parts: seq<nat>, order: seq<nat>): (merged: seq<nat>)
    requires IsOrder(order, |parts|)
    ensures |merged| == |parts| && forall i | 0 <= i < |parts| :: merged[i] == parts[order[i]]
  {
    seq(|parts|, i requires 0 <= i < |parts| => parts[order[i]])
  }

  /** Sums do not depend on the order. */
  lemma {:induction false} SumReordered(parts: seq<nat>, order: seq<nat>)
    requires IsOrder(order, |parts|)
    ensures Sum(Reordered(parts, order)) == Sum(parts)
  {
    hide Without, Reordered;
    if parts == [] {
      assert Reordered(parts, order) == [];
    } else {
      var k := |parts| - 1;
      Onto(order, k);
      var p :| 0 <= p < |order| && order[p] == k;
      OrderWithout(parts, order, p);
      SumReordered(parts[..k], Without(order, p));
      SumWithout(Reordered(parts, order), p);
    }
  }

  /** Leaving out the thread with the highest number leaves an order of the other threads. */
  lemma OrderWithout(parts: seq<nat>, order: seq<nat>, p: nat)
    requires IsOrder(order, |parts|) && p < |order| && order[p] == |order| - 1
    ensures IsOrder(Without(order, p), |parts| - 1)
    ensures Reordered(parts[..|parts| - 1], Without(order, p)) == Without(Reordered(parts, order), p)
  {
  }

  /** Whatever order the threads merge their parts in, a counter ends up with the sum over the whole table. */
  lemma MergedCount(m: map<nat, nat>, threads: nat, order: seq<nat>)
    requires threads > 0 && IsOrder(order, threads)
    ensures Sum(Reordered(Parts(m, threads), order)) == SumKeys(m, 0, KEYS)
  {
    SumReordered(Parts(m, threads), order);
    SumAllParts(m, threads);
  }

  /** An injection on `0..n` is onto. */
  lemma Onto(order: seq<nat>, k: nat)
    requires IsOrder(order, |order|) && k < |order|
    ensures k in order
  {
    var all := Indices(|order|);
    if k !in order {
      InjectiveSize(order, all - {k});
    }
  }

  ghost function Indices(n: nat): (s: set<nat>)
    ensures |s| == n && forall i: nat :: i in s <==> i < n
  {
    if n == 0 then {} else Indices(n - 1) + {n - 1}
  }

  lemma {:induction false} InjectiveSize(s: seq<nat>, a: set<nat>)
    requires forall i, j | 0 <= i < j < |s| :: s[i] != s[j]
    requires forall i | 0 <= i < |s| :: s[i] in a
    ensures |s| <= |a|
  {
    if s != [] {
      InjectiveSize(s[..|s| - 1], a - {s[|s| - 1]});
    }
  }

  // ----- the confirmed count -------------------------------------------------------------------------------------------

  /** The rows of a table in a key range, in key order. */
  function Rows<V>(m: map<Key, V>, lo: nat, hi: nat): seq<V>
    requires hi <= KEYS
    decreases hi - lo
  {
    if hi <= lo then []
    else (if lo in m then [m[lo]] else []) + Rows(m, lo + 1, hi)
  }

  ghost function RowHeights(rows: seq<ConfInfo>): nat {
    if rows == [] then 0 else RowHeights(rows[..|rows| - 1]) + rows[|rows| - 1].height
  }

  lemma {:induction false} RowHeightsConcat(a: seq<ConfInfo>, b: seq<ConfInfo>)
    ensures RowHeights(a + b) == RowHeights(a) + RowHeights(b)
  {
    if b == [] {
      assert a + b == a;
    } else {
      assert (a + b)[..|a + b| - 1] == a + b[..|b| - 1];
      RowHeightsConcat(a, b[..|b| - 1]);
    }
  }

  lemma {:induction false} RowHeightsSum(conf: map<Key, ConfInfo>, lo: nat, hi: nat)
    requires hi <= KEYS
    ensures RowHeights(Rows(conf, lo, hi)) == SumKeys(Heights(conf), lo, hi)
    decreases hi - lo
  {
    if lo < hi {
      RowHeightsSum(conf, lo + 1, hi);
      var first := if lo in conf then [conf[lo]] else [];
      RowHeightsConcat(first, Rows(conf, lo + 1, hi));
      if lo in conf {
        assert first[..0] == [];
      }
    }
  }

  method CountHeights(rows: seq<ConfInfo>) returns (count: nat)
    ensures count == RowHeights(rows)
  {
    count := 0;
    var i := 0;
    while i < |rows|
      invariant i <= |rows| && count == RowHeights(rows[..i])
    {
      assert rows[..i + 1][..i] == rows[..i];
      count := count + rows[i].height;
      i := i + 1;
    }
    assert rows[..|rows|] == rows;
  }

  /** The confirmed count that a starting node computes is the one that cementing keeps up to date, for any number of
      threads and any order in which they finish. */
  method LoadConfirmedCount(conf: map<Key, ConfInfo>, threads: nat, order: seq<nat>) returns (count: nat)
    requires threads > 0 && IsOrder(order, threads)
    ensures count == TotalHeight(conf)
  {
    count := 0;
    ghost var merged := Reordered(Parts(Heights(conf), threads), order);
    var n := 0;
    while n < threads
      invariant n <= threads && count == Sum(merged[..n])
    {
      var split := SplitAt(threads, order[n]);
      SplitsContiguous(threads, order[n]);
      var part := CountHeights(Rows(conf, split.start, End(split)));
      RowHeightsSum(conf, split.start, End(split));
      assert merged[..n + 1][..n] == merged[..n];
      count := count + part;
      n := n + 1;
    }
    assert merged[..threads] == merged;
    MergedCount(Heights(conf), threads, order);
  }
}
