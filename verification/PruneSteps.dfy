/** Single steps of pruning, and the choice of what to prune: blocks well below the confirmation frontier of their account
    are deleted, and only their hashes are kept. */
module PruneSteps {
  import opened Wrappers
  import opened KeySpace
  import opened LedgerState

  /** What one pruned block changes in the tables. */
  function Prune(s: State, h: Hash): State {
    s.(blocks := s.blocks - {h}, pruned := s.pruned + {h})
  }

  /** Strictly below the confirmation frontier of its account. */
  ghost predicate Prunable(u: Universe, s: State, h: Hash) {
    Known(s, h) && u.content(h).height < HeightOf(s.conf, u.content(h).account)
  }

  /** The genesis block is stored, confirmed and opens its account. */
  ghost predicate GenesisOk(u: Universe, s: State, genesis: Hash) {
    genesis in s.blocks && Confirmed(s, genesis) && u.content(genesis).previous == ZERO
  }

  ghost predicate PreviousPruned(u: Universe, s: State, genesis: Hash, h: Hash) {
    var p := u.content(h).previous;
    p == ZERO || p == genesis || p in s.pruned
  }

  /** What lies below a pruned block is pruned, except for the genesis block. */
  ghost predicate DownClosed(u: Universe, s: State, genesis: Hash) {
    forall h | h in s.pruned :: PreviousPruned(u, s, genesis, h)
  }

  /** The same, but for one gap: the block `gap` that is to be pruned next. */
  ghost predicate DownClosedBut(u: Universe, s: State, genesis: Hash, gap: Hash) {
    forall h | h in s.pruned :: PreviousPruned(u, s, genesis, h) || u.content(h).previous == gap
  }

  // ---- One step ----

  lemma PruneConfirms(u: Universe, s: State, h: Hash)
    requires WF(u, s) && h in s.blocks && Prunable(u, s, h)
    ensures Confirmed(s, h) && h !in s.pruned
    ensures forall x :: Confirmed(Prune(s, h), x) <==> Confirmed(s, x)
    ensures forall x :: Known(Prune(s, h), x) <==> Known(s, x)
  {
    assert s.blocks[h] == u.content(h);
  }

  lemma PruneTables(u: Universe, s: State, h: Hash)
    requires BlocksOk(u, s) && ChainsLinear(u, s) && h in s.blocks
    requires forall x :: Known(Prune(s, h), x) <==> Known(s, x)
    ensures BlocksOk(u, Prune(s, h)) && ChainsLinear(u, Prune(s, h))
  {
  }

  lemma PruneFrontiers(u: Universe, s: State, h: Hash)
    requires FrontiersOk(u, s) && h in s.blocks && s.blocks[h] == u.content(h) && Prunable(u, s, h)
    ensures FrontiersOk(u, Prune(s, h))
  {
  }

  lemma PruneClosed(u: Universe, s: State, h: Hash)
    requires Closed(u, s) && forall x :: Confirmed(Prune(s, h), x) <==> Confirmed(s, x)
    ensures Closed(u, Prune(s, h))
  {
    hide Confirmed;
    forall x | Confirmed(Prune(s, h), x) ensures DepsConfirmed(Prune(s, h), u.content(x)) {
      assert DepsConfirmed(s, u.content(x));
    }
  }

  /** Every pruning step keeps the ledger well formed, the confirmation frontiers stored included. */
  lemma PruneKeepsWF(u: Universe, s: State, h: Hash)
    requires WF(u, s) && h in s.blocks && Prunable(u, s, h)
    ensures WF(u, Prune(s, h))
  {
    hide BlocksOk, ChainsLinear, FrontiersOk, Closed, TotalHeight, Confirmed, Known, Prunable;
    StoredContent(u, s, h);
    PruneConfirms(u, s, h);
    PruneTables(u, s, h);
    PruneFrontiers(u, s, h);
    PruneClosed(u, s, h);
  }

  /** To the cementer a pruning step is one of the things that other writers may do. */
  lemma PruneInterferes(u: Universe, s: State, h: Hash)
    requires WF(u, s) && h in s.blocks && Prunable(u, s, h)
    ensures Interferes(u, s, Tables(Prune(s, h).blocks, Prune(s, h).pruned))
  {
    hide WF, Confirmed, Prunable;
    PruneKeepsWF(u, s, h);
    PruneConfirms(u, s, h);
    assert With(s, Tables(Prune(s, h).blocks, Prune(s, h).pruned)) == Prune(s, h);
  }

  /** The block below a prunable stored block is prunable, one lower and of the same account. */
  lemma BelowPrunable(u: Universe, s: State, h: Hash)
    requires WF(u, s) && h in s.blocks && u.content(h).height <= HeightOf(s.conf, u.content(h).account)
    ensures var p := s.blocks[h].previous;
      && p == u.content(h).previous
      && (p != ZERO ==>
        && Prunable(u, s, p) && u.content(p).account == u.content(h).account && u.content(p).height + 1 == u.content(h).height)
  {
    StoredContent(u, s, h);
    assert ContentOk(u, h);
    DependencyKnown(u, s, h);
  }

  /** `s'` is `s` with some stored blocks pruned, and nothing else. */
  ghost predicate PrunedTo(s: State, s': State) {
    && s.pruned <= s'.pruned && s'.pruned - s.pruned <= s.blocks.Keys
    && s' == s.(blocks := s.blocks - s'.pruned, pruned := s'.pruned)
  }

  lemma StoredNotPruned(u: Universe, s: State)
    requires WF(u, s)
    ensures PrunedTo(s, s) && s.blocks.Keys !! s.pruned
  {
  }

  lemma PrunedToStep(s0: State, s: State, h: Hash)
    requires PrunedTo(s0, s) && h in s.blocks && h !in s.pruned
    ensures PrunedTo(s0, Prune(s, h))
  {
  }

  lemma PrunedToConcat(s0: State, s1: State, s2: State)
    requires PrunedTo(s0, s1) && PrunedTo(s1, s2)
    ensures PrunedTo(s0, s2)
  {
    forall h | h in s2.pruned && h !in s0.pruned ensures h in s0.blocks {
      if h !in s1.pruned {
        assert h in s2.pruned - s1.pruned;
      } else {
        assert h in s1.pruned - s0.pruned;
      }
    }
    assert s0.blocks - s1.pruned - s2.pruned == s0.blocks - s2.pruned;
  }

  lemma CountStep(p0: set<Hash>, p: set<Hash>, h: Hash)
    requires p0 <= p && h !in p
    ensures |(p + {h}) - p0| == |p - p0| + 1 && |p + {h}| == |p| + 1
  {
    assert (p + {h}) - p0 == (p - p0) + {h};
  }

  lemma CountConcat(p0: set<Hash>, p1: set<Hash>, p2: set<Hash>)
    requires p0 <= p1 <= p2
    ensures |p2 - p0| == |p1 - p0| + |p2 - p1|
  {
    assert p2 - p0 == (p1 - p0) + (p2 - p1);
  }

  // ---- What other writers do ----

  ghost predicate HeightsPositive(s: State) {
    forall a: Key | a in s.conf :: s.conf[a].height > 0
  }

  /** Nothing is unconfirmed, brought back or taken back in height. */
  ghost predicate Advances(s: State, s': State) {
    && s.pruned <= s'.pruned
    && (forall h | Confirmed(s, h) :: Confirmed(s', h))
    && (forall a: Key :: HeightOf(s.conf, a) <= HeightOf(s'.conf, a))
  }

  /** What other writers may do while no write transaction is open: insert blocks, roll back unconfirmed blocks and confirm
      blocks, but not prune. */
  ghost predicate OthersAct(u: Universe, s: State, s': State) {
    WF(u, s') && HeightsPositive(s') && s'.pruned == s.pruned && Advances(s, s')
  }

  /** To the pruner a cementing step is one of the things that other writers may do. */
  lemma CementIsOther(u: Universe, s: State, h: Hash)
    requires WF(u, s) && HeightsPositive(s) && h in s.blocks && !Confirmed(s, h) && DepsConfirmed(s, s.blocks[h])
    ensures OthersAct(u, s, Cement(s, s.blocks[h]))
  {
    hide WF, Confirmed, DepsConfirmed;
    CementKeepsWF(u, s, h);
    CementConfirms(u, s, h);
    CementRaisesByOne(u, s, h);
  }

  lemma PrunableStays(u: Universe, s: State, s': State, h: Hash)
    requires WF(u, s) && Advances(s, s') && Prunable(u, s, h)
    ensures Prunable(u, s', h)
  {
    assert h in s.blocks ==> s.blocks[h] == u.content(h);
    assert Confirmed(s, h) && Confirmed(s', h);
    assert HeightOf(s.conf, u.content(h).account) <= HeightOf(s'.conf, u.content(h).account);
  }

  lemma GenesisStays(u: Universe, s: State, s': State, genesis: Hash)
    requires WF(u, s) && GenesisOk(u, s, genesis) && OthersAct(u, s, s')
    ensures GenesisOk(u, s', genesis)
  {
    StoredNotPruned(u, s);
    assert Confirmed(s', genesis);
  }

  lemma GapStays(u: Universe, s: State, s': State, genesis: Hash, gap: Hash)
    requires s'.pruned == s.pruned
    ensures DownClosedBut(u, s', genesis, gap) <==> DownClosedBut(u, s, genesis, gap)
    ensures DownClosed(u, s', genesis) <==> DownClosed(u, s, genesis)
  {
    forall h ensures PreviousPruned(u, s', genesis, h) <==> PreviousPruned(u, s, genesis, h) {
    }
  }

  ghost predicate Processed(s: State, genesis: Hash, h: Hash) {
    h == ZERO || h == genesis || h in s.pruned
  }

  /** In the chain of `h`, at its height or below. */
  ghost predicate AtOrBelow(u: Universe, x: Hash, h: Hash) {
    u.content(x).account == u.content(h).account && u.content(x).height <= u.content(h).height
  }

  lemma GapOpens(u: Universe, s: State, genesis: Hash, h: Hash)
    requires DownClosed(u, s, genesis)
    ensures DownClosedBut(u, s, genesis, h)
  {
  }

  lemma GapMoves(u: Universe, s: State, genesis: Hash, h: Hash)
    requires DownClosedBut(u, s, genesis, h)
    ensures DownClosedBut(u, Prune(s, h), genesis, u.content(h).previous)
  {
  }

  lemma GapCloses(u: Universe, s: State, genesis: Hash, h: Hash)
    requires DownClosedBut(u, s, genesis, h) && Processed(s, genesis, h)
    ensures DownClosed(u, s, genesis)
  {
  }

  /** Everything below a pruned block is pruned, except for the genesis block. */
  lemma {:induction false} AllBelowPruned(u: Universe, s: State, genesis: Hash, p: Hash, x: Hash)
    requires WF(u, s) && GenesisOk(u, s, genesis) && DownClosed(u, s, genesis)
    requires (p in s.pruned || p == genesis) && Known(s, x) && AtOrBelow(u, x, p)
    ensures x in s.pruned || x == genesis
    decreases u.content(p).height
  {
    assert ContentOk(u, p) && ContentOk(u, x);
    assert x in s.blocks ==> s.blocks[x] == u.content(x);
    if u.content(x).height < u.content(p).height {
      assert p in s.pruned && PreviousPruned(u, s, genesis, p);
      AllBelowPruned(u, s, genesis, u.content(p).previous, x);
    } else {
      assert Known(s, p);
    }
  }

  // ---- Choosing targets ----

  /** How far to stay away from a frontier: in blocks, and in time. */
  datatype Rule = Rule(maxDepth: nat, cutoff: nat, time: Hash -> nat)

  /** Walks down from a frontier to the first block that is old enough; never further than the depth limit. */
  function Walk(s: State, rule: Rule, h: Hash, depth: nat): (Hash, nat)
    decreases rule.maxDepth - depth
  {
    if h == ZERO || depth >= rule.maxDepth then (h, depth)
    else if h !in s.blocks then (ZERO, depth + 1)
    else if rule.time(h) > rule.cutoff || depth == 0 then Walk(s, rule, s.blocks[h].previous, depth + 1)
    else (h, depth)
  }

  function Target(s: State, rule: Rule, account: Key): Hash
    requires account in s.conf
  {
    Walk(s, rule, s.conf[account].frontier, 0).0
  }

  function Depth(s: State, rule: Rule, account: Key): nat
    requires account in s.conf
  {
    Walk(s, rule, s.conf[account].frontier, 0).1
  }

  /** Where a walk for `account` can be. */
  ghost predicate OnWalk(u: Universe, s: State, account: Key, h: Hash, depth: nat) {
    if depth == 0 then
      h in s.blocks && u.content(h).account == account && u.content(h).height == HeightOf(s.conf, account)
    else
      h == ZERO || (Prunable(u, s, h) && u.content(h).account == account)
  }

  lemma WalkStep(u: Universe, s: State, account: Key, h: Hash, depth: nat)
    requires WF(u, s) && OnWalk(u, s, account, h, depth) && h in s.blocks
    ensures s.blocks[h].previous == u.content(h).previous
    ensures OnWalk(u, s, account, s.blocks[h].previous, depth + 1)
  {
    BelowPrunable(u, s, h);
  }

  lemma {:induction false} WalkOk(u: Universe, s: State, rule: Rule, account: Key, h: Hash, depth: nat)
    requires WF(u, s) && rule.maxDepth > 0 && OnWalk(u, s, account, h, depth)
    ensures OnWalk(u, s, account, Walk(s, rule, h, depth).0, 1)
    decreases rule.maxDepth - depth
  {
    hide WF;
    if h != ZERO && depth < rule.maxDepth && h in s.blocks && (rule.time(h) > rule.cutoff || depth == 0) {
      WalkStep(u, s, account, h, depth);
      WalkOk(u, s, rule, account, s.blocks[h].previous, depth + 1);
    }
  }

  /** A target is below the frontier of its account. */
  lemma TargetPrunable(u: Universe, s: State, rule: Rule, account: Key)
    requires WF(u, s) && rule.maxDepth > 0 && account in s.conf && s.conf[account].height > 0
    ensures var t := Target(s, rule, account); t == ZERO || (Prunable(u, s, t) && u.content(t).account == account)
  {
    assert s.blocks[s.conf[account].frontier] == u.content(s.conf[account].frontier);
    WalkOk(u, s, rule, account, s.conf[account].frontier, 0);
  }

  lemma {:induction false} DepthBounded(s: State, rule: Rule, h: Hash, depth: nat)
    requires depth <= rule.maxDepth
    ensures depth <= Walk(s, rule, h, depth).1 <= rule.maxDepth
    decreases rule.maxDepth - depth
  {
    if h != ZERO && depth < rule.maxDepth && h in s.blocks && (rule.time(h) > rule.cutoff || depth == 0) {
      DepthBounded(s, rule, s.blocks[h].previous, depth + 1);
    }
  }

  /** Pruning lets a walk end earlier, or one missing block later. */
  lemma {:induction false} DepthAfterPruning(s: State, s': State, rule: Rule, h: Hash, depth: nat)
    requires PrunedTo(s, s') && depth <= rule.maxDepth
    ensures Walk(s', rule, h, depth).1 <= Walk(s, rule, h, depth).1 + 1
    decreases rule.maxDepth - depth
  {
    if h != ZERO && depth < rule.maxDepth && h in s'.blocks && (rule.time(h) > rule.cutoff || depth == 0) {
      DepthAfterPruning(s, s', rule, s.blocks[h].previous, depth + 1);
    } else {
      DepthBounded(s, rule, h, depth);
    }
  }

  lemma {:induction false} WalkLower(u: Universe, s: State, rule: Rule, account: Key, h: Hash, depth: nat)
    requires WF(u, s) && OnWalk(u, s, account, h, depth) && h != ZERO
    ensures var t := Walk(s, rule, h, depth).0; t != ZERO ==> AtOrBelow(u, t, h)
    decreases rule.maxDepth - depth
  {
    hide WF;
    if depth < rule.maxDepth && h in s.blocks && (rule.time(h) > rule.cutoff || depth == 0) {
      WalkStep(u, s, account, h, depth);
      BelowPrunable(u, s, h);
      if s.blocks[h].previous != ZERO {
        WalkLower(u, s, rule, account, s.blocks[h].previous, depth + 1);
      }
    }
  }

  /** Pruning a target does not make the walk to it shorter. */
  lemma {:induction false} DepthKept(u: Universe, s: State, s': State, rule: Rule, account: Key, h: Hash, depth: nat)
    requires WF(u, s) && PrunedTo(s, s') && OnWalk(u, s, account, h, depth) && depth <= rule.maxDepth
    requires forall x | x in s'.pruned && x !in s.pruned ::
      Walk(s, rule, h, depth).0 != ZERO && AtOrBelow(u, x, Walk(s, rule, h, depth).0)
    ensures Walk(s', rule, h, depth).1 >= Walk(s, rule, h, depth).1
    decreases rule.maxDepth - depth
  {
    hide WF;
    StoredNotPruned(u, s);
    DepthBounded(s', rule, h, depth);
    if h != ZERO && depth < rule.maxDepth && h in s.blocks && (rule.time(h) > rule.cutoff || depth == 0) {
      WalkStep(u, s, account, h, depth);
      BelowPrunable(u, s, h);
      var p := s.blocks[h].previous;
      if p != ZERO {
        WalkLower(u, s, rule, account, p, depth + 1);
      }
      assert Walk(s, rule, h, depth) == Walk(s, rule, p, depth + 1);
      assert h !in s'.pruned;
      DepthKept(u, s, s', rule, account, p, depth + 1);
    }
  }

  /** What other writers do in the middle of a walk does not change where it ends: everything on its way is confirmed. */
  lemma {:induction false} WalkStable(u: Universe, s: State, s': State, rule: Rule, account: Key, h: Hash, depth: nat)
    requires WF(u, s) && OthersAct(u, s, s') && depth > 0 && OnWalk(u, s, account, h, depth)
    ensures OnWalk(u, s', account, h, depth)
    ensures Walk(s', rule, h, depth) == Walk(s, rule, h, depth)
    decreases rule.maxDepth - depth
  {
    hide WF;
    if h != ZERO {
      PrunableStays(u, s, s', h);
      SameBlock(u, s, s', h);
      if depth < rule.maxDepth && h in s.blocks && rule.time(h) > rule.cutoff {
        WalkStep(u, s, account, h, depth);
        WalkStable(u, s, s', rule, account, s.blocks[h].previous, depth + 1);
      }
    }
  }

  lemma SameBlock(u: Universe, s: State, s': State, h: Hash)
    requires WF(u, s) && OthersAct(u, s, s') && Prunable(u, s, h)
    ensures h in s.blocks <==> h in s'.blocks
    ensures h in s.blocks ==> s.blocks[h] == s'.blocks[h]
  {
    StoredNotPruned(u, s);
    StoredNotPruned(u, s');
    PrunableStays(u, s, s', h);
  }

  /** The first row of the confirmation height table at or after a key. */
  function NextKey(conf: map<Key, ConfInfo>, from: nat): (k: Option<Key>)
    ensures k.Some? ==> from <= k.value && k.value in conf
    ensures forall a: Key | from <= a && (k.None? || a < k.value) :: a !in conf
    decreases KEYS - from
  {
    if from >= KEYS then None else if from in conf then Some(from) else NextKey(conf, from + 1)
  }

  function IncOrMax(k: Key): Key {
    if k + 1 < KEYS then k + 1 else k
  }

  /** The targets of the accounts in a range, in order. */
  ghost function Chosen(s: State, rule: Rule, lo: nat, hi: nat): seq<Hash>
    requires hi <= KEYS
    decreases hi - lo
  {
    if lo >= hi then []
    else (if lo in s.conf && Target(s, rule, lo) != ZERO then [Target(s, rule, lo)] else []) + Chosen(s, rule, lo + 1, hi)
  }

  lemma {:induction false} ChosenSplit(s: State, rule: Rule, lo: nat, mid: nat, hi: nat)
    requires lo <= mid <= hi <= KEYS
    ensures Chosen(s, rule, lo, hi) == Chosen(s, rule, lo, mid) + Chosen(s, rule, mid, hi)
    decreases mid - lo
  {
    if lo < mid {
      ChosenSplit(s, rule, lo + 1, mid, hi);
    }
  }

  lemma {:induction false} ChosenNone(s: State, rule: Rule, lo: nat, hi: nat)
    requires lo <= hi <= KEYS && forall a: Key | lo <= a < hi :: a !in s.conf
    ensures Chosen(s, rule, lo, hi) == []
    decreases hi - lo
  {
    if lo < hi {
      ChosenNone(s, rule, lo + 1, hi);
    }
  }

  /** One row after another: the rows from `lo` on, of which `k` is the next. */
  lemma ChosenNext(s: State, rule: Rule, lo: nat, k: Key)
    requires NextKey(s.conf, lo) == Some(k)
    ensures Chosen(s, rule, lo, k + 1) == if Target(s, rule, k) != ZERO then [Target(s, rule, k)] else []
  {
    ChosenSplit(s, rule, lo, k, k + 1);
    ChosenNone(s, rule, lo, k);
    assert Chosen(s, rule, k + 1, k + 1) == [];
  }

  lemma {:induction false} ChosenMembers(s: State, rule: Rule, lo: nat, hi: nat)
    requires hi <= KEYS
    ensures forall a: Key | lo <= a < hi && a in s.conf && Target(s, rule, a) != ZERO :: Target(s, rule, a) in Chosen(s, rule, lo, hi)
    ensures forall t | t in Chosen(s, rule, lo, hi) ::
      t != ZERO && exists a: Key :: lo <= a < hi && a in s.conf && t == Target(s, rule, a)
    decreases hi - lo
  {
    if lo < hi {
      ChosenMembers(s, rule, lo + 1, hi);
    }
  }

  // ---- What a target is ----

  /** A stored block of `account` below its frontier, other than the genesis block. */
  ghost predicate Inner(u: Universe, s: State, genesis: Hash, account: Key, x: Hash) {
    x in s.blocks && x != genesis && u.content(x).account == account && u.content(x).height < HeightOf(s.conf, account)
  }

  /** Too close to the frontier and too young to be pruned. */
  ghost predicate Kept(u: Universe, s: State, rule: Rule, account: Key, x: Hash) {
    HeightOf(s.conf, account) < u.content(x).height + rule.maxDepth && rule.time(x) > rule.cutoff
  }

  /** Everything between the target and the frontier is to be kept. */
  ghost predicate KeptAbove(u: Universe, s: State, genesis: Hash, rule: Rule, account: Key, t: Hash) {
    forall x | Inner(u, s, genesis, account, x) && (t == ZERO || u.content(x).height > u.content(t).height) ::
      Kept(u, s, rule, account, x)
  }

  /** What a walk has found out when it is at `h`. */
  ghost predicate Walked(u: Universe, s: State, genesis: Hash, rule: Rule, account: Key, h: Hash, depth: nat) {
    && OnWalk(u, s, account, h, depth)
    && depth <= rule.maxDepth
    && (h != ZERO ==> depth + u.content(h).height == HeightOf(s.conf, account))
    && KeptAbove(u, s, genesis, rule, account, h)
  }

  lemma WalkedDown(u: Universe, s: State, genesis: Hash, rule: Rule, account: Key, h: Hash, depth: nat)
    requires WF(u, s) && h in s.blocks && depth < rule.maxDepth
    requires Walked(u, s, genesis, rule, account, h, depth) && (rule.time(h) > rule.cutoff || depth == 0)
    ensures Walked(u, s, genesis, rule, account, s.blocks[h].previous, depth + 1)
  {
    var p := s.blocks[h].previous;
    WalkStep(u, s, account, h, depth);
    assert ContentOk(u, h);
    forall x | Inner(u, s, genesis, account, x) && (p == ZERO || u.content(x).height > u.content(p).height)
      ensures Kept(u, s, rule, account, x)
    {
      assert ContentOk(u, x) && s.blocks[x] == u.content(x);
      if u.content(x).height <= u.content(h).height {
        assert Known(s, h) && x == h;
      }
    }
  }

  /** A walk that meets a pruned block has nothing but pruned blocks and the genesis block below. */
  lemma WalkedOut(u: Universe, s: State, genesis: Hash, rule: Rule, account: Key, h: Hash, depth: nat)
    requires WF(u, s) && GenesisOk(u, s, genesis) && DownClosed(u, s, genesis)
    requires h in s.pruned && Walked(u, s, genesis, rule, account, h, depth)
    ensures KeptAbove(u, s, genesis, rule, account, ZERO)
  {
    StoredNotPruned(u, s);
    forall x | Inner(u, s, genesis, account, x) ensures Kept(u, s, rule, account, x) {
      if u.content(x).height <= u.content(h).height {
        AllBelowPruned(u, s, genesis, h, x);
      }
    }
  }

  lemma {:induction false} WalkMeaning(u: Universe, s: State, genesis: Hash, rule: Rule, account: Key, h: Hash, depth: nat)
    requires WF(u, s) && GenesisOk(u, s, genesis) && DownClosed(u, s, genesis)
    requires Walked(u, s, genesis, rule, account, h, depth)
    ensures var (t, d) := Walk(s, rule, h, depth);
      && KeptAbove(u, s, genesis, rule, account, t)
      && (t != ZERO ==>
        && d + u.content(t).height == HeightOf(s.conf, account)
        && (d >= rule.maxDepth || (d > 0 && rule.time(t) <= rule.cutoff)))
    decreases rule.maxDepth - depth
  {
    hide WF, GenesisOk, DownClosed, KeptAbove;
    if h != ZERO && depth < rule.maxDepth {
      if h !in s.blocks {
        WalkedOut(u, s, genesis, rule, account, h, depth);
      } else if rule.time(h) > rule.cutoff || depth == 0 {
        WalkedDown(u, s, genesis, rule, account, h, depth);
        WalkMeaning(u, s, genesis, rule, account, s.blocks[h].previous, depth + 1);
      }
    }
  }

  /** The target of an account is the highest block below its frontier that is deep enough or old enough. */
  lemma TargetMeaning(u: Universe, s: State, genesis: Hash, rule: Rule, account: Key)
    requires WF(u, s) && GenesisOk(u, s, genesis) && DownClosed(u, s, genesis)
    requires rule.maxDepth > 0 && account in s.conf && s.conf[account].height > 0
    ensures var t := Target(s, rule, account);
      && KeptAbove(u, s, genesis, rule, account, t)
      && (t != ZERO ==> Prunable(u, s, t) && u.content(t).account == account && !Kept(u, s, rule, account, t))
  {
    var f := s.conf[account].frontier;
    assert s.blocks[f] == u.content(f);
    TargetPrunable(u, s, rule, account);
    WalkMeaning(u, s, genesis, rule, account, f, 0);
  }
}
