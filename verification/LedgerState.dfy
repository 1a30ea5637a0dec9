/** The part of the ledger that cementing reads and writes: the block table, the pruned table, the
    confirmation height table and the in-memory count of confirmed blocks. */
module LedgerState {
  import opened KeySpace

  type Hash = nat

  const ZERO: Hash := 0

  /** A stored block.  `dep0` and `dep1` are its dependencies in the order in which they are looked at, zero when absent:
      the previous block comes first, and a block without one has at most one dependency. */
  datatype Block = Block(hash: Hash, account: Key, height: nat, previous: Hash, dep0: Hash, dep1: Hash)

  datatype ConfInfo = ConfInfo(height: nat, frontier: Hash)

  datatype State = State(blocks: map<Hash, Block>, pruned: set<Hash>, conf: map<Key, ConfInfo>, count: nat)

  /** What every hash stands for.  A hash fixes the contents of its block, hence its dependencies; `rank` witnesses that
      no block can depend on itself through any chain of dependencies. */
  datatype Universe = Universe(content: Hash -> Block, rank: Hash -> nat)

  ghost predicate Acyclic(u: Universe) {
    forall h: Hash :: ContentOk(u, h)
  }

  ghost predicate ContentOk(u: Universe, h: Hash) {
    var b := u.content(h);
    && b.hash == h
    && (b.dep0 != ZERO ==> u.rank(b.dep0) < u.rank(h))
    && (b.dep1 != ZERO ==> u.rank(b.dep1) < u.rank(h))
    && (if b.previous == ZERO then b.height == 1 && (b.dep0 == ZERO || b.dep1 == ZERO)
        else
          && b.dep0 == b.previous
          && u.content(b.previous).account == b.account
          && u.content(b.previous).height + 1 == b.height)
  }

  function HeightOf(conf: map<Key, ConfInfo>, account: Key): nat {
    if account in conf then conf[account].height else 0
  }

  /** `BlockCementer::is_confirmed`. */
  predicate Confirmed(s: State, h: Hash) {
    || h in s.pruned
    || (h in s.blocks && s.blocks[h].account in s.conf && s.blocks[h].height <= s.conf[s.blocks[h].account].height)
  }

  ghost function Heights(conf: map<Key, ConfInfo>): map<nat, nat> {
    map a: Key | a in conf :: conf[a].height
  }

  /** The sum of all confirmation heights, which is what the count is initialized to when the node starts. */
  ghost function TotalHeight(conf: map<Key, ConfInfo>): nat {
    SumKeys(Heights(conf), 0, KEYS)
  }

  ghost predicate DepConfirmed(s: State, d: Hash) {
    d == ZERO || Confirmed(s, d)
  }

  ghost predicate DepsConfirmed(s: State, b: Block) {
    DepConfirmed(s, b.dep0) && DepConfirmed(s, b.dep1)
  }

  predicate Known(s: State, h: Hash) {
    h in s.blocks || h in s.pruned
  }

  /** Every stored block is the block its hash stands for, and everything it depends on is stored or pruned. */
  ghost predicate BlocksOk(u: Universe, s: State) {
    && ZERO !in s.blocks && ZERO !in s.pruned
    && s.blocks.Keys !! s.pruned
    && forall h | h in s.blocks ::
         && s.blocks[h] == u.content(h)
         && (s.blocks[h].dep0 != ZERO ==> Known(s, s.blocks[h].dep0))
         && (s.blocks[h].dep1 != ZERO ==> Known(s, s.blocks[h].dep1))
  }

  /** An account chain has one block per height. */
  ghost predicate ChainsLinear(u: Universe, s: State) {
    forall h, h' | h in s.blocks && Known(s, h') && u.content(h').account == s.blocks[h].account
                   && u.content(h').height == s.blocks[h].height :: h == h'
  }

  /** A stored frontier is the block of that account at that height; pruned blocks lie at or below it. */
  ghost predicate FrontiersOk(u: Universe, s: State) {
    && (forall a: Key | a in s.conf && s.conf[a].height > 0 ::
          && s.conf[a].frontier in s.blocks
          && s.blocks[s.conf[a].frontier].account == a
          && s.blocks[s.conf[a].frontier].height == s.conf[a].height)
    && (forall p | p in s.pruned :: u.content(p).height <= HeightOf(s.conf, u.content(p).account))
  }

  /** The confirmed set, stored or pruned, is closed under dependencies. */
  ghost predicate Closed(u: Universe, s: State) {
    forall h | Confirmed(s, h) :: DepsConfirmed(s, u.content(h))
  }

  ghost predicate WF(u: Universe, s: State) {
    && Acyclic(u)
    && BlocksOk(u, s)
    && ChainsLinear(u, s)
    && FrontiersOk(u, s)
    && Closed(u, s)
    && s.count == TotalHeight(s.conf)
  }

  /** One cementing step: what is written to the store when `b` is confirmed. */
  function Cement(s: State, b: Block): State {
    s.(conf := s.conf[b.account := ConfInfo(b.height, b.hash)], count := s.count + 1)
  }

  /** Only the next block of an account can be cemented: the height rises by exactly one. */
  lemma CementRaisesByOne(u: Universe, s: State, h: Hash)
    requires WF(u, s) && h in s.blocks && !Confirmed(s, h) && DepsConfirmed(s, s.blocks[h])
    ensures s.blocks[h].height == HeightOf(s.conf, s.blocks[h].account) + 1
  {
    var b := s.blocks[h];
    assert ContentOk(u, h);
    if b.previous != ZERO {
      assert Confirmed(s, b.previous);
    }
  }

  /** Cementing a block whose dependencies are confirmed confirms that block and nothing else. */
  lemma CementConfirms(u: Universe, s: State, h: Hash)
    requires WF(u, s) && h in s.blocks && !Confirmed(s, h) && DepsConfirmed(s, s.blocks[h])
    ensures forall x :: Confirmed(Cement(s, s.blocks[h]), x) <==> Confirmed(s, x) || x == h
  {
    var b := s.blocks[h];
    CementRaisesByOne(u, s, h);
    var s' := Cement(s, b);
    forall x ensures Confirmed(s', x) <==> Confirmed(s, x) || x == h {
      assert ContentOk(u, x);
      if x in s.blocks && s.blocks[x].account == b.account && s.blocks[x].height == b.height {
        assert Known(s, x);
      }
    }
  }

  lemma CementCount(s: State, b: Block)
    requires s.count == TotalHeight(s.conf) && b.height == HeightOf(s.conf, b.account) + 1
    ensures Cement(s, b).count == TotalHeight(Cement(s, b).conf)
  {
    assert Heights(Cement(s, b).conf) == Heights(s.conf)[b.account := b.height];
    SumKeysUpdate(Heights(s.conf), b.account, b.height, KEYS);
  }

  lemma CementTables(u: Universe, s: State, b: Block)
    requires BlocksOk(u, s) && ChainsLinear(u, s)
    ensures BlocksOk(u, Cement(s, b)) && ChainsLinear(u, Cement(s, b))
  {
    var s' := Cement(s, b);
    assert forall h :: Known(s', h) <==> Known(s, h);
  }

  lemma CementFrontiers(u: Universe, s: State, h: Hash)
    requires BlocksOk(u, s) && FrontiersOk(u, s) && h in s.blocks && s.blocks[h].hash == h
    requires s.blocks[h].height == HeightOf(s.conf, s.blocks[h].account) + 1
    ensures FrontiersOk(u, Cement(s, s.blocks[h]))
  {
  }

  lemma CementClosed(u: Universe, s: State, h: Hash)
    requires Closed(u, s) && h in s.blocks && s.blocks[h] == u.content(h) && DepsConfirmed(s, s.blocks[h])
    requires forall x :: Confirmed(Cement(s, s.blocks[h]), x) <==> Confirmed(s, x) || x == h
    ensures Closed(u, Cement(s, s.blocks[h]))
  {
    hide Confirmed;
    var s' := Cement(s, s.blocks[h]);
    forall x | Confirmed(s', x) ensures DepsConfirmed(s', u.content(x)) {
      assert DepsConfirmed(s, u.content(x));
    }
  }

  /** Every cementing step keeps the ledger well formed. */
  lemma CementKeepsWF(u: Universe, s: State, h: Hash)
    requires WF(u, s) && h in s.blocks && !Confirmed(s, h) && DepsConfirmed(s, s.blocks[h])
    ensures WF(u, Cement(s, s.blocks[h]))
  {
    StoredContent(u, s, h);
    CementRaisesByOne(u, s, h);
    CementConfirms(u, s, h);
    hide ChainsLinear, FrontiersOk, Closed, TotalHeight, BlocksOk, Confirmed, DepsConfirmed;
    CementCount(s, s.blocks[h]);
    CementTables(u, s, s.blocks[h]);
    CementFrontiers(u, s, h);
    CementClosed(u, s, h);
  }

  lemma StoredContent(u: Universe, s: State, h: Hash)
    requires WF(u, s) && h in s.blocks
    ensures s.blocks[h] == u.content(h) && s.blocks[h].hash == h
  {
    assert ContentOk(u, h);
  }

  // ---------------------------------------------------------------------------------------------------------------

  /** The tables that other writers change. */
  datatype Tables = Tables(blocks: map<Hash, Block>, pruned: set<Hash>)

  function With(s: State, t: Tables): State {
    s.(blocks := t.blocks, pruned := t.pruned)
  }

  /** What other writers may do while the write transaction is released: insert blocks, roll back unconfirmed blocks
      together with everything that depends on them, or prune confirmed blocks.  None of this confirms or unconfirms
      anything, and every frontier stays stored. */
  ghost predicate Interferes(u: Universe, s: State, t: Tables) {
    && WF(u, With(s, t))
    && s.pruned <= t.pruned
    && forall h :: Confirmed(With(s, t), h) <==> Confirmed(s, h)
  }

  /** The unconfirmed blocks that have to be cemented before `h` can be, including `h` itself. */
  ghost function Unconfirmed(u: Universe, s: State, h: Hash): set<Hash>
    requires Acyclic(u)
    decreases u.rank(h)
  {
    if h == ZERO || Confirmed(s, h) then {}
    else
      assert ContentOk(u, h);
      {h}
      + (if u.content(h).dep0 == ZERO then {} else Unconfirmed(u, s, u.content(h).dep0))
      + (if u.content(h).dep1 == ZERO then {} else Unconfirmed(u, s, u.content(h).dep1))
  }

  ghost predicate UnconfirmedClosed(u: Universe, s: State, a: set<Hash>) {
    forall e | e in a ::
      && e != ZERO && !Confirmed(s, e)
      && (!DepConfirmed(s, u.content(e).dep0) ==> u.content(e).dep0 in a)
      && (!DepConfirmed(s, u.content(e).dep1) ==> u.content(e).dep1 in a)
  }

  lemma {:induction false} UnconfirmedIsClosed(u: Universe, s: State, h: Hash)
    requires Acyclic(u)
    ensures UnconfirmedClosed(u, s, Unconfirmed(u, s, h))
    ensures if h != ZERO && !Confirmed(s, h) then h in Unconfirmed(u, s, h) else Unconfirmed(u, s, h) == {}
    decreases u.rank(h)
  {
    if h != ZERO && !Confirmed(s, h) {
      assert ContentOk(u, h);
      var b := u.content(h);
      if b.dep0 != ZERO { UnconfirmedIsClosed(u, s, b.dep0); }
      if b.dep1 != ZERO { UnconfirmedIsClosed(u, s, b.dep1); }
    }
  }

  /** As long as `h` is known in some state, so is everything that it depends on. */
  lemma {:induction false} DependenciesKnown(u: Universe, s0: State, s: State, h: Hash)
    requires WF(u, s) && Known(s, h)
    ensures forall e | e in Unconfirmed(u, s0, h) :: Known(s, e)
    decreases u.rank(h)
  {
    if h != ZERO && !Confirmed(s0, h) {
      assert ContentOk(u, h);
      var b := u.content(h);
      DependencyKnown(u, s, h);
      if b.dep0 != ZERO { DependenciesKnown(u, s0, s, b.dep0); }
      if b.dep1 != ZERO { DependenciesKnown(u, s0, s, b.dep1); }
    }
  }

  lemma DependencyKnown(u: Universe, s: State, h: Hash)
    requires WF(u, s) && Known(s, h)
    ensures u.content(h).dep0 != ZERO ==> Known(s, u.content(h).dep0)
    ensures u.content(h).dep1 != ZERO ==> Known(s, u.content(h).dep1)
  {
    if h in s.pruned {
      assert DepsConfirmed(s, u.content(h));
    }
  }

  /** The block below an unconfirmed one is stored: it is unconfirmed too, or the frontier of its account. */
  lemma PreviousStored(u: Universe, s: State, p: Hash)
    requires WF(u, s) && Known(s, p) && !Confirmed(s, p) && u.content(p).previous != ZERO
    ensures u.content(p).previous in s.blocks
  {
    var e := u.content(p).previous;
    var a := u.content(p).account;
    assert ContentOk(u, p) && ContentOk(u, e);
    DependencyKnown(u, s, p);
    if Confirmed(s, e) {
      assert s.blocks[p] == u.content(p) && HeightOf(s.conf, a) == u.content(e).height;
      var f := s.conf[a].frontier;
      assert f in s.blocks && s.blocks[f] == u.content(f);
      assert f == e;
    }
  }
}
