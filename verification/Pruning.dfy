/** A pruning pass over all accounts, while other writers act whenever no write transaction is open. */
module Pruning {
  import opened Wrappers
  import opened KeySpace
  import opened LedgerState
  import opened PruneSteps

  // ---- Other writers ----

  /** `step(k, s)` is what other writers leave behind when they get their k-th chance in state `s`. */
  datatype Writers = Writers(step: (nat, State) -> Option<State>)

  ghost predicate WritersOk(u: Universe, w: Writers) {
    forall k: nat, s: State | WF(u, s) && w.step(k, s).Some? :: OthersAct(u, s, w.step(k, s).value)
  }

  ghost predicate Silent(w: Writers) {
    forall k: nat, s: State :: w.step(k, s).None?
  }

  /** Nobody opens the account with the highest number. */
  ghost predicate NeverLast(w: Writers) {
    forall k: nat, s: State | w.step(k, s).Some? && KEYS - 1 !in s.conf :: KEYS - 1 !in w.step(k, s).value.conf
  }

  /** What holds between two states of a pass, whoever acted in between. */
  ghost predicate Stepped(w: Writers, s: State, s': State) {
    && Advances(s, s')
    && (Silent(w) ==> PrunedTo(s, s'))
    && (NeverLast(w) && KEYS - 1 !in s.conf ==> KEYS - 1 !in s'.conf)
  }

  lemma SteppedConcat(w: Writers, s0: State, s1: State, s2: State)
    requires Stepped(w, s0, s1) && Stepped(w, s1, s2)
    ensures Stepped(w, s0, s2)
    ensures |s2.pruned - s0.pruned| == |s1.pruned - s0.pruned| + |s2.pruned - s1.pruned|
  {
    hide Silent, NeverLast, Confirmed;
    CountConcat(s0.pruned, s1.pruned, s2.pruned);
    if Silent(w) {
      PrunedToConcat(s0, s1, s2);
    }
  }

  lemma SteppedSame(u: Universe, w: Writers, s: State)
    requires WF(u, s)
    ensures Stepped(w, s, s) && |s.pruned - s.pruned| == 0
  {
    StoredNotPruned(u, s);
  }

  lemma SteppedPrune(u: Universe, w: Writers, s: State, h: Hash)
    requires WF(u, s) && h in s.blocks && Prunable(u, s, h)
    ensures Stepped(w, s, Prune(s, h)) && |Prune(s, h).pruned - s.pruned| == 1 && |Prune(s, h).pruned| == |s.pruned| + 1
  {
    hide WF, Silent, NeverLast, Confirmed, Prunable;
    PruneConfirms(u, s, h);
    StoredNotPruned(u, s);
    PrunedToStep(s, s, h);
    CountStep(s.pruned, s.pruned, h);
  }

  // ---- The state of the ledger ----

  /** What other writers find whenever they get a chance, also in the middle of a chain. */
  ghost predicate Released(u: Universe, s: State, genesis: Hash, prunedCount: nat) {
    WF(u, s) && GenesisOk(u, s, genesis) && HeightsPositive(s) && prunedCount == |s.pruned|
  }

  /** The tables are well formed and chains are pruned from below. */
  ghost predicate ChainsOk(u: Universe, s: State, genesis: Hash) {
    WF(u, s) && GenesisOk(u, s, genesis) && HeightsPositive(s) && DownClosed(u, s, genesis)
  }

  // ---- What a pass has read ----

  /** An account, and the state in which it was read. */
  datatype Read = Read(account: Key, state: State)

  /** The target that was found for the account; zero if there was none. */
  ghost function ReadTarget(rule: Rule, r: Read): Hash {
    if r.account in r.state.conf then Target(r.state, rule, r.account) else ZERO
  }

  /** The account was in a state of the pass between the states `s0` and `s`. */
  ghost predicate ReadOk(u: Universe, w: Writers, genesis: Hash, s0: State, s: State, r: Read) {
    && r.account >= 1 && r.account in r.state.conf && ChainsOk(u, r.state, genesis)
    && Stepped(w, s0, r.state) && Stepped(w, r.state, s)
  }

  /** At or below a target that was read. */
  ghost predicate BelowRead(u: Universe, rule: Rule, log: seq<Read>, x: Hash) {
    exists r | r in log :: ReadTarget(rule, r) != ZERO && AtOrBelow(u, x, ReadTarget(rule, r))
  }

  ghost predicate IsReadTarget(rule: Rule, log: seq<Read>, t: Hash) {
    t != ZERO && exists r | r in log :: t == ReadTarget(rule, r)
  }

  ghost predicate WasRead(log: seq<Read>, account: Key) {
    exists r | r in log :: r.account == account
  }

  /** The accounts up to `end` were read; every target is queued or done, the queue holds nothing but targets, and nothing
      but blocks at or below a target is pruned. */
  ghost predicate PassOk(u: Universe, w: Writers, s0: State, s: State, genesis: Hash, rule: Rule, end: nat, queue: seq<Hash>,
                         log: seq<Read>)
  {
    && Stepped(w, s0, s)
    && (forall r | r in log :: ReadOk(u, w, genesis, s0, s, r))
    && (forall r | r in log :: ReadTarget(rule, r) in queue || Processed(s, genesis, ReadTarget(rule, r)))
    && (forall t | t in queue :: IsReadTarget(rule, log, t))
    && (forall x | x in s.pruned && x !in s0.pruned :: BelowRead(u, rule, log, x))
    && (forall a: Key | 1 <= a < end && a in s0.conf :: WasRead(log, a))
  }

  ghost function RowsRead(s: State, lo: nat, hi: nat): seq<Read>
    requires hi <= KEYS
    decreases hi - lo
  {
    if lo >= hi then [] else (if lo in s.conf then [Read(lo, s)] else []) + RowsRead(s, lo + 1, hi)
  }

  lemma {:induction false} RowsReadMembers(s: State, lo: nat, hi: nat)
    requires hi <= KEYS
    ensures forall r :: r in RowsRead(s, lo, hi) <==> r.state == s && lo <= r.account < hi && r.account in s.conf
    decreases hi - lo
  {
    if lo < hi {
      RowsReadMembers(s, lo + 1, hi);
    }
  }

  lemma PassStarts(u: Universe, w: Writers, s: State, genesis: Hash, rule: Rule)
    requires WF(u, s)
    ensures PassOk(u, w, s, s, genesis, rule, 1, [], []) && |s.pruned - s.pruned| == 0
  {
    SteppedSame(u, w, s);
  }

  /** Others act: what was read stays read. */
  lemma PassOthers(u: Universe, w: Writers, s0: State, s: State, s': State, genesis: Hash, rule: Rule, end: nat, queue: seq<Hash>,
                   log: seq<Read>)
    requires PassOk(u, w, s0, s, genesis, rule, end, queue, log) && Stepped(w, s, s') && s'.pruned == s.pruned
    ensures PassOk(u, w, s0, s', genesis, rule, end, queue, log)
  {
    hide Stepped, ChainsOk, IsReadTarget, BelowRead, ReadTarget;
    SteppedConcat(w, s0, s, s');
    forall r | r in log ensures ReadOk(u, w, genesis, s0, s', r) {
      SteppedConcat(w, r.state, s, s');
    }
  }

  /** More accounts are read: exactly their targets are queued. */
  lemma PassReads(u: Universe, w: Writers, s0: State, s: State, genesis: Hash, rule: Rule, lo: Key, hi: nat, queue: seq<Hash>,
                  log: seq<Read>)
    requires PassOk(u, w, s0, s, genesis, rule, lo, queue, log) && ChainsOk(u, s, genesis) && HeightsPositive(s0)
    requires 1 <= lo <= hi <= KEYS
    ensures PassOk(u, w, s0, s, genesis, rule, hi, queue + Chosen(s, rule, lo, hi), log + RowsRead(s, lo, hi))
  {
    hide Stepped, WF, Walk, Chosen, RowsRead, AtOrBelow, GenesisOk, DownClosed, HeightsPositive;
    var chosen, rows := Chosen(s, rule, lo, hi), RowsRead(s, lo, hi);
    ChosenMembers(s, rule, lo, hi);
    RowsReadMembers(s, lo, hi);
    SteppedSame(u, w, s);
    forall t | t in queue + chosen ensures IsReadTarget(rule, log + rows, t) {
      if t in queue {
        assert IsReadTarget(rule, log, t);
      } else {
        var a: Key :| lo <= a < hi && a in s.conf && t == Target(s, rule, a);
        assert Read(a, s) in rows && ReadTarget(rule, Read(a, s)) == t;
      }
    }
    forall x | x in s.pruned && x !in s0.pruned ensures BelowRead(u, rule, log + rows, x) {
      assert BelowRead(u, rule, log, x);
    }
    forall a: Key | 1 <= a < hi && a in s0.conf ensures WasRead(log + rows, a) {
      if a < lo {
        assert WasRead(log, a);
      } else {
        StillThere(w, s0, s, a);
        assert Read(a, s) in rows;
      }
    }
    forall r | r in log + rows
      ensures ReadOk(u, w, genesis, s0, s, r)
      ensures ReadTarget(rule, r) in queue + chosen || Processed(s, genesis, ReadTarget(rule, r))
    {
      if r in rows && ReadTarget(rule, r) != ZERO {
        assert Target(s, rule, r.account) in chosen;
      }
    }
  }

  /** A row of the confirmation height table never goes away. */
  lemma StillThere(w: Writers, s0: State, s: State, a: Key)
    requires Stepped(w, s0, s) && HeightsPositive(s0) && a in s0.conf
    ensures a in s.conf
  {
    assert 0 < HeightOf(s0.conf, a) <= HeightOf(s.conf, a);
  }

  /** In the chain of one of the targets, at its height or below. */
  ghost predicate Covered(u: Universe, x: Hash, targets: seq<Hash>) {
    exists t | t in targets :: AtOrBelow(u, x, t)
  }

  /** Between `s` and `s'` all of `done`, and nothing that does not lie at or below one of them, has been pruned. */
  ghost predicate Wrote(u: Universe, s: State, s': State, genesis: Hash, done: seq<Hash>) {
    && (forall t | t in done :: Processed(s', genesis, t))
    && (forall x | x in s'.pruned && x !in s.pruned :: Covered(u, x, done))
  }

  lemma WroteNone(u: Universe, s: State, s': State, genesis: Hash)
    requires s'.pruned == s.pruned
    ensures Wrote(u, s, s', genesis, [])
  {
  }

  lemma WroteOne(u: Universe, w: Writers, s0: State, s: State, s': State, genesis: Hash, targets: seq<Hash>, i: nat)
    requires i < |targets| && Wrote(u, s0, s, genesis, targets[..i]) && Stepped(w, s, s')
    requires Processed(s', genesis, targets[i]) && forall x | x in s'.pruned && x !in s.pruned :: AtOrBelow(u, x, targets[i])
    ensures Wrote(u, s0, s', genesis, targets[..i + 1])
  {
    hide AtOrBelow, Stepped;
    PrunedStays(w, s, s');
    assert targets[..i + 1] == targets[..i] + [targets[i]];
    forall x | x in s'.pruned && x !in s0.pruned ensures Covered(u, x, targets[..i + 1]) {
      if x in s.pruned {
        assert Covered(u, x, targets[..i]);
      } else {
        assert targets[i] in targets[..i + 1];
      }
    }
  }

  /** A batch is pruned: only targets that are done leave the queue. */
  lemma PassPrunes(u: Universe, w: Writers, s0: State, s: State, s': State, genesis: Hash, rule: Rule, end: nat, queue: seq<Hash>,
                   done: seq<Hash>, rest: seq<Hash>, log: seq<Read>)
    requires PassOk(u, w, s0, s, genesis, rule, end, queue, log) && Stepped(w, s, s') && queue == done + rest
    requires Wrote(u, s, s', genesis, done)
    ensures PassOk(u, w, s0, s', genesis, rule, end, rest, log)
  {
    hide Stepped, ChainsOk, ReadTarget, AtOrBelow;
    SteppedConcat(w, s0, s, s');
    PrunedStays(w, s, s');
    forall r | r in log ensures ReadOk(u, w, genesis, s0, s', r) {
      SteppedConcat(w, r.state, s, s');
    }
    forall x | x in s'.pruned && x !in s0.pruned ensures BelowRead(u, rule, log, x) {
      if x !in s.pruned {
        var t :| t in done && AtOrBelow(u, x, t);
        assert IsReadTarget(rule, log, t);
      }
    }
    forall r | r in log ensures ReadTarget(rule, r) in rest || Processed(s', genesis, ReadTarget(rule, r)) {
      assert ReadTarget(rule, r) in queue || Processed(s, genesis, ReadTarget(rule, r));
    }
    assert forall t | t in rest :: t in queue;
  }

  lemma PrunedStays(w: Writers, s: State, s': State)
    requires Stepped(w, s, s')
    ensures s.pruned <= s'.pruned
  {
  }

  /** Every queued target can be pruned, whatever happened since it was read. */
  lemma QueuePrunable(u: Universe, w: Writers, s0: State, s: State, genesis: Hash, rule: Rule, end: nat, queue: seq<Hash>,
                      log: seq<Read>, t: Hash)
    requires PassOk(u, w, s0, s, genesis, rule, end, queue, log) && rule.maxDepth > 0 && t in queue
    ensures Prunable(u, s, t)
  {
    hide WF, Walk, Prunable, Advances;
    assert IsReadTarget(rule, log, t);
    var r :| r in log && t == ReadTarget(rule, r);
    TargetPrunable(u, r.state, rule, r.account);
    PrunableStays(u, r.state, s, t);
  }

  // ---- What a complete pass has achieved ----

  /** Everything below a frontier that was deep enough or old enough when the pass began is pruned. */
  lemma NothingLeft(u: Universe, w: Writers, s0: State, s: State, genesis: Hash, rule: Rule, log: seq<Read>, a: Key, x: Hash)
    requires ChainsOk(u, s0, genesis) && ChainsOk(u, s, genesis) && rule.maxDepth > 0
    requires PassOk(u, w, s0, s, genesis, rule, KEYS, [], log)
    requires a >= 1 && a in s0.conf && Inner(u, s0, genesis, a, x) && !Kept(u, s0, rule, a, x)
    ensures x in s.pruned
  {
    hide WF, GenesisOk, DownClosed, Walk, Confirmed, Advances, Stepped, HeightOf, HeightsPositive, Known, ReadOk;
    assert WasRead(log, a);
    var r :| r in log && r.account == a;
    assert ReadOk(u, w, genesis, s0, s, r);
    ReadFacts(u, w, genesis, s0, s, r);
    InnerStays(u, s0, r.state, genesis, rule, a, x);
    TargetMeaning(u, r.state, genesis, rule, a);
    if x !in r.state.pruned {
      InnerConfirmed(u, r.state, genesis, a, x);
      AllBelowPruned(u, s, genesis, ReadTarget(rule, r), x);
    }
  }

  lemma ReadFacts(u: Universe, w: Writers, genesis: Hash, s0: State, s: State, r: Read)
    requires ReadOk(u, w, genesis, s0, s, r)
    ensures r.account in r.state.conf && r.state.conf[r.account].height > 0 && ChainsOk(u, r.state, genesis)
    ensures Advances(s0, r.state) && r.state.pruned <= s.pruned
    ensures forall x | Confirmed(r.state, x) :: Known(s, x)
  {
    hide WF, GenesisOk, DownClosed, Silent, NeverLast;
  }

  lemma InnerConfirmed(u: Universe, s: State, genesis: Hash, a: Key, x: Hash)
    requires WF(u, s) && Inner(u, s, genesis, a, x)
    ensures Confirmed(s, x)
  {
    StoredContent(u, s, x);
  }

  lemma InnerStays(u: Universe, s0: State, s: State, genesis: Hash, rule: Rule, a: Key, x: Hash)
    requires WF(u, s0) && Advances(s0, s) && Inner(u, s0, genesis, a, x) && !Kept(u, s0, rule, a, x)
    ensures x in s.pruned || (Inner(u, s, genesis, a, x) && !Kept(u, s, rule, a, x))
  {
    InnerConfirmed(u, s0, genesis, a, x);
    assert Confirmed(s, x) && HeightOf(s0.conf, a) <= HeightOf(s.conf, a);
  }

  /** At or below the target that its account had when the pass began. */
  ghost predicate BelowTarget(u: Universe, s0: State, rule: Rule, x: Hash) {
    var a := u.content(x).account;
    a >= 1 && a in s0.conf && Target(s0, rule, a) != ZERO && AtOrBelow(u, x, Target(s0, rule, a))
  }

  /** If nobody else wrote, a complete pass has pruned exactly the blocks at or below the targets, but the genesis block. */
  lemma PassComplete(u: Universe, w: Writers, s0: State, s: State, genesis: Hash, rule: Rule, log: seq<Read>, x: Hash)
    requires ChainsOk(u, s0, genesis) && ChainsOk(u, s, genesis) && rule.maxDepth > 0 && Silent(w)
    requires PassOk(u, w, s0, s, genesis, rule, KEYS, [], log)
    ensures x in s.pruned <==> x in s0.pruned || (x in s0.blocks && x != genesis && BelowTarget(u, s0, rule, x))
  {
    hide WF, DownClosed, Walk, Target, Confirmed, Advances, NeverLast, HeightsPositive, AtOrBelow, ReadTarget, ReadOk;
    StoredNotPruned(u, s0);
    StoredNotPruned(u, s);
    if x in s0.blocks && x != genesis && BelowTarget(u, s0, rule, x) {
      TargetDone(u, w, s0, s, genesis, rule, log, u.content(x).account);
      AllBelowPruned(u, s, genesis, Target(s0, rule, u.content(x).account), x);
    }
    if x in s.pruned && x !in s0.pruned {
      var r :| r in log && ReadTarget(rule, r) != ZERO && AtOrBelow(u, x, ReadTarget(rule, r));
      ReadBelowTarget(u, w, s0, s, genesis, rule, r, x);
    }
  }

  lemma TargetDone(u: Universe, w: Writers, s0: State, s: State, genesis: Hash, rule: Rule, log: seq<Read>, a: Key)
    requires ChainsOk(u, s0, genesis) && ChainsOk(u, s, genesis) && rule.maxDepth > 0
    requires PassOk(u, w, s0, s, genesis, rule, KEYS, [], log) && a >= 1 && a in s0.conf
    ensures Processed(s, genesis, Target(s0, rule, a))
  {
    var t := Target(s0, rule, a);
    TargetMeaning(u, s0, genesis, rule, a);
    if t != ZERO && t != genesis && t in s0.blocks {
      NothingLeft(u, w, s0, s, genesis, rule, log, a, t);
    }
  }

  /** A target that was read later is not above the one at the beginning. */
  lemma ReadBelowTarget(u: Universe, w: Writers, s0: State, s: State, genesis: Hash, rule: Rule, r: Read, x: Hash)
    requires ChainsOk(u, s0, genesis) && rule.maxDepth > 0 && Silent(w) && ReadOk(u, w, genesis, s0, s, r)
    requires ReadTarget(rule, r) != ZERO && AtOrBelow(u, x, ReadTarget(rule, r))
    requires x in s0.blocks && x != genesis
    ensures BelowTarget(u, s0, rule, x)
  {
    var t, a := ReadTarget(rule, r), r.account;
    TargetMeaning(u, r.state, genesis, rule, a);
    TargetMeaning(u, s0, genesis, rule, a);
    StoredNotPruned(u, s0);
    if t in s0.pruned || t == genesis {
      AllBelowPruned(u, s0, genesis, t, x);
    } else {
      assert Inner(u, s0, genesis, a, t) && !Kept(u, s0, rule, a, t);
    }
  }

  lemma PrunableSteps(u: Universe, w: Writers, s: State, s': State, h: Hash)
    requires WF(u, s) && Stepped(w, s, s') && Prunable(u, s, h)
    ensures Prunable(u, s', h)
  {
    hide WF, Prunable, Advances;
    PrunableStays(u, s, s', h);
  }

  lemma TargetsStay(u: Universe, w: Writers, s: State, s': State, genesis: Hash)
    requires WF(u, s) && Stepped(w, s, s')
    ensures s.pruned <= s'.pruned
    ensures forall t | Prunable(u, s, t) :: Prunable(u, s', t)
    ensures forall t | Processed(s, genesis, t) :: Processed(s', genesis, t)
  {
    hide WF, Prunable;
    PrunedStays(w, s, s');
    forall t | Prunable(u, s, t) ensures Prunable(u, s', t) {
      PrunableSteps(u, w, s, s', t);
    }
  }

  lemma OthersActSame(u: Universe, s: State)
    requires WF(u, s) && HeightsPositive(s)
    ensures OthersAct(u, s, s)
  {
  }

  lemma OthersActConcat(u: Universe, s0: State, s1: State, s2: State)
    requires OthersAct(u, s0, s1) && OthersAct(u, s1, s2)
    ensures OthersAct(u, s0, s2)
  {
    hide WF, Confirmed, HeightsPositive;
  }

  lemma FrontierOnWalk(u: Universe, s: State, account: Key)
    requires WF(u, s) && HeightsPositive(s) && account in s.conf
    ensures OnWalk(u, s, account, s.conf[account].frontier, 0)
  {
    StoredContent(u, s, s.conf[account].frontier);
  }

  lemma OthersKeepsPruned(u: Universe, s: State, s': State)
    requires OthersAct(u, s, s')
    ensures s'.pruned == s.pruned
  {
  }

  /** A pass cannot get stuck at the account with the highest number: in no state that can come about does it fill a read
      alone. */
  ghost predicate LastOk(w: Writers, s: State, rule: Rule, batchSize: nat) {
    forall s' | Stepped(w, s, s') && KEYS - 1 in s'.conf :: 1 + Depth(s', rule, KEYS - 1) < 2 * batchSize
  }

  /** So it is if chains are kept short, if nobody opens that account, or if nobody else writes and it has few blocks. */
  lemma LastIsOk(w: Writers, s: State, rule: Rule, batchSize: nat)
    requires
      || rule.maxDepth + 1 < 2 * batchSize
      || (NeverLast(w) && KEYS - 1 !in s.conf)
      || (Silent(w) && (KEYS - 1 in s.conf ==> 2 + Depth(s, rule, KEYS - 1) < 2 * batchSize))
    ensures LastOk(w, s, rule, batchSize)
  {
    hide Silent, NeverLast, Advances;
    forall s' | Stepped(w, s, s') && KEYS - 1 in s'.conf ensures 1 + Depth(s', rule, KEYS - 1) < 2 * batchSize {
      DepthBounded(s', rule, s'.conf[KEYS - 1].frontier, 0);
      if Silent(w) {
        DepthAfterPruning(s, s', rule, s.conf[KEYS - 1].frontier, 0);
      }
    }
  }

  lemma LastMoves(w: Writers, s: State, s': State, rule: Rule, batchSize: nat)
    requires LastOk(w, s, rule, batchSize) && Stepped(w, s, s')
    ensures LastOk(w, s', rule, batchSize)
    ensures KEYS - 1 in s'.conf ==> 1 + Depth(s', rule, KEYS - 1) < 2 * batchSize
  {
    hide Stepped, Depth;
    forall s2 | Stepped(w, s', s2) && KEYS - 1 in s2.conf ensures 1 + Depth(s2, rule, KEYS - 1) < 2 * batchSize {
      SteppedConcat(w, s, s', s2);
    }
  }

  lemma PassStepped(u: Universe, w: Writers, s0: State, s: State, genesis: Hash, rule: Rule, end: nat, queue: seq<Hash>,
                    log: seq<Read>)
    requires PassOk(u, w, s0, s, genesis, rule, end, queue, log)
    ensures Stepped(w, s0, s)
    ensures forall r | r in log :: ReadOk(u, w, genesis, s0, s, r)
    ensures forall x | x in s.pruned && x !in s0.pruned :: BelowRead(u, rule, log, x)
    ensures queue == [] ==> forall r | r in log :: Processed(s, genesis, ReadTarget(rule, r))
    ensures forall e: nat | e <= end :: PassOk(u, w, s0, s, genesis, rule, e, queue, log)
  {
  }

  lemma SteppedFacts(w: Writers, s0: State, s: State)
    requires Stepped(w, s0, s)
    ensures Advances(s0, s) && (Silent(w) ==> PrunedTo(s0, s))
  {
  }

  lemma PassResult(u: Universe, w: Writers, s0: State, s: State, genesis: Hash, rule: Rule, log: seq<Read>)
    requires ChainsOk(u, s0, genesis) && ChainsOk(u, s, genesis) && rule.maxDepth > 0
    requires PassOk(u, w, s0, s, genesis, rule, KEYS, [], log)
    ensures forall a: Key, x | a >= 1 && a in s0.conf && Inner(u, s0, genesis, a, x) && !Kept(u, s0, rule, a, x) :: x in s.pruned
    ensures Silent(w) ==> forall x ::
      x in s.pruned <==> x in s0.pruned || (x in s0.blocks && x != genesis && BelowTarget(u, s0, rule, x))
  {
    hide ChainsOk, PassOk, Inner, Kept, BelowTarget, Silent;
    forall a: Key, x | a >= 1 && a in s0.conf && Inner(u, s0, genesis, a, x) && !Kept(u, s0, rule, a, x) ensures x in s.pruned {
      NothingLeft(u, w, s0, s, genesis, rule, log, a, x);
    }
    if Silent(w) {
      forall x ensures x in s.pruned <==> x in s0.pruned || (x in s0.blocks && x != genesis && BelowTarget(u, s0, rule, x)) {
        PassComplete(u, w, s0, s, genesis, rule, log, x);
      }
    }
  }

  /** Others act, accounts are read, and others act again. */
  lemma PassCollects(u: Universe, w: Writers, s0: State, s: State, seen: State, s': State, genesis: Hash, rule: Rule, lo: Key,
                     hi: nat, end: nat, queue: seq<Hash>, log: seq<Read>)
    requires PassOk(u, w, s0, s, genesis, rule, lo, queue, log) && ChainsOk(u, seen, genesis) && HeightsPositive(s0)
    requires OthersAct(u, s, seen) && Stepped(w, s, seen) && OthersAct(u, seen, s') && Stepped(w, seen, s')
    requires 1 <= lo <= hi <= KEYS && end <= hi
    ensures PassOk(u, w, s0, s', genesis, rule, end, queue + Chosen(seen, rule, lo, hi), log + RowsRead(seen, lo, hi))
    ensures s'.pruned == s.pruned
  {
    hide PassOk, ChainsOk, OthersAct, Stepped, Chosen, RowsRead, HeightsPositive;
    OthersKeepsPruned(u, s, seen);
    OthersKeepsPruned(u, seen, s');
    PassOthers(u, w, s0, s, seen, genesis, rule, lo, queue, log);
    PassReads(u, w, s0, seen, genesis, rule, lo, hi, queue, log);
    PassOthers(u, w, s0, seen, s', genesis, rule, hi, queue + Chosen(seen, rule, lo, hi), log + RowsRead(seen, lo, hi));
    PassStepped(u, w, s0, s', genesis, rule, hi, queue + Chosen(seen, rule, lo, hi), log + RowsRead(seen, lo, hi));
  }

  lemma NobodyActs(u: Universe, w: Writers, s: State, s': State)
    requires Silent(w) && OthersAct(u, s, s') && Stepped(w, s, s') && WF(u, s)
    ensures s' == s
  {
    StoredNotPruned(u, s);
  }

  /** What can be in the queue of a pass that is stuck: the target of the last account, or what is done already. */
  ghost predicate StuckTarget(u: Universe, s: State, genesis: Hash, rule: Rule, t: Hash)
    requires KEYS - 1 in s.conf
  {
    Prunable(u, s, t) && (t == Target(s, rule, KEYS - 1) || Processed(s, genesis, t))
  }

  lemma PrunedBelowLast(u: Universe, s: State, s': State, genesis: Hash, rule: Rule, t: Hash, x: Hash)
    requires ChainsOk(u, s, genesis) && GenesisOk(u, s', genesis) && PrunedTo(s, s') && WF(u, s') && KEYS - 1 in s.conf
    requires StuckTarget(u, s, genesis, rule, t) && AtOrBelow(u, x, t) && x in s'.pruned && x !in s.pruned
    ensures t == Target(s, rule, KEYS - 1) && t != ZERO
  {
    hide Walk, DownClosed, AtOrBelow;
    WFNotZero(u, s);
    if Processed(s, genesis, t) {
      AllBelowPruned(u, s, genesis, t, x);
    }
  }

  lemma StuckPrunable(u: Universe, s: State, genesis: Hash, rule: Rule, queue: seq<Hash>)
    requires KEYS - 1 in s.conf && forall t | t in queue :: StuckTarget(u, s, genesis, rule, t)
    ensures forall t | t in queue :: Prunable(u, s, t)
  {
  }

  lemma StuckChosen(u: Universe, s: State, genesis: Hash, rule: Rule, hi: nat)
    requires ChainsOk(u, s, genesis) && KEYS - 1 in s.conf && rule.maxDepth > 0 && KEYS - 1 <= hi <= KEYS
    ensures forall t | t in Chosen(s, rule, KEYS - 1, hi) :: StuckTarget(u, s, genesis, rule, t)
  {
    hide Walk, Prunable, WF, DownClosed;
    TargetPrunable(u, s, rule, KEYS - 1);
    assert Chosen(s, rule, KEYS, hi) == [];
  }

  /** Writing a batch leaves a stuck pass stuck. */
  lemma StillStuck(u: Universe, w: Writers, s: State, s': State, genesis: Hash, rule: Rule, done: seq<Hash>, rest: seq<Hash>)
    requires ChainsOk(u, s, genesis) && ChainsOk(u, s', genesis) && Silent(w) && Stepped(w, s, s') && KEYS - 1 in s.conf
    requires forall t | t in done || t in rest :: StuckTarget(u, s, genesis, rule, t)
    requires Wrote(u, s, s', genesis, done)
    requires rest != [] ==> s'.pruned - s.pruned != {}
    ensures KEYS - 1 in s'.conf && Depth(s', rule, KEYS - 1) >= Depth(s, rule, KEYS - 1)
    ensures forall t | t in rest :: StuckTarget(u, s', genesis, rule, t)
  {
    hide Walk, DownClosed, AtOrBelow, Prunable, WF, Silent, Advances;
    var target := Target(s, rule, KEYS - 1);
    forall x | x in s'.pruned && x !in s.pruned ensures target != ZERO && AtOrBelow(u, x, target) && target in done {
      var t :| t in done && AtOrBelow(u, x, t);
      PrunedBelowLast(u, s, s', genesis, rule, t, x);
    }
    FrontierOnWalk(u, s, KEYS - 1);
    DepthKept(u, s, s', rule, KEYS - 1, s.conf[KEYS - 1].frontier, 0);
    forall t | t in rest ensures StuckTarget(u, s', genesis, rule, t) {
      var x :| x in s'.pruned - s.pruned;
      assert target in done;
      PrunableSteps(u, w, s, s', t);
    }
  }

  lemma WFNotZero(u: Universe, s: State)
    requires WF(u, s)
    ensures !Known(s, ZERO)
  {
  }

  lemma SmallRemainder(d: nat, n: nat)
    requires n > 0
    ensures d < n ==> d % n == d
  {
  }

  // ---- The imperative form ----

  class Pruner {
    var s: State
    var prunedCount: nat
    var ticks: nat // how often other writers had a chance to act
    const genesis: Hash
    ghost const u: Universe

    ghost predicate Valid()
      reads this
    {
      Released(u, s, genesis, prunedCount) && DownClosed(u, s, genesis)
    }

    constructor (s: State, genesis: Hash, ghost u: Universe)
      requires ChainsOk(u, s, genesis)
      ensures Valid() && this.s == s && this.genesis == genesis && this.u == u
    {
      this.s, prunedCount, ticks, this.genesis, this.u := s, |s.pruned|, 0, genesis, u;
    }

    /** No transaction is open: other writers find well-formed tables and may act. */
    method Release(w: Writers)
      requires WritersOk(u, w) && Released(u, s, genesis, prunedCount)
      modifies this`s, this`ticks
      ensures Released(u, s, genesis, prunedCount) && OthersAct(u, old(s), s) && Stepped(w, old(s), s)
    {
      hide WF, Confirmed;
      SteppedSame(u, w, s);
      var next := w.step(ticks, s);
      if next.Some? {
        GenesisStays(u, s, next.value, genesis);
        s := next.value;
      }
      ticks := ticks + 1;
    }

    /** Moves one block from the stored to the pruned ones, and returns the block below it. */
    method PruneBlock(ghost w: Writers, hash: Hash) returns (previous: Hash)
      requires Released(u, s, genesis, prunedCount) && DownClosedBut(u, s, genesis, hash)
      requires hash != genesis && hash in s.blocks && Prunable(u, s, hash)
      modifies this`s, this`prunedCount
      ensures Released(u, s, genesis, prunedCount) && DownClosedBut(u, s, genesis, previous)
      ensures s == Prune(old(s), hash) && Stepped(w, old(s), s) && |s.pruned - old(s.pruned)| == 1
      ensures previous == u.content(hash).previous
      ensures previous != ZERO ==>
        Prunable(u, s, previous) && AtOrBelow(u, previous, hash) && u.content(previous).height + 1 == u.content(hash).height
    {
      hide WF, Confirmed, DownClosedBut, Stepped;
      PruneConfirms(u, s, hash);
      PruneKeepsWF(u, s, hash);
      BelowPrunable(u, s, hash);
      GapMoves(u, s, genesis, hash);
      SteppedPrune(u, w, s, hash);
      previous := s.blocks[hash].previous;
      s := Prune(s, hash);
      prunedCount := prunedCount + 1;
    }

    /** Prunes a block and all stored blocks below it.  After every `batchSize` blocks the transaction is committed and
        other writers may act. */
    method PruningAction(w: Writers, target: Hash, batchSize: nat) returns (n: nat)
      requires WritersOk(u, w) && Valid() && batchSize > 0 && (target == ZERO || Prunable(u, s, target))
      modifies this`s, this`prunedCount, this`ticks
      ensures Valid() && Stepped(w, old(s), s) && n == |s.pruned - old(s.pruned)|
      ensures Processed(s, genesis, target)
      ensures forall x | x in s.pruned && x !in old(s.pruned) :: AtOrBelow(u, x, target)
    {
      hide WF, Confirmed, DownClosed, DownClosedBut, Stepped, WritersOk, Advances;
      var hash := target;
      n := 0;
      SteppedSame(u, w, s);
      GapOpens(u, s, genesis, hash);
      while hash != ZERO && hash != genesis
        invariant Released(u, s, genesis, prunedCount) && DownClosedBut(u, s, genesis, hash)
        invariant Stepped(w, old(s), s) && n == |s.pruned - old(s.pruned)|
        invariant hash == ZERO || (Prunable(u, s, hash) && AtOrBelow(u, hash, target))
        invariant hash == target || Processed(s, genesis, target)
        invariant forall x | x in s.pruned && x !in old(s.pruned) :: AtOrBelow(u, x, target)
        decreases if hash == ZERO then 0 else u.content(hash).height + 1
      {
        if hash in s.blocks {
          assert Confirmed(s, hash) by { PruneConfirms(u, s, hash); }
          ghost var before := s;
          hash := PruneBlock(w, hash);
          SteppedConcat(w, old(s), before, s);
          n := n + 1;
          if n % batchSize == 0 {
            ghost var committed := s;
            Release(w);
            SteppedConcat(w, old(s), committed, s);
            GapStays(u, committed, s, genesis, hash);
            if hash != ZERO {
              PrunableStays(u, committed, s, hash);
            }
          }
        } else if hash in s.pruned {
          GapCloses(u, s, genesis, hash);
          GapOpens(u, s, genesis, ZERO);
          hash := ZERO;
        } else {
          assert false;
        }
      }
      GapCloses(u, s, genesis, hash);
    }

    /** Prunes targets from the front of the queue until the batch is full. */
    method PruneBatch(w: Writers, targets: seq<Hash>, batchSize: nat) returns (rest: seq<Hash>, n: nat)
      requires WritersOk(u, w) && Valid() && batchSize > 0 && forall t | t in targets :: Prunable(u, s, t)
      modifies this`s, this`prunedCount, this`ticks
      ensures Valid() && Stepped(w, old(s), s) && n == |s.pruned - old(s.pruned)|
      ensures (rest == [] || n >= batchSize) && (targets == [] ==> n == 0)
      ensures |rest| <= |targets| && rest == targets[|targets| - |rest|..] && (targets != [] ==> |rest| < |targets|)
      ensures Wrote(u, old(s), s, genesis, targets[..|targets| - |rest|])
    {
      hide WF, AtOrBelow, DownClosed, GenesisOk, Prunable, Processed, Stepped, WritersOk, HeightsPositive, Wrote;
      SteppedSame(u, w, s);
      WroteNone(u, s, s, genesis);
      n := 0;
      if targets != [] {
        ghost var before := s;
        Release(w);
        GapStays(u, before, s, genesis, ZERO);
        TargetsStay(u, w, before, s, genesis);
        WroteNone(u, before, s, genesis);
      }
      var i := 0;
      assert targets[..0] == [];
      while i < |targets| && n < batchSize
        invariant Valid() && Stepped(w, old(s), s) && n == |s.pruned - old(s.pruned)|
        invariant i <= |targets| && (i == 0 ==> n == 0)
        invariant forall j | i <= j < |targets| :: Prunable(u, s, targets[j])
        invariant Wrote(u, old(s), s, genesis, targets[..i])
      {
        ghost var before := s;
        var count := PruningAction(w, targets[i], batchSize);
        SteppedConcat(w, old(s), before, s);
        TargetsStay(u, w, before, s, genesis);
        n := n + count;
        WroteOne(u, w, old(s), before, s, genesis, targets, i);
        i := i + 1;
      }
      rest := targets[i..];
    }

    /** The read transaction is refreshed in the middle of a walk, which does not change where the walk ends. */
    method RefreshRead(w: Writers, ghost rule: Rule, ghost account: Key, ghost hash: Hash, ghost depth: nat, ghost start: State)
      requires WritersOk(u, w) && Valid() && depth > 0 && OnWalk(u, s, account, hash, depth)
      requires OthersAct(u, start, s) && Stepped(w, start, s)
      modifies this`s, this`ticks
      ensures Valid() && OnWalk(u, s, account, hash, depth)
      ensures OthersAct(u, start, s) && Stepped(w, start, s)
      ensures Walk(s, rule, hash, depth) == Walk(old(s), rule, hash, depth)
    {
      hide WF, DownClosed, GenesisOk, OnWalk, Walk, Stepped, WritersOk, OthersAct, HeightsPositive;
      ghost var before := s;
      Release(w);
      WalkStable(u, before, s, rule, account, hash, depth);
      SteppedConcat(w, start, before, s);
      OthersKeepsPruned(u, before, s);
      GapStays(u, before, s, genesis, ZERO);
      OthersActConcat(u, start, before, s);
    }

    /** Walks down from the frontier of an account.  After every `readSize` blocks the read transaction is refreshed. */
    method WalkChain(w: Writers, rule: Rule, account: Key, readSize: nat) returns (hash: Hash, depth: nat)
      requires WritersOk(u, w) && Valid() && account in s.conf && readSize > 0
      modifies this`s, this`ticks
      ensures Valid() && OthersAct(u, old(s), s) && Stepped(w, old(s), s)
      ensures (hash, depth) == Walk(old(s), rule, old(s).conf[account].frontier, 0)
      ensures depth < readSize ==> s == old(s)
    {
      hide WF, DownClosed, GenesisOk, Prunable, Stepped, WritersOk, OthersAct, HeightsPositive;
      SteppedSame(u, w, s);
      OthersActSame(u, s);
      FrontierOnWalk(u, s, account);
      hash, depth := s.conf[account].frontier, 0;
      while hash != ZERO && depth < rule.maxDepth
        invariant Valid() && OthersAct(u, old(s), s) && Stepped(w, old(s), s)
        invariant OnWalk(u, s, account, hash, depth) && (depth < readSize ==> s == old(s))
        invariant Walk(s, rule, hash, depth) == Walk(old(s), rule, old(s).conf[account].frontier, 0)
        decreases rule.maxDepth - depth
      {
        if hash in s.blocks {
          WalkStep(u, s, account, hash, depth);
          var block := s.blocks[hash];
          if rule.time(hash) > rule.cutoff || depth == 0 {
            hash := block.previous;
          } else {
            break;
          }
        } else {
          assert depth != 0;
          hash := ZERO;
        }
        depth := depth + 1;
        if depth % readSize == 0 {
          SmallRemainder(depth, readSize);
          RefreshRead(w, rule, account, hash, depth, old(s));
        }
      }
    }

    /** Adds the targets of the accounts from `last` on, as they are in state `seen`, until enough rows and blocks were read.
        At the very last account it makes no progress if that account alone is enough to read. */
    method CollectTargets(w: Writers, targets: seq<Hash>, last: Key, readSize: nat, rule: Rule)
      returns (targets': seq<Hash>, last': Key, finished: bool, ghost seen: State, ghost hi: nat)
      requires WritersOk(u, w) && Valid() && 0 < last && readSize > 0
      modifies this`s, this`ticks
      ensures Valid() && ChainsOk(u, seen, genesis)
      ensures OthersAct(u, old(s), seen) && Stepped(w, old(s), seen) && OthersAct(u, seen, s) && Stepped(w, seen, s)
      ensures last <= hi <= KEYS && targets' == targets + Chosen(seen, rule, last, hi)
      ensures if finished then hi == KEYS && last' == last else last <= last' <= hi
      ensures !finished && last' == last ==> last == KEYS - 1 && last in seen.conf && 1 + Depth(seen, rule, last) >= readSize
      ensures last == KEYS - 1 && last in seen.conf ==> (finished <==> 1 + Depth(seen, rule, last) < readSize)
    {
      hide WF, DownClosed, GenesisOk, HeightsPositive, Walk, Chosen, NextKey, Stepped, OthersAct, WritersOk;
      ghost var before := s;
      Release(w);
      OthersKeepsPruned(u, before, s);
      GapStays(u, before, s, genesis, ZERO);
      seen := s;
      SteppedSame(u, w, s);
      OthersActSame(u, s);
      ChosenNone(seen, rule, last, last);
      targets', last', finished, hi := targets, last, true, last;
      var position: nat, readOperations: nat := last, 0;
      while true
        invariant s == seen && Valid() && last <= position <= KEYS && last' == last
        invariant readOperations < readSize || position == last
        invariant position == last ==> readOperations == 0
        invariant last == KEYS - 1 && last in seen.conf && position > last ==> readOperations == 1 + Depth(seen, rule, last)
        invariant targets' == targets + Chosen(seen, rule, last, position)
        decreases KEYS - position
      {
        var next := NextKey(s.conf, position);
        if next.None? {
          ChosenSplit(seen, rule, last, position, KEYS);
          ChosenNone(seen, rule, position, KEYS);
          hi := KEYS;
          return targets', last', true, seen, hi;
        }
        var account: nat := next.value;
        readOperations := readOperations + 1;
        var hash, depth := WalkChain(w, rule, account, readSize);
        ChosenSplit(seen, rule, last, position, account + 1);
        ChosenNext(seen, rule, position, account);
        if hash != ZERO {
          targets' := targets' + [hash];
        }
        readOperations := readOperations + depth;
        if readOperations >= readSize {
          last', hi := IncOrMax(account), account + 1;
          return targets', last', last' == 0, seen, hi;
        }
        position := account + 1;
      }
    }

    /** Collects targets until there are enough for a batch. */
    method SearchTargets(w: Writers, ghost s0: State, rule: Rule, batchSize: nat, stop: nat -> bool, queue: seq<Hash>, last: Key,
                         tick: nat, ghost log: seq<Read>)
      returns (queue': seq<Hash>, last': Key, finished: bool, stopped: bool, tick': nat, ghost log': seq<Read>)
      requires WritersOk(u, w) && Valid() && HeightsPositive(s0) && batchSize > 0 && last > 0
      requires LastOk(w, s, rule, batchSize)
      requires PassOk(u, w, s0, s, genesis, rule, last, queue, log)
      modifies this`s, this`ticks
      ensures Valid() && Stepped(w, old(s), s) && s.pruned == old(s.pruned)
      ensures PassOk(u, w, s0, s, genesis, rule, if finished then KEYS else last', queue', log')
      ensures last <= last' && (finished || last < last' || (queue' == queue && (stopped || |queue| >= batchSize)))
    {
      hide WF, DownClosed, GenesisOk, HeightsPositive, Walk, Chosen, RowsRead, Depth, PassOk, Stepped, OthersAct, WritersOk, LastOk,
           ChainsOk;
      SteppedSame(u, w, s);
      queue', last', finished, tick', stopped, log' := queue, last, false, tick + 1, stop(tick + 1), log;
      while |queue'| < batchSize && !finished && !stopped
        invariant Valid() && Stepped(w, old(s), s) && s.pruned == old(s.pruned) && last <= last'
        invariant LastOk(w, s, rule, batchSize)
        invariant PassOk(u, w, s0, s, genesis, rule, if finished then KEYS else last', queue', log')
        invariant finished || last < last' || queue' == queue
        decreases KEYS - last', !finished
      {
        ghost var before, queue0, from := s, queue', last';
        ghost var seen, hi;
        queue', last', finished, seen, hi := CollectTargets(w, queue', last', batchSize * 2, rule);
        ghost var end := if finished then KEYS else last';
        PassCollects(u, w, s0, before, seen, s, genesis, rule, from, hi, end, queue0, log');
        log' := log' + RowsRead(seen, from, hi);
        LastMoves(w, before, seen, rule, batchSize);
        LastMoves(w, seen, s, rule, batchSize);
        SteppedConcat(w, before, seen, s);
        SteppedConcat(w, old(s), before, s);
        tick' := tick' + 1;
        stopped := stopped || stop(tick');
      }
    }

    /** Prunes a batch of the queue. */
    method WriteBatch(w: Writers, ghost s0: State, ghost rule: Rule, ghost end: nat, batchSize: nat, queue: seq<Hash>,
                      ghost log: seq<Read>)
      returns (queue': seq<Hash>, written: nat)
      requires WritersOk(u, w) && Valid() && batchSize > 0 && rule.maxDepth > 0
      requires PassOk(u, w, s0, s, genesis, rule, end, queue, log)
      modifies this`s, this`prunedCount, this`ticks
      ensures Valid() && Stepped(w, old(s), s)
      ensures PassOk(u, w, s0, s, genesis, rule, end, queue', log)
      ensures |s.pruned - s0.pruned| == |old(s.pruned) - s0.pruned| + written
      ensures (written == 0 ==> queue' == []) && (if queue == [] then written == 0 else |queue'| < |queue|)
    {
      hide WF, DownClosed, GenesisOk, HeightsPositive, Walk, PassOk, Stepped, WritersOk, Prunable, Covered;
      ghost var before := s;
      forall t | t in queue ensures Prunable(u, s, t) {
        QueuePrunable(u, w, s0, s, genesis, rule, end, queue, log, t);
      }
      queue', written := PruneBatch(w, queue, batchSize);
      PassPrunes(u, w, s0, before, s, genesis, rule, end, queue, queue[..|queue| - |queue'|], queue', log);
      PassStepped(u, w, s0, before, genesis, rule, end, queue, log);
      SteppedConcat(w, s0, before, s);
    }

    /** A pass over all accounts.  `stop(k)` says whether someone stops the node before the k-th look at the stop flag; `log`
        lists the accounts that were read, each with the state in which it was read. */
    method LedgerPruning(w: Writers, batchSize: nat, rule: Rule, stop: nat -> bool)
      returns (count: nat, stopped: bool, ghost log: seq<Read>)
      requires WritersOk(u, w) && Valid() && batchSize > 0 && rule.maxDepth > 0
      requires LastOk(w, s, rule, batchSize)
      modifies this`s, this`prunedCount, this`ticks
      ensures Valid() && Advances(old(s), s) && count == |s.pruned - old(s.pruned)|
      // Only blocks at or below a target that was read are pruned ...
      ensures forall r | r in log :: ReadOk(u, w, genesis, old(s), s, r)
      ensures forall x | x in s.pruned && x !in old(s.pruned) :: BelowRead(u, rule, log, x)
      // ... and unless the node is stopped, every target that was read is done ...
      ensures !stopped ==> forall r | r in log :: Processed(s, genesis, ReadTarget(rule, r))
      // ... so that everything that was deep enough or old enough at the beginning is pruned.
      ensures !stopped ==>
        forall a: Key, x | a >= 1 && a in old(s.conf) && Inner(u, old(s), genesis, a, x) && !Kept(u, old(s), rule, a, x) ::
          x in s.pruned
      // Without other writers this is exact.
      ensures Silent(w) ==> PrunedTo(old(s), s)
      ensures Silent(w) && !stopped ==> forall x ::
        x in s.pruned <==> x in old(s.pruned) || (x in old(s.blocks) && x != genesis && BelowTarget(u, old(s), rule, x))
    {
      hide WF, DownClosed, GenesisOk, HeightsPositive, Walk, Target, Chosen, PassOk, BelowTarget, BelowRead, PrunedTo, Kept, Inner,
           WritersOk, Silent, Stepped, Advances, ReadOk, ReadTarget, Processed, LastOk;
      ghost var s0 := s;
      PassStarts(u, w, s, genesis, rule);
      SteppedSame(u, w, s);
      log := [];
      var queue: seq<Hash>, last: Key, finished, written, tick := [], 1, false, 0, 0;
      count, stopped := 0, stop(0);
      while (written != 0 || !finished) && !stopped
        invariant Valid() && count == |s.pruned - s0.pruned| && last > 0
        invariant LastOk(w, s, rule, batchSize)
        invariant PassOk(u, w, s0, s, genesis, rule, if finished then KEYS else last, queue, log)
        invariant written == 0 ==> queue == []
        decreases KEYS - last, !finished, |queue|, (if written != 0 then 1 else 0) + (if stopped then 0 else 1)
      {
        if !finished {
          queue, last, finished, stopped, tick, log := SearchTargets(w, s0, rule, batchSize, stop, queue, last, tick, log);
        }
        queue, written := WriteBatch(w, s0, rule, if finished then KEYS else last, batchSize, queue, log);
        PassStepped(u, w, s0, s, genesis, rule, if finished then KEYS else last, queue, log);
        LastMoves(w, s0, s, rule, batchSize);
        count := count + written;
        tick := tick + 1;
        stopped := stopped || stop(tick);
      }
      PassStepped(u, w, s0, s, genesis, rule, if finished then KEYS else last, queue, log);
      SteppedFacts(w, s0, s);
      if !stopped {
        PassResult(u, w, s0, s, genesis, rule, log);
      }
    }

    /** The condition on the last account is needed: if it is open and fills a read alone, a pass that has come to it goes
        on for any number of rounds, each of which collects or writes, even if nobody else writes and nobody stops it. */
    method StuckAtLast(w: Writers, batchSize: nat, rule: Rule, rounds: nat) returns (collected: nat, written: nat)
      requires WritersOk(u, w) && Silent(w) && Valid() && batchSize > 0 && rule.maxDepth > 0
      requires KEYS - 1 in s.conf && 1 + Depth(s, rule, KEYS - 1) >= 2 * batchSize
      modifies this`s, this`prunedCount, this`ticks
      ensures Valid() && KEYS - 1 in s.conf && 1 + Depth(s, rule, KEYS - 1) >= 2 * batchSize
      ensures collected + written == rounds
    {
      hide WF, DownClosed, GenesisOk, HeightsPositive, Walk, WritersOk, Silent, OthersAct, Stepped, Prunable, Chosen, Depth,
           Covered, StuckTarget;
      var queue: seq<Hash>, last: Key, finished := [], KEYS - 1, false;
      collected, written := 0, 0;
      while collected + written < rounds
        invariant collected + written <= rounds && last == KEYS - 1 && !finished
        invariant Valid() && KEYS - 1 in s.conf && 1 + Depth(s, rule, KEYS - 1) >= 2 * batchSize
        invariant forall t | t in queue :: StuckTarget(u, s, genesis, rule, t)
      {
        ghost var before, queued := s, queue;
        if |queue| < batchSize {
          ghost var seen, hi;
          queue, last, finished, seen, hi := CollectTargets(w, queue, last, batchSize * 2, rule);
          NobodyActs(u, w, before, seen);
          NobodyActs(u, w, seen, s);
          StuckChosen(u, before, genesis, rule, hi);
          collected := collected + 1;
        } else {
          StuckPrunable(u, s, genesis, rule, queue);
          var n;
          queue, n := PruneBatch(w, queue, batchSize);
          StillStuck(u, w, before, s, genesis, rule, queued[..|queued| - |queue|], queue);
          written := written + 1;
        }
      }
    }
  }
}
