/** `Ledger::confirm_batch`: cements a batch of roots, calling the cementer for each of them until it is confirmed, and
    reports the confirmed blocks to an observer. */
module ConfirmBatch {
  import opened Wrappers
  import opened KeySpace
  import opened LedgerState
  import opened Cementing

  /** A confirmed block together with the root that caused it to be confirmed. */
  datatype Report = Report(block: Block, root: Hash)

  function Concat(batches: seq<seq<Report>>): seq<Report> {
    if batches == [] then [] else Concat(batches[..|batches| - 1]) + batches[|batches| - 1]
  }

  function ReportHashes(reports: seq<Report>): (hs: seq<Hash>)
    ensures |hs| == |reports|
  {
    seq(|reports|, i requires 0 <= i < |reports| => reports[i].block.hash)
  }

  function Label(blocks: seq<Block>, root: Hash): (reports: seq<Report>)
    ensures |reports| == |blocks|
  {
    seq(|blocks|, i requires 0 <= i < |blocks| => Report(blocks[i], root))
  }

  lemma ReportHashesConcat(a: seq<Report>, b: seq<Report>)
    ensures ReportHashes(a + b) == ReportHashes(a) + ReportHashes(b)
  {
  }

  lemma LabelHashes(blocks: seq<Block>, root: Hash)
    ensures ReportHashes(Label(blocks, root)) == Hashes(blocks)
  {
  }

  class Observer {
    var batches: seq<seq<Report>>
    var already: seq<Hash>
    var failed: seq<Hash>

    method BatchConfirmed(batch: seq<Report>)
      modifies `batches
      ensures batches == old(batches) + [batch]
      ensures Concat(batches) == Concat(old(batches)) + batch
    {
      batches := batches + [batch];
    }
  }

  // ----- why the loop over one root ends -------------------------------------------------------------------------------

  /** Confirming more leaves fewer blocks to confirm. */
  lemma {:induction false} UnconfirmedShrinks(u: Universe, s: State, s': State, h: Hash)
    requires Acyclic(u)
    requires forall x | Confirmed(s, x) :: Confirmed(s', x)
    ensures Unconfirmed(u, s', h) <= Unconfirmed(u, s, h)
    decreases u.rank(h)
  {
    if h != ZERO && !Confirmed(s', h) {
      assert ContentOk(u, h);
      var b := u.content(h);
      if b.dep0 != ZERO { UnconfirmedShrinks(u, s, s', b.dep0); }
      if b.dep1 != ZERO { UnconfirmedShrinks(u, s, s', b.dep1); }
    }
  }

  lemma Subset(a: set<Hash>, b: set<Hash>)
    requires a <= b
    ensures |a| <= |b|
    ensures a != b ==> |a| < |b|
  {
    var c := b - a;
    assert b == a + c;
    assert |b| == |a| + |c|;
    if a != b {
      assert exists x :: x in b && x !in a;
      assert c != {};
    }
  }

  lemma TraceShrinks(u: Universe, s: State, hs: seq<Hash>, s': State, root: Hash)
    requires Acyclic(u) && Trace(u, s, hs, s')
    ensures |Unconfirmed(u, s', root)| <= |Unconfirmed(u, s, root)|
    ensures hs != [] && hs[0] in Unconfirmed(u, s, root) ==> |Unconfirmed(u, s', root)| < |Unconfirmed(u, s, root)|
  {
    UnconfirmedShrinks(u, s, s', root);
    UnconfirmedIsClosed(u, s', root);
    Subset(Unconfirmed(u, s', root), Unconfirmed(u, s, root));
    if hs != [] && hs[0] in Unconfirmed(u, s, root) {
      assert Confirmed(s', hs[0]);
    }
  }

  lemma ConfirmedStays(u: Universe, s: State, hs: seq<Hash>, s': State)
    requires Trace(u, s, hs, s')
    ensures forall h | Confirmed(s, h) :: Confirmed(s', h)
  {
  }

  // ----- one root ------------------------------------------------------------------------------------------------------

  /** A report names a root of the batch that needed its block to be confirmed. */
  ghost predicate Truthful(u: Universe, s0: State, batch: seq<Hash>, r: Report)
    requires Acyclic(u)
  {
    r.root in batch && r.block == u.content(r.block.hash) && r.block.hash in Unconfirmed(u, s0, r.root)
  }

  /** Everything confirmed since `s0` has been reported or waits in `confirmed`. */
  ghost predicate Accounted(u: Universe, s0: State, batch: seq<Hash>, s: State, reported: seq<Report>, confirmed: seq<Report>) {
    && WF(u, s) && Trace(u, s0, ReportHashes(reported + confirmed), s)
    && forall r | r in reported + confirmed :: Truthful(u, s0, batch, r)
  }

  lemma AccountedMore(u: Universe, s0: State, batch: seq<Hash>, s: State, reported: seq<Report>, confirmed: seq<Report>,
                      added: seq<Block>, root: Hash, s': State)
    requires Accounted(u, s0, batch, s, reported, confirmed)
    requires WF(u, s') && Trace(u, s, Hashes(added), s')
    requires root in batch && forall i | 0 <= i < |added| :: added[i] == u.content(added[i].hash)
    requires WF(u, s) && forall h | h in Hashes(added) :: h in Unconfirmed(u, s, root)
    ensures Accounted(u, s0, batch, s', reported, confirmed + Label(added, root))
  {
    hide Trace, WF, ReportHashes, Label, Hashes;
    TraceConcat(u, s0, ReportHashes(reported + confirmed), s, Hashes(added), s');
    ReportHashesConcat(reported + confirmed, Label(added, root));
    LabelHashes(added, root);
    assert reported + confirmed + Label(added, root) == reported + (confirmed + Label(added, root));
    WFAcyclic(u, s);
    LabelTruthful(u, s0, batch, s, ReportHashes(reported + confirmed), added, root);
  }

  lemma LabelTruthful(u: Universe, s0: State, batch: seq<Hash>, s: State, hs: seq<Hash>, added: seq<Block>, root: Hash)
    requires Acyclic(u) && Trace(u, s0, hs, s) && root in batch
    requires forall i | 0 <= i < |added| :: added[i] == u.content(added[i].hash)
    requires forall h | h in Hashes(added) :: h in Unconfirmed(u, s, root)
    ensures forall r | r in Label(added, root) :: Truthful(u, s0, batch, r)
  {
    hide Trace, Unconfirmed;
    ConfirmedStays(u, s0, hs, s);
    UnconfirmedShrinks(u, s0, s, root);
    forall r | r in Label(added, root) ensures Truthful(u, s0, batch, r) {
      var i :| 0 <= i < |added| && r == Report(added[i], root);
      assert Hashes(added)[i] == added[i].hash;
    }
  }

  lemma AccountedStep(u: Universe, s0: State, batch: seq<Hash>, s: State, reported: seq<Report>, confirmed: seq<Report>, s': State)
    requires Accounted(u, s0, batch, s, reported, confirmed)
    requires WF(u, s') && s.pruned <= s'.pruned && forall h :: Confirmed(s', h) <==> Confirmed(s, h)
    ensures Accounted(u, s0, batch, s', reported, confirmed)
    ensures Trace(u, s, [], s')
  {
  }

  lemma AccountedFlush(u: Universe, s0: State, batch: seq<Hash>, s: State, reported: seq<Report>, confirmed: seq<Report>)
    requires Accounted(u, s0, batch, s, reported, confirmed)
    ensures Accounted(u, s0, batch, s, reported + confirmed, [])
  {
    assert reported + confirmed + [] == reported + confirmed;
  }

  /** The beginning of a round: other writers may act, and a buffer that has grown to the limit is reported. */
  method Notify(ledger: Ledger, env: Env, stopped: nat -> bool, max: nat, observer: Observer, pending: seq<Report>,
                ghost u: Universe, ghost s0: State, ghost batch: seq<Hash>, ghost root: Hash)
      returns (stop: bool, confirmed: seq<Report>)
    requires Accounted(u, s0, batch, ledger.Value(), Concat(observer.batches), pending)
    requires EnvOk(u, env)
    requires 1 <= max && |pending| < 2 * max
    modifies ledger`blocks, ledger`pruned, ledger`ticks, observer`batches
    ensures Accounted(u, s0, batch, ledger.Value(), Concat(observer.batches), confirmed)
    ensures !stop ==> |confirmed| < max
    ensures |confirmed| < 2 * max
    ensures || (observer.batches == old(observer.batches) && confirmed == pending)
            || (observer.batches == old(observer.batches) + [pending] && max <= |pending| && confirmed == [])
    ensures ledger.ticks > old(ledger.ticks)
    ensures forall quiet: nat | old(ledger.ticks) >= quiet && NoReturn(env, quiet, root) && root !in old(ledger.blocks) ::
              root !in ledger.blocks
    ensures forall h :: Confirmed(ledger.Value(), h) <==> Confirmed(old(ledger.Value()), h)
    ensures UnconfirmedCount(u, ledger.Value(), root) <= UnconfirmedCount(u, old(ledger.Value()), root)
  {
    hide WF, Trace, EnvOk, Accounted, Truthful, Confirmed, Unconfirmed, UnconfirmedCount, Acyclic, Concat, Interferes, ReportHashes;
    stop, confirmed := false, pending;
    ghost var s := ledger.Value();
    AccountedFacts(u, s0, batch, s, Concat(observer.batches), confirmed);
    var _ := ledger.RefreshIfNeeded(env, u);
    ghost var s1 := ledger.Value();
    AccountedStep(u, s0, batch, s, Concat(observer.batches), confirmed, s1);
    TraceShrinksTo(u, s, [], s1, root);
    if stopped(ledger.ticks) {
      stop := true;
      return;
    }
    if |confirmed| >= max {
      AccountedFlush(u, s0, batch, s1, Concat(observer.batches), confirmed);
      observer.BatchConfirmed(confirmed);
      confirmed := [];
      var _ := ledger.RefreshIfNeeded(env, u);
      AccountedStep(u, s0, batch, s1, Concat(observer.batches), confirmed, ledger.Value());
      TraceShrinksTo(u, s1, [], ledger.Value(), root);
    }
  }

  /** Cements one root.  The loop ends because from `quiet` on the root is not both taken out and put back any more. */
  method ConfirmRoot(ledger: Ledger, env: Env, root: Hash, stopped: nat -> bool, max: nat, observer: Observer,
                     pending: seq<Report>, ghost u: Universe, ghost quiet: nat, ghost s0: State, ghost batch: seq<Hash>)
      returns (success: bool, stop: bool, confirmed: seq<Report>)
    requires Accounted(u, s0, batch, ledger.Value(), Concat(observer.batches), pending)
    requires EnvOk(u, env) && Settles(env, quiet, root) && root in batch
    requires 1 <= max && |pending| < 2 * max
    modifies ledger, observer
    ensures Accounted(u, s0, batch, ledger.Value(), Concat(observer.batches), confirmed)
    ensures |confirmed| < 2 * max
    ensures BatchSizes(old(observer.batches), observer.batches, max) && observer.failed == old(observer.failed)
    ensures forall h | Confirmed(old(ledger.Value()), h) :: Confirmed(ledger.Value(), h)
    ensures success ==> Confirmed(ledger.Value(), root)
    ensures !success && !stop ==> root !in ledger.blocks
    ensures observer.already == old(observer.already) || (success && observer.already == old(observer.already) + [root])
  {
    hide WF, Trace, EnvOk, Accounted, Truthful, Confirmed, Stays, NoReturn, Unconfirmed, UnconfirmedCount, Acyclic, Concat, Label, Hashes,
         Interferes, ReportHashes;
    success, stop, confirmed := false, false, pending;
    while true
      invariant Accounted(u, s0, batch, ledger.Value(), Concat(observer.batches), confirmed)
      invariant |confirmed| < 2 * max
      invariant BatchSizes(old(observer.batches), observer.batches, max) && observer.failed == old(observer.failed)
      invariant forall h | Confirmed(old(ledger.Value()), h) :: Confirmed(ledger.Value(), h)
      invariant observer.already == old(observer.already) && !success && !stop
      decreases if ledger.ticks < quiet then quiet - ledger.ticks else 0,
                UnconfirmedCount(u, ledger.Value(), root),
                root in ledger.blocks
    {
      stop, confirmed := Notify(ledger, env, stopped, max, observer, confirmed, u, s0, batch, root);
      if stop {
        return;
      }
      if root !in ledger.blocks {
        break;
      }
      ghost var s := ledger.Value();
      AccountedFacts(u, s0, batch, s, Concat(observer.batches), confirmed);
      var added := ledger.Confirm(env, root, max, u, quiet);
      AccountedMore(u, s0, batch, s, Concat(observer.batches), confirmed, added, root, ledger.Value());
      ConfirmedStays(u, s, Hashes(added), ledger.Value());
      TraceShrinksTo(u, s, Hashes(added), ledger.Value(), root);
      confirmed := confirmed + Label(added, root);
      success := root in ledger.blocks && Confirmed(ledger.Value(), root);
      if added == [] && success {
        observer.already := observer.already + [root];
      }
      if success {
        break;
      }
    }
  }

  // ----- and when it does not end ---------------------------------------------------------------------------------------

  /** `root` is a stored block that waits for a dependency and that nothing depends on. */
  ghost predicate Loose(u: Universe, s: State, root: Hash) {
    && WF(u, s) && root in s.blocks && !DepsConfirmed(s, s.blocks[root])
    && forall h | h in s.blocks :: s.blocks[h].dep0 != root && s.blocks[h].dep1 != root
  }

  function Without(s: State, root: Hash): Tables {
    Tables(s.blocks - {root}, s.pruned)
  }

  /** Writers that take `root` out at every odd chance and put it back at every even one. */
  function Toggling(s: State, root: Hash): Env {
    Env((k: nat, x: State) =>
      if k % 2 == 1 && x == s then Some(Without(s, root))
      else if k % 2 == 0 && x == With(s, Without(s, root)) then Some(Tables(s.blocks, s.pruned))
      else None)
  }

  lemma LooseUnconfirmed(u: Universe, s: State, root: Hash)
    requires Loose(u, s, root)
    ensures !Confirmed(s, root) && root != ZERO
  {
    assert s.blocks[root] == u.content(root);
  }

  lemma WithoutWF(u: Universe, s: State, root: Hash)
    requires Loose(u, s, root)
    ensures WF(u, With(s, Without(s, root)))
    ensures forall h :: Confirmed(With(s, Without(s, root)), h) <==> Confirmed(s, h)
  {
    hide BlocksOk, ChainsLinear, FrontiersOk, Closed, Confirmed, Acyclic;
    WithoutConfirmed(u, s, root);
    WithoutTables(u, s, root);
    WithoutClosed(u, s, root);
  }

  lemma WithoutConfirmed(u: Universe, s: State, root: Hash)
    requires Loose(u, s, root)
    ensures forall h :: Confirmed(With(s, Without(s, root)), h) <==> Confirmed(s, h)
  {
    hide WF;
    LooseUnconfirmed(u, s, root);
  }

  lemma WithoutTables(u: Universe, s: State, root: Hash)
    requires Loose(u, s, root)
    ensures var s' := With(s, Without(s, root)); BlocksOk(u, s') && ChainsLinear(u, s') && FrontiersOk(u, s')
  {
    hide Closed, Acyclic;
    LooseUnconfirmed(u, s, root);
    var s' := With(s, Without(s, root));
    StoredContent(u, s, root);
    assert forall h | h != root :: Known(s', h) <==> Known(s, h);
    forall a: Key | a in s.conf && s.conf[a].height > 0 ensures s.conf[a].frontier in s'.blocks {
      assert s.conf[a].frontier in s.blocks;
    }
  }

  lemma WithoutClosed(u: Universe, s: State, root: Hash)
    requires Loose(u, s, root)
    ensures Closed(u, With(s, Without(s, root)))
  {
    hide BlocksOk, ChainsLinear, FrontiersOk, Acyclic, Confirmed;
    WithoutConfirmed(u, s, root);
  }

  lemma TogglingOk(u: Universe, s: State, root: Hash)
    requires Loose(u, s, root)
    ensures EnvOk(u, Toggling(s, root))
  {
    hide WF, Confirmed, Loose;
    WithoutWF(u, s, root);
    var s' := With(s, Without(s, root));
    assert With(s', Tables(s.blocks, s.pruned)) == s;
    assert WF(u, s) by { LooseWF(u, s, root); }
  }

  lemma LooseWF(u: Universe, s: State, root: Hash)
    requires Loose(u, s, root)
    ensures WF(u, s) && root in s.blocks && !DepsConfirmed(s, s.blocks[root])
  {
  }

  /** They neither leave the root alone nor stop putting it back. */
  lemma TogglingNeverSettles(u: Universe, s: State, root: Hash, quiet: nat)
    requires Loose(u, s, root)
    ensures !Settles(Toggling(s, root), quiet, root)
  {
    hide WF, DepsConfirmed, Toggling;
    TogglingSteps(s, root, 2 * quiet + 1);
    TogglingSteps(s, root, 2 * quiet);
  }

  lemma TogglingSteps(s: State, root: Hash, k: nat)
    ensures k % 2 == 1 ==> Toggling(s, root).step(k, s) == Some(Without(s, root))
    ensures k % 2 == 0 ==> Toggling(s, root).step(k, With(s, Without(s, root))) == Some(Tables(s.blocks, s.pruned))
  {
  }

  /** The condition is needed: for every state in which a root waits for a dependency there are writers under which any
      number of rounds over this root confirms nothing. */
  method Stuck(ledger: Ledger, root: Hash, max: nat, rounds: nat, ghost u: Universe)
    requires Loose(u, ledger.Value(), root) && ledger.ticks % 2 == 0
    modifies ledger
    ensures EnvOk(u, Toggling(old(ledger.Value()), root))
    ensures forall quiet: nat :: !Settles(Toggling(old(ledger.Value()), root), quiet, root)
    ensures ledger.ticks == old(ledger.ticks) + 2 * rounds
    ensures forall h :: Confirmed(ledger.Value(), h) <==> Confirmed(old(ledger.Value()), h)
  {
    hide WF, Confirmed, Loose, EnvOk, Settles, Trace, Unconfirmed, Acyclic, Interferes, DepsConfirmed;
    var s := ledger.Value();
    var env := Toggling(s, root);
    TogglingOk(u, s, root);
    WithoutWF(u, s, root);
    LooseWF(u, s, root);
    forall quiet: nat ensures !Settles(env, quiet, root) {
      TogglingNeverSettles(u, s, root, quiet);
    }
    ghost var s' := With(s, Without(s, root));
    var n := 0;
    while n < rounds
      invariant n <= rounds && ledger.ticks == old(ledger.ticks) + 2 * n
      invariant ledger.Value() == s || ledger.Value() == s'
      invariant WF(u, ledger.Value())
    {
      var _ := ledger.RefreshIfNeeded(env, u);
      assert ledger.Value() == s;
      var added := ledger.Confirm(env, root, max, u, 0);
      assert added == [];
      n := n + 1;
    }
  }

  /** No report is empty, and none holds twice the limit. */
  ghost predicate BatchSizes(before: seq<seq<Report>>, after: seq<seq<Report>>, max: nat) {
    && before <= after
    && forall i | |before| <= i < |after| :: 1 <= |after[i]| < 2 * max
  }

  /** Cements every root of `batch`. */
  method ConfirmBatch(ledger: Ledger, env: Env, batch: seq<Hash>, stopped: nat -> bool, max: nat, observer: Observer,
                      ghost u: Universe, ghost quiet: nat)
      returns (completed: bool, ghost unreported: seq<Report>)
    requires WF(u, ledger.Value()) && EnvOk(u, env) && forall root | root in batch :: Settles(env, quiet, root)
    requires 1 <= max
    requires observer.batches == [] && observer.already == [] && observer.failed == []
    modifies ledger, observer
    ensures WF(u, ledger.Value())
    // What is reported, followed by what a stop keeps from being reported, is exactly what has been confirmed.
    ensures Trace(u, old(ledger.Value()), ReportHashes(Concat(observer.batches) + unreported), ledger.Value())
    ensures completed ==> unreported == []
    ensures Acyclic(u) && forall r | r in Concat(observer.batches) + unreported :: Truthful(u, old(ledger.Value()), batch, r)
    ensures BatchSizes([], observer.batches, max)
    // Every root is confirmed in the end or has been reported as failed.
    ensures completed ==> forall i | 0 <= i < |batch| :: Confirmed(ledger.Value(), batch[i]) || batch[i] in observer.failed
    ensures forall r | r in observer.failed :: r in batch
    ensures forall r | r in observer.already :: r in batch && Confirmed(ledger.Value(), r)
  {
    hide WF, Trace, EnvOk, Accounted, Truthful, Confirmed, Stays, NoReturn, Unconfirmed, Concat, Label, Hashes, ReportHashes;
    ghost var s0 := ledger.Value();
    var confirmed: seq<Report> := [];
    assert Concat(observer.batches) + confirmed == [] by { ConcatNil(); }
    AccountedStart(u, s0, batch);
    var i := 0;
    while i < |batch|
      invariant i <= |batch|
      invariant Accounted(u, s0, batch, ledger.Value(), Concat(observer.batches), confirmed)
      invariant |confirmed| < 2 * max
      invariant BatchSizes([], observer.batches, max)
      invariant forall j | 0 <= j < i :: Confirmed(ledger.Value(), batch[j]) || batch[j] in observer.failed
      invariant forall r | r in observer.failed :: r in batch
      invariant forall r | r in observer.already :: r in batch && Confirmed(ledger.Value(), r)
    {
      var success, stop;
      success, stop, confirmed := ConfirmRoot(ledger, env, batch[i], stopped, max, observer, confirmed, u, quiet, s0, batch);
      if stop {
        AccountedTrace(u, s0, batch, ledger.Value(), Concat(observer.batches), confirmed);
        return false, confirmed;
      }
      if !success {
        observer.failed := observer.failed + [batch[i]];
      }
      i := i + 1;
    }
    if confirmed != [] {
      AccountedFlush(u, s0, batch, ledger.Value(), Concat(observer.batches), confirmed);
      observer.BatchConfirmed(confirmed);
    }
    AccountedTrace(u, s0, batch, ledger.Value(), Concat(observer.batches), []);
    return true, [];
  }

  lemma ConcatNil()
    ensures Concat([]) == []
  {
  }

  lemma AccountedStart(u: Universe, s: State, batch: seq<Hash>)
    requires WF(u, s)
    ensures Accounted(u, s, batch, s, [], [])
  {
  }

  lemma AccountedTrace(u: Universe, s0: State, batch: seq<Hash>, s: State, reported: seq<Report>, confirmed: seq<Report>)
    requires Accounted(u, s0, batch, s, reported, confirmed)
    ensures WF(u, s) && Trace(u, s0, ReportHashes(reported + confirmed), s)
    ensures Acyclic(u) && forall r | r in reported + confirmed :: Truthful(u, s0, batch, r)
  {
  }

  lemma AccountedFacts(u: Universe, s0: State, batch: seq<Hash>, s: State, reported: seq<Report>, confirmed: seq<Report>)
    requires Accounted(u, s0, batch, s, reported, confirmed)
    ensures WF(u, s) && Acyclic(u)
  {
  }

  ghost function UnconfirmedCount(u: Universe, s: State, root: Hash): nat {
    if Acyclic(u) then |Unconfirmed(u, s, root)| else 0
  }

  lemma TraceShrinksTo(u: Universe, s: State, hs: seq<Hash>, s': State, root: Hash)
    requires Acyclic(u) && Trace(u, s, hs, s')
    ensures UnconfirmedCount(u, s', root) <= UnconfirmedCount(u, s, root)
    ensures hs != [] && hs[0] in Unconfirmed(u, s, root) ==> UnconfirmedCount(u, s', root) < UnconfirmedCount(u, s, root)
  {
    TraceShrinks(u, s, hs, s', root);
  }
}
